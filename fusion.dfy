/**
 * The managed-side steps of ZEDFusion.cs: the flat structs handed to the native
 * fusion library, their conversion from the parameter objects of ZEDCommon, and
 * the two fusion calls that do work of their own before calling the library.
 *
 * A native entry point is a function-typed parameter: the library's behaviour is
 * not part of this model, only what the binding passes to it and does with what
 * comes back.
 */
module ZedFusion {
  import opened ZedCommon

  /** FUSION_ERROR_CODE, as the raw enum value the library returns. */
  newtype FusionErrorCode = int

  /** COORDINATE_SYSTEM, as the raw enum value. */
  newtype CoordinateSystem = int

  /** UNIT, as the raw enum value. */
  newtype Unit = int

  /** sl_GNSSCalibrationParameters: the flat copy of a GNSSCalibrationParameters object. */
  datatype NativeGnssCalibration = NativeGnssCalibration(
    targetYawUncertainty: real,
    enableTranslationUncertaintyTarget: bool,
    targetTranslationUncertainty: real,
    enableReinitialization: bool,
    gnssVioReinitThreshold: real,
    enableRollingCalibration: bool)

  /** sl_PositionalTrackingFusionParameters: the flat copy of a PositionalTrackingFusionParameters object. */
  datatype NativePositionalTracking = NativePositionalTracking(
    enableGnssFusion: bool,
    gnssCalibrationParameters: NativeGnssCalibration)

  /** The options a flat struct carries, read back. */
  function CalibrationOf(n: NativeGnssCalibration): GnssCalibration
  {
    GnssCalibration(n.targetYawUncertainty, n.enableTranslationUncertaintyTarget,
                    n.targetTranslationUncertainty, n.enableReinitialization,
                    n.gnssVioReinitThreshold, n.enableRollingCalibration)
  }

  /**
   * The `sl_GNSSCalibrationParameters(GNSSCalibrationParameters)` constructor: a
   * field-by-field copy; a null argument raises a null-reference exception.
   */
  function ToNativeGnssCalibration(p: GnssCalibrationParameters?): (r: Result<NativeGnssCalibration>)
    reads p
    ensures r.Failure? <==> p == null
    ensures r.Failure? ==> r.fault == NullReference
    ensures r.Success? ==> CalibrationOf(r.value) == p.Values()
  {
    if p == null then Failure(NullReference)
    else Success(NativeGnssCalibration(p.targetYawUncertainty, p.enableTranslationUncertaintyTarget,
                                       p.targetTranslationUncertainty, p.enableReinitialization,
                                       p.gnssVioReinitThreshold, p.enableRollingCalibration))
  }

  /** The copy loses nothing: two calibration objects convert alike exactly when they hold the same six options. */
  lemma ConversionInjective(p: GnssCalibrationParameters, q: GnssCalibrationParameters)
    ensures ToNativeGnssCalibration(p) == ToNativeGnssCalibration(q) <==> p.Values() == q.Values()
  {
  }

  /**
   * The `sl_PositionalTrackingFusionParameters(PositionalTrackingFusionParameters)`
   * constructor: copies the fusion flag and converts the nested calibration object
   * the same way; a null object or a null nested object raises a null-reference exception.
   */
  function ToNativePositionalTracking(p: PositionalTrackingFusionParameters?): (r: Result<NativePositionalTracking>)
    reads p, if p == null then {} else {p.gnssCalibrationParameters}
    ensures r.Failure? <==> p == null || p.gnssCalibrationParameters == null
    ensures r.Failure? ==> r.fault == NullReference
    ensures r.Success? ==> r.value.enableGnssFusion == p.enableGnssFusion
    ensures r.Success? ==> Success(r.value.gnssCalibrationParameters) == ToNativeGnssCalibration(p.gnssCalibrationParameters)
  {
    if p == null then Failure(NullReference)
    else
      match ToNativeGnssCalibration(p.gnssCalibrationParameters)
      case Failure(f) => Failure(f)
      case Success(calibration) => Success(NativePositionalTracking(p.enableGnssFusion, calibration))
  }

  /** The flat struct of a default PositionalTrackingFusionParameters object. */
  const DefaultNativePositionalTracking: NativePositionalTracking :=
    NativePositionalTracking(false, NativeGnssCalibration(0.1, false, 0.01, true, 5.0, true))

  /** Any parameters object holding the defaults converts to GNSS fusion off with the default calibration. */
  lemma DefaultsConvert(p: PositionalTrackingFusionParameters)
    requires !p.enableGnssFusion
    requires p.gnssCalibrationParameters != null
    requires p.gnssCalibrationParameters.Values() == DefaultGnssCalibration
    ensures ToNativePositionalTracking(p) == Success(DefaultNativePositionalTracking)
  {
  }

  /**
   * Converting a freshly constructed PositionalTrackingFusionParameters: fusion off,
   * and the calibration defaults, with translation uncertainty 0.01.
   */
  method ConvertDefaultParameters() returns (r: Result<NativePositionalTracking>)
    ensures r == Success(DefaultNativePositionalTracking)
    ensures r.value.gnssCalibrationParameters.targetTranslationUncertainty == 0.01
  {
    var p := new PositionalTrackingFusionParameters();
    DefaultsConvert(p);
    r := ToNativePositionalTracking(p);
  }

  /**
   * `Fusion.EnablePositionalTracking`: build the flat struct from the argument and
   * return the library's status unchanged; a null argument (or a null nested
   * calibration object) raises before the library is called.
   */
  function EnablePositionalTracking(ptfParams: PositionalTrackingFusionParameters?,
                                    enableNative: NativePositionalTracking -> FusionErrorCode): (r: Result<FusionErrorCode>)
    reads ptfParams, if ptfParams == null then {} else {ptfParams.gnssCalibrationParameters}
    ensures r.Failure? <==> ToNativePositionalTracking(ptfParams).Failure?
    ensures r.Success? ==> r.value == enableNative(ToNativePositionalTracking(ptfParams).value)
  {
    match ToNativePositionalTracking(ptfParams)
    case Failure(f) => Failure(f)
    case Success(flat) => Success(enableNative(flat))
  }

  /** With default parameters the library receives GNSS fusion off and the default calibration. */
  lemma EnableWithDefaults(p: PositionalTrackingFusionParameters, enableNative: NativePositionalTracking -> FusionErrorCode)
    requires !p.enableGnssFusion
    requires p.gnssCalibrationParameters != null
    requires p.gnssCalibrationParameters.Values() == DefaultGnssCalibration
    ensures EnablePositionalTracking(p, enableNative) == Success(enableNative(DefaultNativePositionalTracking))
  {
  }

  // ---------------------------------------------------------------------------
  // Reading a fusion configuration file
  // ---------------------------------------------------------------------------

  /** FusionConfiguration: one camera of a fusion set-up (communication and pose fields left out). */
  datatype FusionConfiguration = FusionConfiguration(serialNumber: int, inputType: int)

  /** A zero-initialised FusionConfiguration, as `new FusionConfiguration[n]` fills its slots. */
  const EmptyFusionConfiguration: FusionConfiguration := FusionConfiguration(0, 0)

  /** The buffer the binding hands to the library: MAX_FUSED_CAMERAS empty slots. */
  const EmptyConfigurationBuffer: seq<FusionConfiguration> := seq(MaxFusedCameras, _ => EmptyFusionConfiguration)

  /** What the library's configuration reader gives back: its status, the slots it fills and the camera count. */
  datatype ConfigurationReply = ConfigurationReply(status: FusionErrorCode, filled: seq<FusionConfiguration>, nbCameras: int)

  /** The native configuration reader: file name, coordinate system, unit, the buffer it is given, the camera count passed by reference. */
  type ConfigurationReader = (string, CoordinateSystem, Unit, seq<FusionConfiguration>, int) -> ConfigurationReply

  /** The buffer after the library wrote `filled` into it: the library can only fill the slots the buffer has. */
  function CopyBack(buffer: seq<FusionConfiguration>, filled: seq<FusionConfiguration>): (r: seq<FusionConfiguration>)
    ensures |r| == |buffer|
    ensures forall i :: 0 <= i < |r| && i < |filled| ==> r[i] == filled[i]
    ensures forall i :: |filled| <= i < |r| ==> r[i] == buffer[i]
  {
    seq(|buffer|, i requires 0 <= i < |buffer| => if i < |filled| then filled[i] else buffer[i])
  }

  /**
   * `Fusion.ReadConfigurationFile`: the caller's array is replaced by a fresh one of
   * exactly MAX_FUSED_CAMERAS slots before the library fills it; the library's
   * status is dropped, as the source does.
   */
  method ReadConfigurationFile(jsonConfigFileName: string, coordinateSystem: CoordinateSystem, unit: Unit,
                               nbCamerasIn: int, readNative: ConfigurationReader)
    returns (configs: array<FusionConfiguration>, nbCameras: int)
    ensures fresh(configs)
    ensures configs.Length == MaxFusedCameras
    ensures var reply := readNative(jsonConfigFileName, coordinateSystem, unit, EmptyConfigurationBuffer, nbCamerasIn);
            configs[..] == CopyBack(EmptyConfigurationBuffer, reply.filled) && nbCameras == reply.nbCameras
  {
    configs := new FusionConfiguration[MaxFusedCameras](_ => EmptyFusionConfiguration);
    assert configs[..] == EmptyConfigurationBuffer;
    var reply := readNative(jsonConfigFileName, coordinateSystem, unit, configs[..], nbCamerasIn);
    var written := CopyBack(configs[..], reply.filled);
    forall i | 0 <= i < configs.Length {
      configs[i] := written[i];
    }
    nbCameras := reply.nbCameras;
  }
}
