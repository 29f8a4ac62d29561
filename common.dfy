/**
 * The managed-side logic of ZEDCommon.cs in the ZED C# binding: the array
 * capacities of the native ABI, the object lookup in a detection frame, the
 * sensor availability dispatch, the spatial-mapping presets and the GNSS /
 * positional-tracking fusion parameter objects.
 *
 * C# enum variables can hold any integer, not only the named members, so the
 * enums whose unnamed values reach a code path here are modelled as newtypes
 * over int with one constant per named member.  Single-precision floats are
 * modelled as reals holding the decimal literal written in the source.
 */
module ZedCommon {

  // ---------------------------------------------------------------------------
  // Constant: fixed capacities of the native ABI
  // ---------------------------------------------------------------------------

  /** Capacity of `Objects.objectData` (Constant.MAX_OBJECTS). */
  const MaxObjects: nat := 75
  /** Constant.MAX_SUBMESH */
  const MaxSubmesh: nat := 1000
  /** Constant.MAX_BATCH_SIZE */
  const MaxBatchSize: nat := 200
  /** Constant.MAX_CAMERA_PLUGIN */
  const MaxCameraPlugin: nat := 20
  /** Number of entries of the configuration buffer handed to the fusion module (Constant.MAX_FUSED_CAMERAS). */
  const MaxFusedCameras: nat := 20

  // ---------------------------------------------------------------------------
  // Failures
  // ---------------------------------------------------------------------------

  datatype Option<T> = None | Some(value: T)

  /** The runtime exceptions that the modelled code can raise. */
  datatype Fault = NullReference | IndexOutOfRange

  /** A value, or the exception raised while computing it. */
  datatype Result<T> = Success(value: T) | Failure(fault: Fault)

  // ---------------------------------------------------------------------------
  // Sensors
  // ---------------------------------------------------------------------------

  /** SENSOR_TYPE, as the raw enum value. */
  newtype SensorType = int

  const Accelerometer: SensorType := 0
  const Gyroscope: SensorType := 1
  const Magnetometer: SensorType := 2
  const Barometer: SensorType := 3

  /** SensorParameters: the description of one sensor of the device. */
  datatype SensorParameters = SensorParameters(
    sensorType: SensorType,
    resolution: real,
    samplingRate: real,
    rangeMin: real,
    rangeMax: real,
    noiseDensity: real,
    randomWalk: real,
    sensorUnit: int,
    isAvailable: bool)

  /** SensorsConfiguration: one parameter block per sensor of the device. */
  datatype SensorsConfiguration = SensorsConfiguration(
    firmwareVersion: nat,
    accelerometerParameters: SensorParameters,
    gyroscopeParameters: SensorParameters,
    magnetometerParameters: SensorParameters,
    barometerParameters: SensorParameters)
  {
    /** isSensorAvailable: the availability flag of the block that describes `sensorType`. */
    function IsSensorAvailable(sensorType: SensorType): (r: bool)
      ensures r ==> Accelerometer <= sensorType <= Barometer
      ensures sensorType == Accelerometer ==> r == accelerometerParameters.isAvailable
      ensures sensorType == Gyroscope ==> r == gyroscopeParameters.isAvailable
      ensures sensorType == Magnetometer ==> r == magnetometerParameters.isAvailable
      ensures sensorType == Barometer ==> r == barometerParameters.isAvailable
    {
      if sensorType == Accelerometer then accelerometerParameters.isAvailable
      else if sensorType == Gyroscope then gyroscopeParameters.isAvailable
      else if sensorType == Magnetometer then magnetometerParameters.isAvailable
      else if sensorType == Barometer then barometerParameters.isAvailable
      else false
    }

    /** The block that describes the sensor of the given type, if the enum value names one. */
    function BlockFor(sensorType: SensorType): Option<SensorParameters>
    {
      if sensorType == Accelerometer then Some(accelerometerParameters)
      else if sensorType == Gyroscope then Some(gyroscopeParameters)
      else if sensorType == Magnetometer then Some(magnetometerParameters)
      else if sensorType == Barometer then Some(barometerParameters)
      else None
    }
  }

  /** A sensor type reports available exactly when it names a block and that block is flagged available. */
  lemma AvailabilityFollowsBlock(c: SensorsConfiguration, t: SensorType)
    ensures c.IsSensorAvailable(t) <==> c.BlockFor(t).Some? && c.BlockFor(t).value.isAvailable
  {
  }

  /** Only the block of the requested type decides the answer: the other three blocks can change freely. */
  lemma AvailabilityDependsOnOwnBlockOnly(c: SensorsConfiguration, d: SensorsConfiguration, t: SensorType)
    requires c.BlockFor(t) == d.BlockFor(t)
    ensures c.IsSensorAvailable(t) == d.IsSensorAvailable(t)
  {
  }

  /** A device whose blocks are all flagged unavailable reports no sensor, whatever the enum value asked for. */
  lemma NoFlaggedBlockNoSensor(c: SensorsConfiguration, t: SensorType)
    requires !c.accelerometerParameters.isAvailable && !c.gyroscopeParameters.isAvailable
    requires !c.magnetometerParameters.isAvailable && !c.barometerParameters.isAvailable
    ensures !c.IsSensorAvailable(t)
  {
  }

  // ---------------------------------------------------------------------------
  // Spatial mapping presets
  // ---------------------------------------------------------------------------

  /** MAPPING_RESOLUTION, as the raw enum value. */
  newtype MappingResolution = int

  const ResolutionHigh: MappingResolution := 0
  const ResolutionMedium: MappingResolution := 1
  const ResolutionLow: MappingResolution := 2

  /** MAPPING_RANGE, as the raw enum value. */
  newtype MappingRange = int

  const RangeNear: MappingRange := 0
  const RangeMedium: MappingRange := 1
  const RangeFar: MappingRange := 2

  /** SPATIAL_MAP_TYPE, as the raw enum value. */
  newtype SpatialMapType = int

  const Mesh: SpatialMapType := 0
  const FusedPointCloud: SpatialMapType := 1

  predicate IsResolutionPreset(m: MappingResolution)
  {
    ResolutionHigh <= m <= ResolutionLow
  }

  predicate IsRangePreset(m: MappingRange)
  {
    RangeNear <= m <= RangeFar
  }

  /** Every field of a SpatialMappingParameters object, as one value. */
  datatype MappingSettings = MappingSettings(
    resolutionMeter: real,
    rangeMeter: real,
    saveTexture: bool,
    useChunkOnly: bool,
    maxMemoryUsage: int,
    reverseVertexOrder: bool,
    mapType: SpatialMapType,
    stabilityCounter: int)

  /** The settings after `set(MAPPING_RESOLUTION)`: a preset replaces the resolution, any other value changes nothing. */
  function WithResolutionPreset(s: MappingSettings, m: MappingResolution): (t: MappingSettings)
    ensures t.(resolutionMeter := s.resolutionMeter) == s
    ensures IsResolutionPreset(m) ==> t.resolutionMeter == SpatialMappingParameters.ResolutionMeters(m)
    ensures !IsResolutionPreset(m) ==> t == s
  {
    if IsResolutionPreset(m) then s.(resolutionMeter := SpatialMappingParameters.ResolutionMeters(m)) else s
  }

  /** The settings after `set(MAPPING_RANGE)`: a preset replaces the range, any other value changes nothing. */
  function WithRangePreset(s: MappingSettings, m: MappingRange): (t: MappingSettings)
    ensures t.(rangeMeter := s.rangeMeter) == s
    ensures IsRangePreset(m) ==> t.rangeMeter == SpatialMappingParameters.RangeMeters(m)
    ensures !IsRangePreset(m) ==> t == s
  {
    if IsRangePreset(m) then s.(rangeMeter := SpatialMappingParameters.RangeMeters(m)) else s
  }

  /** SpatialMappingParameters: the options of the spatial-mapping module, updated in place by `set`. */
  class SpatialMappingParameters {
    var resolutionMeter: real
    var rangeMeter: real
    var saveTexture: bool
    var useChunkOnly: bool
    var maxMemoryUsage: int
    var reverseVertexOrder: bool
    var mapType: SpatialMapType
    var stabilityCounter: int

    ghost function Settings(): MappingSettings
      reads this
    {
      MappingSettings(resolutionMeter, rangeMeter, saveTexture, useChunkOnly,
                      maxMemoryUsage, reverseVertexOrder, mapType, stabilityCounter)
    }

    /** The constructor assigns every field from its (defaulted) arguments, so the field initializers never survive. */
    constructor (resolutionMeter: real := 0.05, rangeMeter: real := 0.0, saveTexture: bool := false,
                 mapType: SpatialMapType := Mesh, useChunkOnly: bool := false, maxMemoryUsage: int := 2048,
                 reverseVertexOrder: bool := false, stabilityCounter: int := 0)
      ensures Settings() == MappingSettings(resolutionMeter, rangeMeter, saveTexture, useChunkOnly,
                                            maxMemoryUsage, reverseVertexOrder, mapType, stabilityCounter)
    {
      this.resolutionMeter := resolutionMeter;
      this.rangeMeter := rangeMeter;
      this.saveTexture := saveTexture;
      this.mapType := mapType;
      this.useChunkOnly := useChunkOnly;
      this.maxMemoryUsage := maxMemoryUsage;
      this.reverseVertexOrder := reverseVertexOrder;
      this.stabilityCounter := stabilityCounter;
    }

    /** Static `get(MAPPING_RESOLUTION)`: the mesh resolution in metres of a preset; MEDIUM's for any other value. */
    static function ResolutionMeters(m: MappingResolution := ResolutionMedium): (r: real)
      ensures r == 0.05 || r == 0.10 || r == 0.15
    {
      if m == ResolutionHigh then 0.05
      else if m == ResolutionMedium then 0.10
      else if m == ResolutionLow then 0.15
      else 0.10
    }

    /** Static `get(MAPPING_RANGE)`: the depth range in metres of a preset; MEDIUM's for any other value. */
    static function RangeMeters(m: MappingRange := RangeMedium): (r: real)
      ensures r == 3.5 || r == 5.0 || r == 10.0
    {
      if m == RangeNear then 3.5
      else if m == RangeMedium then 5.0
      else if m == RangeFar then 10.0
      else 5.0
    }

    /** `set(MAPPING_RESOLUTION)`: only `resolutionMeter` may change. */
    method SetResolution(m: MappingResolution := ResolutionMedium)
      modifies this`resolutionMeter
      ensures Settings() == WithResolutionPreset(old(Settings()), m)
    {
      if m == ResolutionHigh {
        resolutionMeter := 0.05;
      } else if m == ResolutionMedium {
        resolutionMeter := 0.10;
      }
      if m == ResolutionLow {
        resolutionMeter := 0.15;
      }
    }

    /** `set(MAPPING_RANGE)`: only `rangeMeter` may change. */
    method SetRange(m: MappingRange := RangeMedium)
      modifies this`rangeMeter
      ensures Settings() == WithRangePreset(old(Settings()), m)
    {
      if m == RangeNear {
        rangeMeter := 3.5;
      } else if m == RangeMedium {
        rangeMeter := 5.0;
      }
      if m == RangeFar {
        rangeMeter := 10.0;
      }
    }
  }

  /** The resolution presets go from finest to coarsest: HIGH < MEDIUM < LOW. */
  lemma ResolutionPresetsOrdered()
    ensures SpatialMappingParameters.ResolutionMeters(ResolutionHigh) == 0.05
    ensures SpatialMappingParameters.ResolutionMeters(ResolutionMedium) == 0.10
    ensures SpatialMappingParameters.ResolutionMeters(ResolutionLow) == 0.15
    ensures SpatialMappingParameters.ResolutionMeters(ResolutionHigh)
          < SpatialMappingParameters.ResolutionMeters(ResolutionMedium)
          < SpatialMappingParameters.ResolutionMeters(ResolutionLow)
  {
  }

  /** The range presets are the distances the MAPPING_RANGE documentation names: 3.5 m, 5 m and 10 m. */
  lemma RangePresetsOrdered()
    ensures SpatialMappingParameters.RangeMeters(RangeNear) == 3.5
    ensures SpatialMappingParameters.RangeMeters(RangeMedium) == 5.0
    ensures SpatialMappingParameters.RangeMeters(RangeFar) == 10.0
    ensures SpatialMappingParameters.RangeMeters(RangeNear)
          < SpatialMappingParameters.RangeMeters(RangeMedium)
          < SpatialMappingParameters.RangeMeters(RangeFar)
  {
  }

  /** The resolution `get` falls back to the MEDIUM preset for an enum value that names no preset. */
  lemma UnknownResolutionReadsAsMedium(m: MappingResolution)
    requires !IsResolutionPreset(m)
    ensures SpatialMappingParameters.ResolutionMeters(m) == SpatialMappingParameters.ResolutionMeters(ResolutionMedium)
  {
  }

  /** The range `get` falls back to the MEDIUM preset for an enum value that names no preset. */
  lemma UnknownRangeReadsAsMedium(n: MappingRange)
    requires !IsRangePreset(n)
    ensures SpatialMappingParameters.RangeMeters(n) == SpatialMappingParameters.RangeMeters(RangeMedium)
  {
  }

  /** Setting the same resolution preset twice is the same as setting it once. */
  lemma SetResolutionIdempotent(s: MappingSettings, m: MappingResolution)
    ensures WithResolutionPreset(WithResolutionPreset(s, m), m) == WithResolutionPreset(s, m)
  {
  }

  /** Setting the same range preset twice is the same as setting it once. */
  lemma SetRangeIdempotent(s: MappingSettings, m: MappingRange)
    ensures WithRangePreset(WithRangePreset(s, m), m) == WithRangePreset(s, m)
  {
  }

  /** Off the presets `get` and `set` part ways: `get` answers MEDIUM's value, `set` keeps the old one. */
  lemma SetAndGetDifferOffPreset(s: MappingSettings, m: MappingResolution, n: MappingRange)
    requires !IsResolutionPreset(m) && !IsRangePreset(n)
    ensures WithResolutionPreset(s, m).resolutionMeter == s.resolutionMeter
    ensures SpatialMappingParameters.ResolutionMeters(m) == 0.10
    ensures WithRangePreset(s, n).rangeMeter == s.rangeMeter
    ensures SpatialMappingParameters.RangeMeters(n) == 5.0
  {
  }

  // ---------------------------------------------------------------------------
  // Object detection: looking an object up in a frame
  // ---------------------------------------------------------------------------

  /** ObjectData: one detected object (the fields the model needs; geometry is left out). */
  datatype ObjectData = ObjectData(
    id: int,
    uniqueObjectId: string,
    rawLabel: int,
    objectLabel: int,
    sublabel: int,
    objectTrackingState: int,
    actionState: int,
    confidence: real)

  /** `new sl.ObjectData()`: every field zero (the null string as the empty one). */
  const EmptyObjectData: ObjectData := ObjectData(0, "", 0, 0, 0, 0, 0, 0.0)

  /**
   * How a lookup ends: it returns its flag with the out-parameter, or an exception
   * escapes and the caller's out-parameter keeps what the loop last stored in it.
   */
  datatype LookupOutcome =
    | Returned(found: bool, objectData: ObjectData)
    | Threw(fault: Fault, objectData: ObjectData)

  /** The index of the last entry whose id is `wanted`, or -1 when there is none. */
  function LastIndexWithId(entries: seq<ObjectData>, wanted: int): (k: int)
    ensures -1 <= k < |entries|
    ensures k >= 0 ==> entries[k].id == wanted
    ensures forall j :: k < j < |entries| ==> entries[j].id != wanted
  {
    if entries == [] then -1
    else if entries[|entries| - 1].id == wanted then |entries| - 1
    else LastIndexWithId(entries[..|entries| - 1], wanted)
  }

  /** The entry a scan over `entries` leaves in the out-parameter: the last match, or the empty object. */
  function LastMatch(entries: seq<ObjectData>, wanted: int): ObjectData
  {
    var k := LastIndexWithId(entries, wanted);
    if k >= 0 then entries[k] else EmptyObjectData
  }

  /**
   * The outcome of scanning the first `numObject` entries of a frame for id `wanted`
   * without stopping at a match. `entries` is None when the frame's array is null.
   */
  function ScanOutcome(entries: Option<seq<ObjectData>>, numObject: int, wanted: int): (r: LookupOutcome)
    ensures r.Returned? <==> numObject <= 0 || (entries.Some? && numObject <= |entries.value|)
    ensures r.Threw? && r.fault == NullReference <==> entries.None? && numObject > 0
    ensures r.Returned? ==>
              (r.found <==> numObject > 0 && exists i :: 0 <= i < numObject && entries.value[i].id == wanted)
    ensures r.Returned? && r.found ==> r.objectData.id == wanted
    ensures r.Returned? && r.found ==>
              r.objectData == entries.value[LastIndexWithId(entries.value[..numObject], wanted)]
    ensures r.Returned? && !r.found ==> r.objectData == EmptyObjectData
    ensures r.Threw? && r.fault == NullReference ==> r.objectData == EmptyObjectData
    ensures r.Threw? && r.fault == IndexOutOfRange ==> r.objectData == LastMatch(entries.value, wanted)
  {
    if numObject <= 0 then Returned(false, EmptyObjectData)
    else if entries.None? then Threw(NullReference, EmptyObjectData)
    else if numObject <= |entries.value| then
      var prefix := entries.value[..numObject];
      Returned(LastIndexWithId(prefix, wanted) >= 0, LastMatch(prefix, wanted))
    else Threw(IndexOutOfRange, LastMatch(entries.value, wanted))
  }

  /**
   * A frame as the native side fills it has MAX_OBJECTS entries; a count within
   * that capacity is always in bounds, a larger one always ends in an exception.
   */
  lemma MarshalledFrameInBounds(entries: seq<ObjectData>, numObject: int, wanted: int)
    requires |entries| == MaxObjects
    ensures ScanOutcome(Some(entries), numObject, wanted).Returned? <==> numObject <= MaxObjects
  {
  }

  /**
   * Among several matches within the first `numObject` entries, the out-parameter
   * ends with the last one, because the scan never stops early.
   */
  lemma LaterMatchWins(entries: seq<ObjectData>, numObject: int, wanted: int, i: int, j: int)
    requires 0 <= i < j < numObject <= |entries|
    requires entries[i].id == wanted && entries[j].id == wanted
    ensures LastIndexWithId(entries[..numObject], wanted) >= j
    ensures ScanOutcome(Some(entries), numObject, wanted)
            == Returned(true, entries[LastIndexWithId(entries[..numObject], wanted)])
  {
    assert entries[..numObject][j] == entries[j];
  }

  /**
   * The lookup as written compares every id with 0, not with the id asked for:
   * a frame holding one object with id 7 answers "not found" when asked for 7,
   * and a frame holding an object with id 0 answers "found" for any id.
   */
  lemma LookupIgnoresRequestedId()
    ensures var seven := ObjectData(7, "", 0, 0, 0, 0, 0, 0.5);
            && ScanOutcome(Some([seven]), 1, 0) == Returned(false, EmptyObjectData)
            && ScanOutcome(Some([seven]), 1, 7) == Returned(true, seven)
    ensures var zero := ObjectData(0, "", 1, 0, 0, 0, 0, 0.5);
            ScanOutcome(Some([zero]), 1, 0) == Returned(true, zero)
  {
  }

  /**
   * Objects: the detections of one image frame, with a fixed-capacity entry array.
   * The source declares a struct filled by the native library; it is a class here
   * only so that its entries can be an array, and no operation copies or changes it.
   */
  class Objects {
    var numObject: int
    var timestamp: nat
    var isNew: int
    var isTracked: int
    var detectionModel: int
    var objectData: array?<ObjectData>

    /** The entry array as a value; None when the array reference is null. */
    function Entries(): Option<seq<ObjectData>>
      reads this, objectData
    {
      if objectData == null then None else Some(objectData[..])
    }

    /** The loop of the lookup: visit entries 0 .. numObject-1 and keep the last one whose id is `wanted`. */
    method ScanFor(wanted: int) returns (outcome: LookupOutcome)
      ensures outcome == ScanOutcome(Entries(), numObject, wanted)
    {
      var output := false;
      var last := EmptyObjectData;
      var idx := 0;
      while idx < numObject
        invariant 0 <= idx
        invariant idx > 0 ==> objectData != null && idx <= objectData.Length && idx <= numObject
        invariant idx == 0 ==> !output && last == EmptyObjectData
        invariant objectData != null && idx <= objectData.Length ==>
                    output == (LastIndexWithId(objectData[..idx], wanted) >= 0)
                    && last == LastMatch(objectData[..idx], wanted)
        decreases numObject - idx
      {
        if objectData == null {
          return Threw(NullReference, last);
        }
        if idx >= objectData.Length {
          assert objectData[..idx] == objectData[..];
          return Threw(IndexOutOfRange, last);
        }
        if objectData[idx].id == wanted {
          last := objectData[idx];
          output := true;
        }
        assert objectData[..idx + 1][..idx] == objectData[..idx];
        idx := idx + 1;
      }
      if numObject > 0 {
        assert objectData[..][..numObject] == objectData[..idx];
      }
      outcome := Returned(output, last);
    }

    /** `GetObjectDataFromId` as written: the requested id is never used, every id is compared with 0. */
    method GetObjectDataFromId(objectDataId: int) returns (outcome: LookupOutcome)
      ensures outcome == ScanOutcome(Entries(), numObject, 0)
    {
      outcome := ScanFor(0);
    }

    /** The lookup its documentation describes: found exactly when an entry in range carries `objectDataId`. */
    method FindObjectById(objectDataId: int) returns (outcome: LookupOutcome)
      ensures outcome == ScanOutcome(Entries(), numObject, objectDataId)
      ensures outcome.Returned? && outcome.found ==> outcome.objectData.id == objectDataId
      ensures outcome.Returned? ==>
                (outcome.found <==> exists i :: 0 <= i < numObject && objectData[i].id == objectDataId)
    {
      outcome := ScanFor(objectDataId);
    }
  }

  // ---------------------------------------------------------------------------
  // GNSS / positional-tracking fusion parameters
  // ---------------------------------------------------------------------------

  /** The six options of a GNSSCalibrationParameters object, as one value. */
  datatype GnssCalibration = GnssCalibration(
    targetYawUncertainty: real,
    enableTranslationUncertaintyTarget: bool,
    targetTranslationUncertainty: real,
    enableReinitialization: bool,
    gnssVioReinitThreshold: real,
    enableRollingCalibration: bool)

  /** What `new GNSSCalibrationParameters()` holds: the constructor's default arguments. */
  const DefaultGnssCalibration: GnssCalibration := GnssCalibration(0.1, false, 0.01, true, 5.0, true)

  /** The field initializer of `targetTranslationUncertainty` (10e-2), which every constructor call overwrites. */
  const TranslationUncertaintyInitializer: real := 10.0 / 100.0

  /** GNSSCalibrationParameters: the options of the GNSS / VIO calibration. */
  class GnssCalibrationParameters {
    var targetYawUncertainty: real
    var enableTranslationUncertaintyTarget: bool
    var targetTranslationUncertainty: real
    var enableReinitialization: bool
    var gnssVioReinitThreshold: real
    var enableRollingCalibration: bool

    ghost function Values(): GnssCalibration
      reads this
    {
      GnssCalibration(targetYawUncertainty, enableTranslationUncertaintyTarget, targetTranslationUncertainty,
                      enableReinitialization, gnssVioReinitThreshold, enableRollingCalibration)
    }

    constructor (targetYawUncertainty_: real := 0.1, enableTranslationUncertaintyTarget_: bool := false,
                 targetTranslationUncertainty_: real := 0.01, enableReinitialization_: bool := true,
                 gnssVioReinitThreshold_: real := 5.0, enableRollingCalibration_: bool := true)
      ensures Values() == GnssCalibration(targetYawUncertainty_, enableTranslationUncertaintyTarget_,
                                          targetTranslationUncertainty_, enableReinitialization_,
                                          gnssVioReinitThreshold_, enableRollingCalibration_)
    {
      targetYawUncertainty := targetYawUncertainty_;
      enableTranslationUncertaintyTarget := enableTranslationUncertaintyTarget_;
      targetTranslationUncertainty := targetTranslationUncertainty_;
      enableReinitialization := enableReinitialization_;
      gnssVioReinitThreshold := gnssVioReinitThreshold_;
      enableRollingCalibration := enableRollingCalibration_;
    }
  }

  /** PositionalTrackingFusionParameters: whether GNSS fusion is on, and the calibration options. */
  class PositionalTrackingFusionParameters {
    var enableGnssFusion: bool
    var gnssCalibrationParameters: GnssCalibrationParameters?

    /** GNSS fusion off, and a fresh calibration object built with every default argument. */
    constructor ()
      ensures !enableGnssFusion
      ensures gnssCalibrationParameters != null && fresh(gnssCalibrationParameters)
      ensures gnssCalibrationParameters.Values() == DefaultGnssCalibration
    {
      enableGnssFusion := false;
      gnssCalibrationParameters := new GnssCalibrationParameters();
    }
  }

  /**
   * A default-constructed calibration object ends with a translation uncertainty of
   * 0.01, not the 10e-2 its field initializer (and its documentation) state.
   */
  method DefaultCalibrationOverridesInitializer() returns (p: GnssCalibrationParameters)
    ensures p.targetTranslationUncertainty == 0.01
    ensures p.targetTranslationUncertainty != TranslationUncertaintyInitializer
    ensures p.targetYawUncertainty == 0.1 && !p.enableTranslationUncertaintyTarget
    ensures p.enableReinitialization && p.gnssVioReinitThreshold == 5.0 && p.enableRollingCalibration
  {
    p := new GnssCalibrationParameters();
  }
}
