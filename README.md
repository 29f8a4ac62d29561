# ZED C# binding: managed-side logic

The ZED C# binding wraps a closed native stereo-camera library. Almost all of it
mirrors native structs and forwards calls into the library. This project models
the few pieces that do work on the managed side:

- the array capacities of the native ABI (`Constant`);
- the lookup of an object in a detection frame (`Objects.GetObjectDataFromId`);
- the sensor availability dispatch (`SensorsConfiguration.isSensorAvailable`);
- the spatial-mapping presets (`SpatialMappingParameters.get` / `set` and its constructor);
- the GNSS calibration and positional-tracking fusion parameter objects and their defaults;
- the flat copies of those objects that are handed to the library (`sl_GNSSCalibrationParameters`, `sl_PositionalTrackingFusionParameters`);
- the managed-side steps of `Fusion.EnablePositionalTracking` and `Fusion.ReadConfigurationFile`.

`common.dfy` (module `ZedCommon`) follows ZEDCommon.cs and `fusion.dfy` (module
`ZedFusion`) follows ZEDFusion.cs.

Modelling choices:

- A C# enum variable can hold any integer. `SENSOR_TYPE`, `MAPPING_RESOLUTION`,
  `MAPPING_RANGE` and the other enums that reach a code path are therefore newtypes
  over `int`, with one constant per named member. That makes the "unknown value"
  branches reachable.
- Single-precision floats are reals holding the decimal literal written in the source.
- Classes whose fields the source assigns in place are Dafny classes:
  `SpatialMappingParameters`, `GNSSCalibrationParameters` and
  `PositionalTrackingFusionParameters`. `Objects` is a C# `struct` whose fields
  the native library fills; none of the modelled lines assigns them. It is a Dafny
  class only so that its entry array can be a Dafny `array`. No modelled operation
  copies or changes an `Objects` value, so reference semantics change nothing
  here. Three of the four Dafny classes have a view
  that the contracts reason about: the ghost functions `Settings()` of
  `SpatialMappingParameters` and `Values()` of `GnssCalibrationParameters`, and the
  compiled function `Entries()` of `Objects`. `PositionalTrackingFusionParameters`
  has no view of its own; its contracts speak of its two fields directly.
- Runtime exceptions are values:
  - a null reference and an index past the end of an array give `Fault`;
  - the lookup's `LookupOutcome.Threw` also records what the caller's `ref`
    out-parameter holds when the exception escapes.
- A native entry point is a function-typed parameter. The model states what the
  binding passes to it and what it does with the answer.

Where the documentation and the code disagree, the model follows the code:

- `GetObjectDataFromId` is documented as a lookup by the given id, but it compares
  every id with `0` (see Findings).
- `targetTranslationUncertainty` is documented as defaulting to 10e-2. Its field
  initializer is 10e-2, but the constructor's default argument is 0.01 and
  overwrites it, so a default object holds 0.01.
- The same happens in `SpatialMappingParameters`: its field initializers
  (resolution 0.0, range 0.05) never survive, because the constructor assigns every
  field from its own defaults (resolution 0.05, range 0.0).

## Model

| member | source | states |
|---|---|---|
| `ZedCommon.SensorsConfiguration.IsSensorAvailable` | Stereolabs.zed/src/ZEDCommon.cs:980-994 | each of the four sensor types reports the `isAvailable` flag of its own parameter block; a true answer implies the enum value names one of the four sensors |
| `ZedCommon.AvailabilityFollowsBlock` | Stereolabs.zed/src/ZEDCommon.cs:980-994 | available if and only if the enum value names a parameter block and that block is flagged available |
| `ZedCommon.AvailabilityDependsOnOwnBlockOnly` | Stereolabs.zed/src/ZEDCommon.cs:980-994 | two configurations that agree on the block for `t` give the same answer for `t`; the other blocks do not matter |
| `ZedCommon.NoFlaggedBlockNoSensor` | Stereolabs.zed/src/ZEDCommon.cs:980-994 | with every block flagged unavailable, no enum value reports a sensor (the default branch returns false) |
| `ZedCommon.SpatialMappingParameters.constructor` | Stereolabs.zed/src/ZEDCommon.cs:2103-2115 | every field equals its (defaulted) constructor argument |
| `ZedCommon.SpatialMappingParameters.ResolutionMeters` | Stereolabs.zed/src/ZEDCommon.cs:2120-2135 | the static resolution `get` always answers one of the three preset values 0.05, 0.10, 0.15 |
| `ZedCommon.SpatialMappingParameters.RangeMeters` | Stereolabs.zed/src/ZEDCommon.cs:2141-2156 | the static range `get` always answers one of the three preset values 3.5, 5.0, 10.0 |
| `ZedCommon.ResolutionPresetsOrdered` | Stereolabs.zed/src/ZEDCommon.cs:2120-2135 | HIGH gives 0.05, MEDIUM 0.10 and LOW 0.15, strictly increasing from finest to coarsest |
| `ZedCommon.RangePresetsOrdered` | Stereolabs.zed/src/ZEDCommon.cs:2141-2156 | NEAR gives 3.5, MEDIUM 5.0 and FAR 10.0, the distances the MAPPING_RANGE members document, strictly increasing |
| `ZedCommon.UnknownResolutionReadsAsMedium` | Stereolabs.zed/src/ZEDCommon.cs:2120-2135 | a MAPPING_RESOLUTION value that names no preset reads as MEDIUM |
| `ZedCommon.UnknownRangeReadsAsMedium` | Stereolabs.zed/src/ZEDCommon.cs:2141-2156 | a MAPPING_RANGE value that names no preset reads as MEDIUM |
| `ZedCommon.WithResolutionPreset` | Stereolabs.zed/src/ZEDCommon.cs:2161-2176 | after the resolution `set`, every field except `resolutionMeter` is unchanged; a preset stores what `get` answers for it; any other value changes nothing |
| `ZedCommon.WithRangePreset` | Stereolabs.zed/src/ZEDCommon.cs:2180-2194 | after the range `set`, every field except `rangeMeter` is unchanged; a preset stores what `get` answers for it; any other value changes nothing |
| `ZedCommon.SpatialMappingParameters.SetResolution` | Stereolabs.zed/src/ZEDCommon.cs:2161-2176 | may write `resolutionMeter` only, and leaves the object in the state `WithResolutionPreset` gives for its old state |
| `ZedCommon.SpatialMappingParameters.SetRange` | Stereolabs.zed/src/ZEDCommon.cs:2180-2194 | may write `rangeMeter` only, and leaves the object in the state `WithRangePreset` gives for its old state |
| `ZedCommon.SetResolutionIdempotent` | Stereolabs.zed/src/ZEDCommon.cs:2161-2176 | setting the same resolution value twice equals setting it once |
| `ZedCommon.SetRangeIdempotent` | Stereolabs.zed/src/ZEDCommon.cs:2180-2194 | setting the same range value twice equals setting it once |
| `ZedCommon.SetAndGetDifferOffPreset` | Stereolabs.zed/src/ZEDCommon.cs:2120-2194 | for every settings value and every resolution and range value that names no preset, `set` keeps the old field while `get` answers MEDIUM's value (0.10 and 5.0) |
| `ZedCommon.LastIndexWithId` | Stereolabs.zed/src/ZEDCommon.cs:3008-3013 | the index of the last entry carrying the wanted id: it carries the id, no later entry does, and -1 means no entry does |
| `ZedCommon.ScanOutcome` | Stereolabs.zed/src/ZEDCommon.cs:3004-3015 | the scan returns exactly when the count is non-positive or within the array; a null array with a positive count raises a null reference; on return, found holds if and only if some entry among the first `numObject` has the wanted id; a found object is the LAST entry among the first `numObject` with that id; a miss yields the empty object; a null array leaves the empty object in the out-parameter; past the array end the exception leaves the last match of the whole array in the out-parameter |
| `ZedCommon.MarshalledFrameInBounds` | Stereolabs.zed/src/ZEDCommon.cs:2995-3015 | on a frame of MAX_OBJECTS (75) entries the scan returns if and only if `numObject` is at most 75 |
| `ZedCommon.LaterMatchWins` | Stereolabs.zed/src/ZEDCommon.cs:3008-3013 | when entries `i < j` among the first `numObject` both match, the scan returns found with the last match among the first `numObject`, at index `j` or later, since the loop never breaks |
| `ZedCommon.LookupIgnoresRequestedId` | Stereolabs.zed/src/ZEDCommon.cs:3009 | as written, a frame holding an object with id 7 misses when asked for 7; an object with id 0 is found whatever is asked |
| `ZedCommon.Objects.ScanFor` | Stereolabs.zed/src/ZEDCommon.cs:3006-3014 | the loop over entries 0 .. numObject-1 (with its exceptions) ends in `ScanOutcome` of the frame |
| `ZedCommon.Objects.GetObjectDataFromId` | Stereolabs.zed/src/ZEDCommon.cs:3004-3015 | as written: the outcome is the scan for id 0, whatever `objectDataId` is |
| `ZedCommon.Objects.FindObjectById` | Stereolabs.zed/src/ZEDCommon.cs:2999-3003 | as documented: found if and only if an entry among the first `numObject` carries `objectDataId`, and the object returned carries it |
| `ZedCommon.GnssCalibrationParameters.constructor` | Stereolabs.zed/src/ZEDCommon.cs:4416-4425 | all six options equal their (defaulted) constructor arguments |
| `ZedCommon.PositionalTrackingFusionParameters.constructor` | Stereolabs.zed/src/ZEDCommon.cs:4445-4449 | GNSS fusion is off, and the calibration object is fresh and holds the constructor defaults |
| `ZedCommon.DefaultCalibrationOverridesInitializer` | Stereolabs.zed/src/ZEDCommon.cs:4393-4421 | a default calibration object holds translation uncertainty 0.01, not the initializer's 10e-2; it also holds yaw 0.1, the translation target off, reinitialization on, threshold 5 and rolling calibration on |
| `ZedFusion.ToNativeGnssCalibration` | Stereolabs.zed/src/ZEDFusion.cs:145-153 | the flat struct carries exactly the six options of the object; a null object raises a null reference |
| `ZedFusion.ConversionInjective` | Stereolabs.zed/src/ZEDFusion.cs:145-153 | two calibration objects convert to the same flat struct if and only if they hold the same options (the copy loses nothing) |
| `ZedFusion.ToNativePositionalTracking` | Stereolabs.zed/src/ZEDFusion.cs:172-176 | copies the fusion flag and converts the nested calibration object with the same copy; a null object or nested object raises a null reference |
| `ZedFusion.DefaultsConvert` | Stereolabs.zed/src/ZEDFusion.cs:172-176 | an object holding the defaults converts to fusion off with yaw 0.1, translation target off, translation uncertainty 0.01, reinitialization on, threshold 5, rolling on |
| `ZedFusion.ConvertDefaultParameters` | Stereolabs.zed/src/ZEDFusion.cs:172-176 | converting a freshly constructed parameters object gives exactly those default flat values |
| `ZedFusion.EnablePositionalTracking` | Stereolabs.zed/src/ZEDFusion.cs:310-315 | the library receives the flat copy of the argument and its status is returned unchanged; a conversion failure raises before the call |
| `ZedFusion.EnableWithDefaults` | Stereolabs.zed/src/ZEDFusion.cs:310-315 | with default parameters the library receives the default flat struct |
| `ZedFusion.ReadConfigurationFile` | Stereolabs.zed/src/ZEDFusion.cs:198-202 | the caller receives a fresh array of exactly MAX_FUSED_CAMERAS (20) slots; the library was handed 20 empty slots; the array holds what the library filled in over those slots; the camera count is the library's |

## Left out

- The `DllImport` declarations and every method that only forwards to one of them. This covers Init, Process, Subscribe, UpdatePose, body tracking, GetPosition, the GNSS getters and converters, and Close. They call into a closed native library whose behaviour is not available.
- The finalizer of `Fusion`: runtime resource management.
- `Matrix3x3.multiply`: single-precision float arithmetic.
- Marshaling attributes, struct layout and byte sizes. These are ABI conformance, not behaviour.
- Plain data records without logic: meshes, chunks, batches, sensor readings, GNSS records. `ObjectData` keeps only its identification, label, state and confidence fields. `FusionConfiguration` keeps only its serial number and input type. Positions, bounding boxes and rotations have no role in the modelled logic.
- `EmptyObjectData` models `new sl.ObjectData()`, whose `uniqueObjectId` is a null string, with the empty string; null and empty strings are not told apart.
- `SensorsConfiguration` omits the IMU and magnetometer transforms, which no modelled operation reads.
- Float rounding: 0.05f, 0.1f and the other literals are not exact in single precision. The model uses the decimal values.
- `ZedFusion.ReadConfigurationFile`: what the library writes is a parameter. The model copies its reply over the 20 slots, as `[In, Out]` array marshaling does, and drops the library's status, as the source does.
- `ZedFusion.EnablePositionalTracking`: the library may modify its by-reference copy of the flat struct, but that copy is discarded, so the model passes it by value.
- `Objects.GetObjectDataFromId`: the `ref` out-parameter is assumed not to point into `objectData`. If it did (`f.GetObjectDataFromId(ref f.objectData[k], id)`), line 3007 would overwrite entry `k` with an empty object of id 0 before the scan. The loop would then read that changed entry, and every later write of the out-parameter would land in it. The model reads the array as an unchanged value and returns the out-parameter separately, so it captures neither effect.
- A null `StringBuilder` file name is not modelled; the string is handed to the library as it is.

## Findings

| source | as written | input that shows it | evidently intended | confidence | as-written member | corrected member |
|---|---|---|---|---|---|---|
| Stereolabs.zed/src/ZEDCommon.cs:3009 | each entry's `id` is compared with the literal `0`; `objectDataId` is never read | `numObject = 1`, `objectData[0].id = 7`, `objectDataId = 7` returns false; any frame with an entry of id 0 returns true for every `objectDataId` | compare with `objectDataId`, as the doc comment at ZEDCommon.cs:2999-3003 says | high; not executed | `ZedCommon.Objects.GetObjectDataFromId` (counterexample: `ZedCommon.LookupIgnoresRequestedId`) | `ZedCommon.Objects.FindObjectById` |
