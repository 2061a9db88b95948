# Andor Neo area-of-interest configuration, modelled in Dafny

This project models the area-of-interest (AOI) routine of the yaq daemon for
the Andor Neo sCMOS camera, `AndorNeo._set_aoi`. From the daemon's
configuration (`aoi_binning` and the optional `aoi_width`, `aoi_left`,
`aoi_height`, `aoi_top`) and the sensor size held in the camera's feature
registry (`sensor_width`, `sensor_height`), the routine:

1. takes the binning from the first character of the binning specifier;
2. fills in defaults: `left`/`top` become 1, `width`/`height` become the rest of the sensor from that offset;
3. floor-divides width and height by the binning (binned pixels);
4. rejects an AOI whose extent `count * binning + (offset - 1)` passes the sensor size, width first;
5. writes `aoi_binning` (as `"<n>x<n>"`), `aoi_width`, `aoi_left`, `aoi_height`, `aoi_top` to the registry, in that order;
6. records the `"image"` channel shape `(aoi_height, aoi_width)`, read back from the registry, and the pixel index mappings `x_index`, `y_index`.

Files:

- `wrappers.dfy` — `Option`, `Result` and `Outcome`, used in place of Python's exceptions.
- `features.dfy` — the feature registry as a class. It holds a map from feature name to value, plus a log of every write. Reading or writing an unregistered feature fails, as `features[name]` raises `KeyError`. `Replay` applies a write log to a map, and `RegisteredPrefix` counts how many leading names of a write sequence are registered.
- `aoi_geometry.dfy` — the pure integer geometry: binning parsing and formatting, defaults and floor division (`Resolve`), the bounds check (`Plan`), numpy's `arange` for a positive step (`Arange`) and the per-axis index sequence (`AxisIndex`), with their lemmas.
- `andor_neo.dfy` — the `AndorNeo` class. `ResolveAoi` performs the reads and checks and writes nothing; it is proved equal to the specification function `ConfiguredAoi`. `WriteAoi` performs the five ordered writes; it is proved against `AoiWrites` and `Replay`. `SetAoi` is the whole routine, proved against `ConfiguredAoi`, `AoiWrites`, `Replay` and `AxisIndex`.

Each exception the routine can raise becomes an `AoiError` value:

| Python exception | `AoiError` value |
|---|---|
| `IndexError` on an empty specifier | `EmptyBinning` |
| `ValueError` from `int()` of a non-digit | `InvalidBinning` |
| `KeyError` for an unregistered sensor-size or AOI feature | `UnknownFeature` |
| `ZeroDivisionError` for a binning of 0 | `ZeroBinning` |
| `ValueError` for an extent past the sensor | `WidthOverflow` / `HeightOverflow` |

The two overflow values carry the computed extent and the limit. Every error except an unregistered AOI feature arises before the first write, so on those errors `SetAoi` leaves the registry, its log and the object's fields unchanged. An unregistered AOI feature stops the writes at that feature: the writes before it have taken effect, and the shape and mappings are not recorded.

The code does not reject a zero or negative width, height, left or top, and the model does not either. Such an AOI passes when its extents fit. A zero or negative width or height gives an empty index mapping on that axis, exactly as `np.arange` returns for an empty range. A zero or negative left or top gives an index mapping that starts at that offset, off the sensor: left -5 with width 3 and binning 1 passes the check (extent -3) and gives the x indices -5, -4, -3.

## Model

| member | source | states |
|---|---|---|
| `AoiGeometry.ParseBinning` | yaqd_andor/_andor_neo.py:34-38 | succeeds exactly when the specifier is non-empty and starts with a decimal digit, giving the value 0..9 of that digit; an empty specifier is `EmptyBinning`, a non-digit first character `InvalidBinning` |
| `AoiGeometry.FormatBinning` | yaqd_andor/_andor_neo.py:64 | the written-back specifier is three characters, the digit of the binning on both sides of `x` |
| `AoiGeometry.BinningRoundTrip` | yaqd_andor/_andor_neo.py:64 | parsing the written-back specifier gives back the binning that was written |
| `AoiGeometry.ParseReadsFirstCharOnly` | yaqd_andor/_andor_neo.py:38 | only the first character decides the binning, whatever follows it, and the written-back specifier repeats that character on both axes |
| `AoiGeometry.BinnedCount` | yaqd_andor/_andor_neo.py:53-54 | `requested // binning` is the largest count r with `r * binning <= requested` (floor division, negative requests included) |
| `AoiGeometry.Resolve` | yaqd_andor/_andor_neo.py:45-54 | a missing left/top is 1, a given one is kept; width/height is the floor of the given size, or of `max - offset + 1` when missing, over the binning |
| `AoiGeometry.Plan` | yaqd_andor/_andor_neo.py:53-62 | a binning of 0 fails with `ZeroBinning`; every success has a positive binning and both extents within the sensor |
| `AoiGeometry.PlanFailsExactlyOutOfBounds` | yaqd_andor/_andor_neo.py:57-62 | with a positive binning the routine succeeds exactly when both extents fit, with the resolved AOI; a width overflow is reported (with extent and limit) before a height overflow |
| `AoiGeometry.DefaultWidthFits` | yaqd_andor/_andor_neo.py:49-59 | a defaulted width never fails the width check |
| `AoiGeometry.DefaultHeightFits` | yaqd_andor/_andor_neo.py:51-62 | a defaulted height never fails the height check |
| `AoiGeometry.FullSensorByDefault` | yaqd_andor/_andor_neo.py:45-62 | with no geometry configured the AOI is the whole sensor from (1, 1), `max // binning` binned pixels per axis, and it always passes |
| `AoiGeometry.Arange` | yaqd_andor/_andor_neo.py:74-75 | `np.arange(start, stop, step)`: element i is `start + i * step`, every element is below `stop`, and one more step would reach `stop` |
| `AoiGeometry.ArangeCount` | yaqd_andor/_andor_neo.py:74-75 | `arange` from `offset` to `offset + count * binning` in steps of `binning` has exactly `count` entries (none for a negative count) |
| `AoiGeometry.AxisIndex` | yaqd_andor/_andor_neo.py:74-75 | an axis index has exactly `count` entries (none for a negative count) and entry i is `offset + i * binning` |
| `AoiGeometry.Extent` | yaqd_andor/_andor_neo.py:57-58 | the extent is the last sensor pixel of the last binned pixel of the axis index |
| `AoiGeometry.AxisIndexWithinSensor` | yaqd_andor/_andor_neo.py:74 | when the extent check passes, every index lies between the offset and `limit - binning + 1` |
| `Features.Replay` | yaqd_andor/_andor_neo.py:64-68 | replaying writes never unregisters a feature |
| `Features.ReplayAppend` | yaqd_andor/_andor_neo.py:64-68 | replaying a log in two parts, one after the other, is replaying the whole log |
| `Features.ReplayLastWrite` | yaqd_andor/_andor_neo.py:64-68 | a feature's last write in the log decides it: for every write that no later write to the same feature overrides, that feature is registered and holds the written value |
| `Features.RegisteredPrefix` | yaqd_andor/_andor_neo.py:64-68 | the number of leading names that are registered: all names before it are registered, the name at it is not |
| `Features.RegisteredPrefixFull` | yaqd_andor/_andor_neo.py:64-68 | the registered prefix covers every name exactly when every name is registered |
| `Features.ReplaySnoc` | yaqd_andor/_andor_neo.py:64-68 | one more write changes the replayed registry at that feature only |
| `Features.ReplayUnwritten` | yaqd_andor/_andor_neo.py:64-68 | a feature no write names keeps its value, or stays unregistered |
| `Features.FeatureRegistry.Get` | yaqd_andor/_andor_neo.py:41-42 | a read returns the stored value, or nothing for an unregistered feature (the `KeyError`) |
| `Features.FeatureRegistry.Set` | yaqd_andor/_andor_neo.py:64 | a write to a registered feature overwrites it and appends itself to the log; a write to an unregistered one (the `KeyError`) fails and changes nothing; either way the set of registered features stays the same |
| `AndorNeo.ConfiguredAoi` | yaqd_andor/_andor_neo.py:33-62 | a successful configuration has a binning in 1..9, both sensor-size features registered, and both extents within the sensor; a bad specifier fails with its parse error, then an unregistered `sensor_width`, then an unregistered `sensor_height`, fails with `UnknownFeature` naming it |
| `AndorNeo.ConfiguredAoiIsPlan` | yaqd_andor/_andor_neo.py:38-62 | once the binning parses and the sensor size is registered, the outcome is the geometry check's alone |
| `AndorNeo.AoiWrites` | yaqd_andor/_andor_neo.py:64-68 | the writes name `aoi_binning`, `aoi_width`, `aoi_left`, `aoi_height`, `aoi_top`, in that order, each once |
| `AndorNeo.ReplayAoiWrites` | yaqd_andor/_andor_neo.py:64-72 | after the writes each AOI feature holds the written value, so the read-back shape is the computed `(height, width)` |
| `AndorNeo.AoiWritesTouchOnlyAoiFeatures` | yaqd_andor/_andor_neo.py:64-68 | no feature outside the five AOI features is changed, added or removed |
| `AndorNeo.AppliedMappings` | yaqd_andor/_andor_neo.py:74-85 | on success `x_index` has `width` entries `left + i * binning` and `y_index` has `height` entries `top + i * binning`, all on the sensor |
| `AndorNeo.FullSensorScenario` | yaqd_andor/_andor_neo.py:45-62 | "2x2" on a 2560 x 2160 sensor with no geometry gives a 1280 x 1080 AOI at (1, 1) |
| `AndorNeo.WidthOverflowScenario` | yaqd_andor/_andor_neo.py:57-60 | width 1000 from column 2000 on a 2560-wide sensor fails with extent 2999 against limit 2560 |
| `AndorNeo.AndorNeo.ResolveAoi` | yaqd_andor/_andor_neo.py:34-62 | the step-by-step reads, defaults, floor division and checks compute exactly `ConfiguredAoi` and write nothing |
| `AndorNeo.ReplayPrefixStep` | yaqd_andor/_andor_neo.py:64-68 | one more write extends the replay of the writes made so far by that write |
| `AndorNeo.AndorNeo.WriteNext` | yaqd_andor/_andor_neo.py:64-68 | one AOI write succeeds exactly while the features written so far are registered, and extends the log and the replayed values by that write |
| `AndorNeo.AndorNeo.WriteInOrder` | yaqd_andor/_andor_neo.py:64-68 | a run of five writes takes effect up to the first unregistered feature: the number made is the registered prefix of their names, the log grows by exactly those writes and the values are those writes replayed |
| `AndorNeo.AndorNeo.WriteAoi` | yaqd_andor/_andor_neo.py:64-68 | the log grows by the AOI writes in order up to the first unregistered AOI feature, the values are those writes replayed, and the outcome names that feature, or passes when all five are registered |
| `AndorNeo.AndorNeo.SetAoi` | yaqd_andor/_andor_neo.py:33-85 | on a failed check: the error, with the registry, its log, the shapes and the mappings unchanged; on an unregistered AOI feature: the writes before it, that feature's error, shapes and mappings unchanged; otherwise: the five ordered writes, the image shape `(height, width)` as read back, and the two index mappings |

## Left out

- `_set_temperature` and `_check_temp_stabilized` (yaqd_andor/_andor_neo.py:90-116) are left out. They are the cooling policy and an unbounded background polling loop with a sleep and floating-point comparisons.
- `get_sensor_info`, `get_feature_names`, `get_feature_value`, `get_feature_options` and `close` (yaqd_andor/_andor_neo.py:118-138) are left out. They pass straight through to the SDK's feature objects and handle.
- The constructor's forwarding of configuration values to features (yaqd_andor/_andor_neo.py:20-31) is left out. So is the daemon base class. `AndorNeo.AndorNeo.constructor` only sets up the fields.
- The vendor SDK is not part of this model. The registry stores values verbatim. The hardware's rejection or clamping of a written value is not modelled, and neither is a communication fault. `Value` has no floating-point kind.
- `SetAoi`, `ResolveAoi` and `ConfiguredAoi` require that `sensor_width` and `sensor_height`, when registered, hold integers (`IntegerLimits`). The SDK defines them as integer features. A string or boolean there (Python's `TypeError`, or a boolean counted as 0/1) is not modelled.
- `AoiGeometry.ParseBinning` accepts only the ASCII digits `0`-`9`. Python's `int()` also accepts the other Unicode decimal digits; those are not modelled.
- The numpy layout of the index arrays (`[None, :]` / `[:, None]`, `__array_interface__`, `tobytes`, yaqd_andor/_andor_neo.py:74-80) is not modelled. The mappings are plain integer sequences.
- Logging (yaqd_andor/_andor_neo.py:56, 87-88) and the text of the error messages are left out. The width-overflow message at yaqd_andor/_andor_neo.py:60 says "height". Only the failure and its numbers are modelled.
