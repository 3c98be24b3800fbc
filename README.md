# ppu-exporter-mock, modelled in Dafny

The mock exporter pretends to be the DCGM exporter of a node carrying
PPU-ZW810E accelerators. `NewPPUExporter` builds 36 collectors: 34 labelled vectors and two plain
gauges. Each has a fixed name, help text, kind and label list. `Register`
hands all 36 to a registry's `MustRegister`. Every call to `UpdateMetrics`
then does three things:

- it sets two unlabelled gauges (the allocate mode and the device count);
- for each of the `GPUCount` devices it writes 29 series, labelled with
  the device's index, name and UUID;
- it writes five "illegal process" series for gpus 0 and 14, whatever
  `GPUCount` is.

`generateUUID` returns a canned identifier for the first sixteen devices.
Past those it formats a fresh random identifier on each call.

The model is split as follows:

- `Catalog` holds the vectors as an enumeration (`Metric`). Each vector's
  name, help, kind and label schema are functions of it.
- `Identity` holds the UUID, the `gpu` label and the `device` label.
- `Samples` holds the values one device iteration computes.
- `Series` models the registry's series as an abstract map from (vector,
  label map) to a value. `With(labels).Set/Add` are writes on that map,
  and the client library's checks are modelled as `Rejection`.
- `Cycle` gives the whole `UpdateMetrics` call as the sequence of writes
  it performs (`CycleWrites`) and the store that results (`AfterCycle`).
- `Registration` models the registry's `MustRegister`.
- `Exporter` holds the exporter object as a class. Its methods perform the
  source's writes one statement at a time and are proved equal to
  `AfterCycle`.

Every `rand.Float64()` and `rand.Intn` draw is a parameter: `Draws` holds
the draws of one device and `UuidFill` the three draws of `generateUUID`.

Three points where the model is more precise than a summary of the program:

- The code declares three label lists (main.go:78-80). `DCGM_CUSTOM_ALLOCATE_MODE`
  and `DCGM_FI_DEV_COUNT` are plain gauges with no labels, so the model has
  four label schemas.
- On devices 0 and 14 the code draws twice for used memory. It first draws
  the base value (main.go:341) and then overwrites it with a second draw
  (main.go:343). `Draws` therefore carries both, and only the second
  reaches a series on those devices.
- The illegal-process loop does not depend on `GPUCount`. With fewer than
  15 devices it still writes series for gpus 0 and 14, including gpus that
  have no device series.

## Model

| member | source | states |
|---|---|---|
| Catalog.Collectors | main.go:77-235 | the exporter builds 36 collectors in registration order, each the descriptor of its vector, with pairwise distinct names |
| Catalog.NameInjective | main.go:86-233 | two vectors with the same name are the same vector |
| Catalog.MetricsIndexed | main.go:238-275 | the registration order lists each of the 36 vectors exactly once |
| Catalog.SchemaLabels | main.go:78-80 | each declared label list has no repeated label name |
| Identity.GenerateUUID | main.go:278-302 | every identifier, canned or random, starts with "GPU-019e" |
| Identity.CannedIgnoresFill | main.go:298-300 | below sixteen the identifier is the canned entry, whatever the draws |
| Identity.CannedUuid | main.go:280-297 | every canned identifier is "GPU-019e" followed by its fixed tail |
| Identity.GpuLabel | main.go:312 | the gpu label is strconv.Itoa of the index; Identity.GpuLabelInjective proves it names the index uniquely |
| Identity.DeviceName | main.go:313 | the device label is "nvidia" followed by the decimal index |
| Identity.CannedUuidsDistinct | main.go:280-297 | the sixteen canned identifiers are pairwise distinct |
| Identity.RandomUuidRoundTrip | main.go:301 | for every index past the canned table, parsing the identifier gives back the index (between the prefix and the last 28 characters) and the three draws (from those fixed-width last 28 characters) |
| Identity.RandomUuidInjective | main.go:301 | for an index past the canned table, different draws give different identifiers |
| Identity.RandomUuidWellFormed | main.go:301 | for an index below 10000, a random identifier has the 8-4-4-4-12 hexadecimal shape of the canned ones |
| Identity.GpuLabelInjective | main.go:312 | different indices give different `gpu` labels |
| Identity.BusyGpuLabels | main.go:407-408 | the illegal-process loop labels its two devices "0" and "14" |
| Digits.ParseFormat | main.go:312 | reading back the decimal (or hexadecimal) text of a number gives the number |
| Digits.ParseZeroPad | main.go:301 | zero-padding to a width does not change the number the text reads as |
| Digits.PaddedWidth | main.go:301 | a number below base^w pads to exactly w digits |
| Samples.Sample | main.go:339-386 | free and used memory add up to 98304; the throttle reason is 1 or 5, and it is 5 exactly when its draw is below 0.2 |
| Samples.MemoryRanges | main.go:341-345 | used memory lies in [500, 4500) on devices 0 and 14 and in [18, 118) elsewhere; free memory is positive |
| Samples.ReadingRanges | main.go:359-399 | GPU temperature lies in [30, 40), memory temperature 2 to 5 degrees above it, power in [80, 95), GPU utilisation in [0, 10), copy utilisation and DRAM activity in [0, 5) |
| Series.Apply | main.go:348 | a write creates its series if needed, sets or adds to its value, and leaves every other series alone |
| Series.CheckLabels | main.go:348 | the label-name check With performs before a write: as many labels as declared names, and each declared name present; otherwise a label mismatch |
| Series.Rejection | main.go:348-441 | a write panics in the library on a label mismatch or on a negative delta added to a counter, and is accepted otherwise |
| Series.CheckLabelsExact | main.go:316-337 | the library's label-name check accepts a label map exactly when its key set is the vector's declared label set (label values are not checked; see Left out) |
| Series.RejectionIffUnlawful | main.go:348-403 | a write is rejected exactly when its labels mismatch or it adds a negative delta to a counter |
| Series.ApplyAllKeys | main.go:316-403 | writes never remove a series: the series after a run are the old ones plus those written |
| Series.ApplyAllAppend | main.go:304-443 | applying two runs of writes one after the other equals applying their concatenation |
| Series.ApplyAllDistinct | main.go:316-403 | in a run that writes no series twice, each written series ends with the value its write gives |
| Series.CountersNeverDecrease | main.go:390-401 | lawful writes never decrease a counter series |
| Series.ZeroDeltasKeepCountersZero | main.go:390-401 | writes that add only zero to counters keep every counter series at zero |
| Series.LawfulKeepsSchema | main.go:316-337 | lawful writes keep every series' label names equal to its vector's schema |
| Cycle.LabelsMatchSchemas | main.go:316-427 | each label map the loops build has exactly its vector's declared label names |
| Cycle.DeviceLabels | main.go:316-325 | the eight device labels: node name twice (Hostname and NodeName), pool id, pod source, UUID, "nvidia" name, gpu index and an empty modelName |
| Cycle.CustomDeviceLabels | main.go:327-337 | the nine custom-device labels: driver version, node name, pool id, pod source, SupportDCGM "Yes", UUID, device, gpu and modelName "PPU-ZW810E" |
| Cycle.IllegalLabels | main.go:412-427 | the fourteen illegal-process labels, with AllocateMode "none", ProcessId "3003", ProcessName "python", ProcessType "C", empty pod, container and namespace names and modelName "PPU-ZW810E" |
| Cycle.HeaderWrites | main.go:305-309 | the two header writes: allocate mode Set to 0, device count Set to GPUCount |
| Cycle.DeviceValue | main.go:339-403 | the value each device gauge is Set to: the fixed clocks and totals, and the sampled memory, utilisation, temperature and power readings |
| Cycle.DeviceWrites | main.go:347-403 | one device iteration is 29 writes, the k-th to the k-th vector in source order: Add(0) for counters, Set of its value for gauges |
| Cycle.IllegalValue | main.go:430-441 | the illegal-process values: 4454 MiB and 4 % on gpu 14, 544 MiB and 0 % elsewhere, 0 for the other three |
| Cycle.IllegalWrites | main.go:429-441 | one illegal-process iteration is five Sets, in source order, on the labels of its gpu |
| Cycle.CycleWrites | main.go:304-443 | one call writes the header, then the device loop, then the illegal-process loop for gpus 0 and 14 |
| Cycle.AfterCycle | main.go:304-443 | the registry's series after a call are the old ones with the call's writes applied in order |
| Cycle.DeviceWritesSound | main.go:347-403 | the writes of one device iteration are all lawful and touch pairwise different series |
| Cycle.CycleSound | main.go:304-443 | a whole UpdateMetrics call never trips the library's label-name or counter checks and writes no series twice (label values taken as valid text; see Left out) |
| Cycle.CycleLayout | main.go:304-443 | the call's writes are the two header gauges, then 29 per device, then five each for gpus 0 and 14 |
| Cycle.CycleHeaderValues | main.go:305-309 | after a call, DCGM_CUSTOM_ALLOCATE_MODE reads 0 and DCGM_FI_DEV_COUNT reads GPUCount |
| Cycle.CycleDeviceValue | main.go:339-403 | after a call every device series of every device exists; a gauge holds the value computed from that device's draws, a counter keeps its old value |
| Cycle.CycleGaugeValue | main.go:339-403 | after a call each gauge of a device holds exactly the value the loop computed for it |
| Cycle.CycleMemorySum | main.go:340-371 | after a call, each device's used and free framebuffer add up to its total, 98304 |
| Cycle.CycleBar1Mirrors | main.go:354-371 | BAR1 total reads 98304 and BAR1 used equals framebuffer used |
| Cycle.CycleMemoryUsedRange | main.go:341-371 | used framebuffer reads [500, 4500) on devices 0 and 14 and [18, 118) elsewhere |
| Cycle.CycleThrottleReason | main.go:358-362 | the throttle-reason series reads 1 or 5 |
| Cycle.CycleTemperatures | main.go:375-378 | GPU temperature reads [30, 40), and memory reads at least two degrees warmer |
| Cycle.CyclePowerAndUtil | main.go:367-387 | power reads [80, 95) and GPU utilisation [0, 10) |
| Cycle.CycleCopyAndDram | main.go:372-399 | copy utilisation and DRAM activity read [0, 5) |
| Cycle.CycleIllegalValue | main.go:407-442 | each illegal-process series of gpus 0 and 14 exists after a call, whatever GPUCount is, with its fixed value |
| Cycle.CycleIllegalValues | main.go:430-441 | gpu 14 reads 4454 MiB and 4 %, gpu 0 reads 544 MiB and 0 %; decode, encode and SM utilisation read 0 on both |
| Cycle.CycleKeepsIllegalOnBusyGpus | main.go:407 | every illegal-process series a call leaves in the registry belongs to gpu "0" or gpu "14", if that held before |
| Cycle.CycleKeyOrigin | main.go:304-443 | each position of the call's run writes a header, device or illegal-process series, and the illegal ones carry gpu "0" or "14" |
| Cycle.CycleCounterDeltasZero | main.go:390-401 | a call gives its counters nothing but Add(0) |
| Cycle.CountersStayZero | main.go:390-401 | after any number of calls from an empty registry, every counter series reads 0 |
| Cycle.CycleKeepsSeries | main.go:304-443 | a call keeps every series the registry had and adds those it writes |
| Cycle.CannedDeviceKeys | main.go:298-314 | a device with a canned identifier writes the same series whatever its draws |
| Cycle.CycleKeysStable | main.go:311-314 | with at most sixteen devices every call writes the same set of series |
| Cycle.SteadyStateAddsNoSeries | main.go:311-314 | with at most sixteen devices a second call adds no series to those of the first |
| Cycle.DeviceKeyDetermines | main.go:312-325 | two equal device series name the same device and carry the same identifier |
| Cycle.FreshIdentityNotWritten | main.go:301-314 | for every device vector, a call writes none of the series a device past the canned table would carry under other draws |
| Cycle.RandomIdentitiesAddSeries | main.go:301-314 | past sixteen devices, a second call whose draws differ for a device adds series, so the series grow |
| Registration.RegisterAllSucceeds | main.go:237-276 | MustRegister succeeds exactly when the collectors' names are pairwise distinct and none is already registered |
| Registration.RegisterAll | main.go:238-275 | registering collectors first to last, stopping at the first name already registered |
| Registration.RegisterAllContents | main.go:237-276 | a successful registration registers each collector under its name, keeps the earlier ones and adds nothing else |
| Registration.RegisterTwiceFails | main.go:237-276 | registering the same collectors twice fails at the first of them |
| Registration.Registry.constructor | main.go:237 | a new registry holds no collectors |
| Registration.Registry.MustRegister | main.go:238-275 | the loop adds collectors one by one and stops at the first duplicate name, as `RegisterAll` specifies |
| Exporter.CatalogRegisters | main.go:237-276 | the exporter's 36 collectors register into a fresh registry without a duplicate |
| Exporter.CatalogRegistersAll | main.go:237-276 | after registration each vector is registered under its name with its descriptor |
| Exporter.CatalogRegistersOnly | main.go:237-276 | every registered name is the name of one of the vectors |
| Exporter.CatalogRegisterTwiceFails | main.go:237-276 | registering an exporter's collectors a second time fails at DCGM_CUSTOM_ALLOCATE_MODE |
| Exporter.PpuExporter.constructor | main.go:77-83 | a new exporter keeps its configuration, has the 36 collectors, and has no series |
| Exporter.PpuExporter.Register | main.go:237-276 | the registry ends as MustRegister of the 36 collectors leaves it |
| Exporter.PpuExporter.Emit | main.go:348 | a write the library rejects reports its error and changes nothing; otherwise the series is created or updated |
| Exporter.PpuExporter.UpdateHeader | main.go:305-309 | the store after the two header Sets |
| Exporter.PpuExporter.UpdateDevice | main.go:312-403 | the store after one device iteration's 29 writes, each accepted by the library |
| Exporter.PpuExporter.UpdateDevices | main.go:311-404 | the device loop runs GPUCount iterations (none when GPUCount is not positive), device i with draws ds[i] |
| Exporter.PpuExporter.UpdateIllegal | main.go:408-441 | the store after one illegal-process iteration's five Sets |
| Exporter.PpuExporter.UpdateIllegals | main.go:406-442 | the illegal-process loop writes gpu 0 and then gpu 14 |
| Exporter.PpuExporter.UpdateMetrics | main.go:304-443 | the store after a call is `AfterCycle` of the old store, so every Cycle lemma holds of it |

## Left out

- `main` is not part of this model: flag parsing, the HTTP server and the
  ticker goroutine that calls `UpdateMetrics` are I/O and concurrency.
- The `Port` field of `Config` reaches no label or value, so `Cycle.Config`
  omits it.
- The random number generator is not modelled. Its draws are parameters,
  and the lemmas on ranges assume draws in [0, 1) and `rand.Intn` draws
  below their bound (`ValidDraws`, `ValidFill`).
- Samples.Sample: `float64` arithmetic is modelled on exact reals, so no
  rounding is modelled. The ranges proved hold for reals.
- The help texts are carried in each descriptor but no property is stated
  about them.
- Identity.RandomUuidWellFormed holds only for indices below 10000. Past
  that, `%04d` prints more than four digits and the identifier is longer
  than the 8-4-4-4-12 shape; the round trip and the injectivity in the
  draws hold for every index.
- The canned identifiers are shown to carry the prefix and to be distinct.
  Their 8-4-4-4-12 shape is not proved.
- Registration.RegisterAll: the client library compares descriptors by
  fully-qualified name and constant labels, and checks label names for
  validity. The model compares names only, because no vector here has
  constant labels.
- Exporter.PpuExporter.Emit: where the library panics (a label mismatch, a
  negative counter delta, a duplicate registration), the model returns an
  error value instead and leaves the state unchanged. It is proved that no
  such error ever arises during `UpdateMetrics`.
- Series.CheckLabels: label values are Unicode strings here, so the
  library's rejection of a label value that is not valid UTF-8 is not
  modelled. Node name, pool id, pod source and driver version come from
  command-line flags unchecked, so with such bytes the source can panic at
  main.go:348 where Cycle.CycleSound says no check trips.
- Cycle.CycleSound: holds for label values that are valid text, for the
  reason above.
- The Prometheus library's internals (collection, exposition format, the
  per-vector series maps and their locking) are not modelled. The registry's
  series are one abstract map.
