# Lakeshore Model 240 repository — a Dafny model

This project models the device-session core of a REST service for a Lakeshore
Model 240 temperature-input instrument. The service's repository
(`LakeshoreRepository`) holds at most one device handle. `connect` installs a
handle, `disconnect` releases the hardware and clears it, and `get_device` is
the single read path to it. On top of that sit the per-operation rules:

- channel validation;
- brightness validation;
- the 0..4 to 0..100 brightness mapping;
- the conditional three-step input-configuration write;
- parsing of the `"sensor,temperature"` curve-point replies.

The mock instrument (`MockModel240`) is the concrete device the model runs
against. It holds:

- per-channel stores for sensor names, filters, readings, input parameters
  and curve headers;
- a 200-point calibration curve per channel;
- module name, brightness and a connected flag.

Everything is a pure state machine:

- `Outcomes`: the exceptions as an `Error` datatype, plus `Result`/`Option`.
- `Text`: Python's `str.split(',')` as `Split`. It is proved to be the inverse
  of joining comma-free fields. This module also holds the decimal text of a
  natural number.
- `Model240`: the channel range 1..8 and the curve index range 1..200; the
  records the device exchanges; and the calls a handle accepts, as `Request`
  (reads) and `Command` (writes).
- `Mock240`: the mock as an immutable `Device` record. Each call is a function
  that either fails, as the mock raising, or returns the value or the updated
  record.
- `Repository`: the `Session` holds an optional `Handle`. Every operation
  returns a `Step`, which carries three things:
  - the result, or the exception raised;
  - the session afterwards;
  - the trace of device calls issued.

  The trace is how the model states "refused before the device is consulted"
  and "these writes, in this order".
- `SessionProperties`: lemmas that relate several calls. They cover round
  trips through the mock, agreement between the full-curve read and
  single-point reads, and idempotence of connect and disconnect.

Three behaviours of the code are worth noting:

- `disconnect` does not swallow a failure of `disconnect_usb`. If the release
  raises, the exception propagates and the handle stays set
  (`Repository.Disconnect`, parameter `releaseFails`).
- The repository never checks the curve index. Only the mock does, so an index
  outside 1..200 fails with the mock's error after the device call was issued.
- `set_input_config` performs no channel check of its own.

## Model

| member | source | states |
|---|---|---|
| `Repository.Connect` | repositories/lakeshore.py:26-36 | from no handle: installs a fresh mock, or the constructed record as a vendor (Hardware) handle, and returns true, or fails with ConnectionFailure and stays disconnected; with a handle held: returns false and leaves the session unchanged; never calls the device |
| `Repository.Disconnect` | repositories/lakeshore.py:39-45 | with no handle: succeeds, changes nothing, calls nothing; with a handle: calls disconnect_usb exactly once; succeeds exactly when the session ends without a handle; a failing vendor release propagates and keeps the handle |
| `Repository.GetDevice` | repositories/lakeshore.py:56-59 | fails with DeviceNotConnected exactly when no handle is held, otherwise returns the held handle |
| `Repository.GetStatus` | repositories/lakeshore.py:61-65 | channel outside 1..8 refused with ChannelError before the handle lookup (precedence over DeviceNotConnected, no device call); otherwise one status read whose result is the device's reply; never changes the session |
| `Repository.GetIdentification` | repositories/lakeshore.py:67-69 | DeviceNotConnected without a handle; otherwise one identification read that returns the device's identification |
| `Repository.GetInputParameter` | repositories/lakeshore.py:71-79 | channel guard as above; on success reads record, sensor name and filter in that order and returns exactly the device's stored values |
| `Repository.GetModname` | repositories/lakeshore.py:81-83 | DeviceNotConnected without a handle; otherwise the device's module name, one read |
| `Repository.SetModname` | repositories/lakeshore.py:85-87 | DeviceNotConnected without a handle; otherwise one write after which GetModname returns the new name, and the session is the same handle, of the same kind, with only the module name replaced |
| `Repository.BrightnessOfLevel` | repositories/lakeshore.py:91-102 | level L in 0..4 maps to 25·L; any other level fails with InvalidBrightnessLevel |
| `Repository.GetBrightness` | repositories/lakeshore.py:89-102 | succeeds exactly for a vendor handle whose reply is in 0..4, returning 25·reply; the mock has no query method and fails without a device call |
| `Repository.SetBrightness` | repositories/lakeshore.py:104-108 | outside 0..100 refused before the handle lookup with no device call; in range, forwards the value unchanged in one write, and the session is the same handle with only the brightness replaced |
| `Repository.InputConfigPlan` | repositories/lakeshore.py:120-125 | the record write first; then the filter write exactly when a filter is given; then the sensor-name write, last, exactly when a name is given; every step accepted exactly when the channel is valid |
| `Repository.SetInputConfig` | repositories/lakeshore.py:110-125 | no channel check: DeviceNotConnected takes precedence; with a handle and a bad channel, the device refuses the first write and nothing else is issued; with a valid channel all planned writes are issued in order; the session keeps the same kind of handle |
| `Repository.RunWrites` | repositories/lakeshore.py:120-125 | the handle kind is kept; on success the trace is every planned write in plan order; a failure stops after at most the whole plan, and a failure on the first write leaves the session untouched |
| `Repository.RunWritesSucceeds` | repositories/lakeshore.py:120-125 | a write sequence completes exactly when the device accepts every command in it |
| `Repository.RunWritesStops` | repositories/lakeshore.py:120-125 | on failure the trace is the plan's prefix up to and including the refused write; nothing after it is issued |
| `Repository.RunWritesRefuses` | repositories/lakeshore.py:120-125 | on failure the last write in the trace is one the device refuses, and every write before it was accepted |
| `Repository.RunWritesApplies` | repositories/lakeshore.py:120-125 | no rollback: on success the device equals all writes applied in order; on failure it equals the writes before the refused one applied |
| `Repository.GetMonitor` | repositories/lakeshore.py:127-140 | channel guard; on success reads Celsius, Fahrenheit, Kelvin and sensor in that order and returns the channel's stored readings |
| `Repository.GetCurveHeader` | repositories/lakeshore.py:142-147 | channel guard; on success one header read returning the device's stored header |
| `Repository.SetCurveHeader` | repositories/lakeshore.py:174-185 | channel guard; on success one write, and the session is the same handle, of the same kind, with the device's header store updated by the mock's set_curve_header |
| `Repository.ParsePoint` | repositories/lakeshore.py:153-158 | succeeds exactly when the reply splits into two fields; the sensor is the first field, the temperature the second, and the reply is their comma join |
| `Repository.GetCurveDataPoint` | repositories/lakeshore.py:149-158 | channel guard; with a valid channel one device read; an index outside 1..200 fails with the device's index error; on success returns the stored (sensor, temperature) pair of that index |
| `Repository.ReadCurve` | repositories/lakeshore.py:164-165 | reading the replies from an index to 200 succeeds exactly for a valid channel; yields one two-field row per index, in index order, each the stored pair |
| `Repository.Columns` | repositories/lakeshore.py:166-171 | succeeds exactly when every row has at least two fields (a third field is ignored); the two columns have the rows' length and hold the first and second fields index by index; a failure names a one-field reply |
| `Repository.ReadAllPoints` | repositories/lakeshore.py:164-171 | for a valid channel, two columns of length 200 whose position k holds the stored point k+1 |
| `Repository.GetCurveDataPoints` | repositories/lakeshore.py:160-172 | channel guard; on success reads indices 1..200 in ascending order and returns length-200 sensor and temperature sequences, index-aligned with the stored curve |
| `Repository.SetCurveDataPoint` | repositories/lakeshore.py:187-192 | channel guard; with a valid channel one write carrying the point unchanged; an index outside 1..200 fails on the device and leaves the session unchanged; on success the session is the same handle with only that point replaced |
| `SessionProperties.ParsePointOfWire` | repositories/lakeshore.py:153-158 | the comma join of a point's sensor and temperature text parses back into that point |
| `SessionProperties.CurvePointRoundTrip` | repositories/lakeshore.py:187-192 | a point written through the repository reads back unchanged, and every other (channel, index) reads as before |
| `SessionProperties.CurveHeaderRoundTrip` | repositories/lakeshore.py:174-185 | a header written through the repository reads back unchanged, and every other channel's header reads as before |
| `SessionProperties.BulkMatchesSingle` | repositories/lakeshore.py:160-172 | position k of the full-curve read equals the single-point read of index k+1 |
| `SessionProperties.InputConfigRoundTrip` | repositories/lakeshore.py:110-125 | after set_input_config, get_input_parameter returns the written record, the given name and filter, and the previously stored name or filter where none was given; the session holds the same handle, with only that channel's record, filter and name replaced |
| `SessionProperties.InputWritesLand` | mocks/model240.py:98-121 | the input-configuration plan applied to the mock on a valid channel yields exactly the device with the record replaced and the filter and sensor name replaced where given, and nothing else changed |
| `SessionProperties.ConfiguredReads` | mocks/model240.py:93-121 | on that configured device the channel's record, filter and sensor name read back as written, and as before where none was given |
| `SessionProperties.InputConfigSingleWrite` | repositories/lakeshore.py:120-125 | with neither filter nor sensor name, exactly one write is issued |
| `SessionProperties.ConnectIdempotent` | repositories/lakeshore.py:26-36 | after a connect that did not fail, a second connect returns false, keeps the session and calls nothing |
| `SessionProperties.DisconnectIdempotent` | repositories/lakeshore.py:39-45 | after a successful disconnect, a second one succeeds with no handle and no device call |
| `SessionProperties.BrightnessQuantization` | repositories/lakeshore.py:89-108 | every brightness get_brightness reports is a multiple of 25 that set_brightness then accepts and stores unchanged; set_brightness accepts 30 on any handle, yet get_brightness never reports it |
| `Mock240.Fresh` | mocks/model240.py:31-64 | a fresh mock is connected, has brightness 50 and module name "Mock Model240"; every store is keyed by exactly the channels 1..8 and every curve has 200 points |
| `Mock240.FreshChannel` | mocks/model240.py:36-61 | every channel of a fresh mock reads "Sensor i", "No filter", readings 25.0 °C, 77.0 °F, 298.15 K and sensor 100.0, the default input record, and header "Curve i"/"SNi" with limit 400.0 |
| `Mock240.FreshCurvePoint` | mocks/model240.py:62-64 | point j of every channel of a fresh mock replies with the text of j·0.1 and j·1.0 joined by a comma |
| `Mock240.InitialCurve` | mocks/model240.py:62-64 | every channel's curve has 200 points, point j (from 1) being the pair (j·0.1, j·1.0) in that order |
| `Mock240.GetIdentification` | mocks/model240.py:71-78 | the identification is the fixed record "Mock Lakeshore", "Model240", serial "12345", firmware "1.0", whatever the mock's state |
| `Mock240.DisconnectUsb` | mocks/model240.py:67-69 | the result is disconnected and differs from the input in nothing else, so a second call changes nothing |
| `Mock240.GetModname` | mocks/model240.py:80-81 | writing back the module name just read leaves the mock unchanged |
| `Mock240.SetModname` | mocks/model240.py:83-85 | the stored module name becomes the new one; nothing else changes |
| `Mock240.SetBrightness` | mocks/model240.py:87-91 | accepted exactly for 0..100 and stored unchanged with nothing else changed; otherwise raises |
| `Mock240.ValidateChannel` | mocks/model240.py:180-183 | accepts a channel exactly when it is one of the eight store keys |
| `Mock240.GetSensorName` | mocks/model240.py:93-96 | raises with the channel-range error exactly for a channel outside 1..8; otherwise returns the channel's stored value |
| `Mock240.SetSensorName` | mocks/model240.py:98-101 | raises exactly for a channel outside 1..8; otherwise the name reads back, other channels' names read as before, other stores are unchanged |
| `Mock240.GetFilter` | mocks/model240.py:103-106 | raises with the channel-range error exactly for a channel outside 1..8; otherwise returns the channel's stored value |
| `Mock240.SetFilter` | mocks/model240.py:108-111 | raises exactly for a channel outside 1..8; otherwise the filter reads back, other channels and stores unchanged |
| `Mock240.GetInputParameter` | mocks/model240.py:113-116 | raises with the channel-range error exactly for a channel outside 1..8; otherwise returns the channel's stored value |
| `Mock240.SetInputParameter` | mocks/model240.py:118-121 | raises exactly for a channel outside 1..8; otherwise the record reads back, other channels and stores unchanged |
| `Mock240.GetCelsiusReading` | mocks/model240.py:123-126 | raises with the channel-range error exactly for a channel outside 1..8; otherwise returns the matching field of the channel's stored reading |
| `Mock240.GetFahrenheitReading` | mocks/model240.py:128-131 | raises with the channel-range error exactly for a channel outside 1..8; otherwise returns the matching field of the channel's stored reading |
| `Mock240.GetKelvinReading` | mocks/model240.py:133-136 | raises with the channel-range error exactly for a channel outside 1..8; otherwise returns the matching field of the channel's stored reading |
| `Mock240.GetSensorReading` | mocks/model240.py:138-141 | raises with the channel-range error exactly for a channel outside 1..8; otherwise returns the matching field of the channel's stored reading |
| `Mock240.GetChannelReadingStatus` | mocks/model240.py:143-153 | raises exactly for a channel outside 1..8; otherwise every one of the six status flags is clear |
| `Mock240.GetCurveHeader` | mocks/model240.py:155-158 | raises with the channel-range error exactly for a channel outside 1..8; otherwise returns the channel's stored value |
| `Mock240.SetCurveHeader` | mocks/model240.py:160-163 | raises exactly for a channel outside 1..8; otherwise the header reads back, other channels and stores unchanged |
| `Mock240.GetCurveDataPoint` | mocks/model240.py:165-171 | channel checked first, then index; succeeds exactly for both in range; the reply splits on the comma into exactly the stored sensor and temperature |
| `Mock240.SetCurveDataPoint` | mocks/model240.py:173-178 | channel then index checked; on success the table keeps 200 entries, the point reads back as "sensor,temperature", and every other store is unchanged |
| `Mock240.SetCurveDataPointFrame` | mocks/model240.py:173-178 | writing one point leaves the reply for every other (channel, index) as it was |
| `Mock240.Apply` | mocks/model240.py:80-178 | one write on the mock: accepted exactly when its channel, index or brightness is in range, and the result is a valid mock again |
| `Mock240.ApplyAll` | mocks/model240.py:80-178 | a write sequence applied to the mock in order: succeeds exactly when every write is accepted, leaving a valid mock |
| `Text.Split` | repositories/lakeshore.py:153-154 | at least one field, none containing the separator, and the fields joined by the separator give back the input |
| `Text.SplitJoin` | repositories/lakeshore.py:164-165 | splitting the join of separator-free fields returns exactly those fields |
| `Text.SplitPair` | mocks/model240.py:170-171 | two comma-free texts joined by a comma split back into exactly those two |
| `Text.DecimalText` | mocks/model240.py:36-37 | the text of a number, as the f-string prints it: digits only, non-empty, with a leading 0 exactly for zero |
| `Text.DecimalRoundTrip` | mocks/model240.py:36-37 | the decimal text of a number reads back as that number |

## Left out

- Locking: the lock created in the lifespan hook (repositories/lakeshore.py:51) and the service-level `with` blocks are concurrency; each repository call is one atomic step here.
- The lifespan shutdown's implicit `disconnect` (repositories/lakeshore.py:53) is the same transition as `Repository.Disconnect`. It is not modelled separately.
- The module-level mock installed when the application module is imported (main.py:27) is not modelled. The model's session starts as `Disconnected`.
- HTTP plumbing: routers, pydantic schemas, CORS, the service layer's translation into 400/503 responses, and the 501 stubs.
- The service methods that routers call but that do not exist are not invented here.
- Floating point: curve-point sensor and temperature values are the decimal text the device prints (`Numeral`, comma-free text). This models the f-string join and the comma split exactly; `float(...)` parsing is left out. Other floats (readings, temperature limit) are `real`.
- The initial curve (`Mock240.InitialCurve`) writes point j as the exact decimal text of j·0.1. Python's binary floating point prints some of these values with extra digits, such as 0.30000000000000004.
- The vendor `Model240` SDK is not part of this model:
  - a vendor handle behaves exactly as the mock: the same stores, the same replies (identification "Mock Lakeshore", every status flag clear) and the same refusals;
  - whether its constructor raises is the `constructed` parameter of `Repository.Connect`;
  - whether its `disconnect_usb` raises is the `releaseFails` parameter of `Repository.Disconnect`;
  - its reply to the brightness query is the `reply` parameter of `Repository.GetBrightness` (the `int(...)` parse of that reply is not modelled).
- The vendor enumerations name only the member the mock uses. Every other member is carried as its numeric code.
- The SDK input-parameter struct built at repositories/lakeshore.py:112-119 is treated as the same record the mock stores. The SDK is not part of this model, so its attribute names are not visible.
- SessionProperties.InputConfigRoundTrip: assumes the SDK struct keeps its constructor arguments under the schema's field names (`sensor_type`, `temperature_unit`, …). If it keeps them under the keyword names `sensor` and `units` instead, unpacking its `__dict__` into the schema at repositories/lakeshore.py:79 fails validation, and get_input_parameter after any set_input_config raises rather than returning the written record.
- `print` calls and the `__new__` singleton mechanics are not modelled. The `USE_MOCK` environment lookup is the `useMock` parameter of `Repository.Connect`.
- Failures that a real instrument might raise mid-operation, on reads or on writes, are not modelled. Against the mock, a read on a valid channel never fails, so the model issues the full trace (for example, all 200 point reads).
- Every write sequence the repository issues is refused either at its first write or not at all: set_input_config's writes all name the same channel. So the no-rollback property (`Repository.RunWritesApplies`) is proved for `RunWrites` over arbitrary plans, but a refusal part-way through set_input_config never arises in the model.
