# BME680 BTHome node: acquisition session and sleep scheduler

This project models the two pieces of logic of the BME680 BTHome beacon
firmware that are its own:

- the **acquisition session** of `lib/bosch/src/bsec_sensor.cpp`, a set of
  globals around the BSEC2 fusion engine: a single-slot cache of the latest
  fused reading (`BSEC_DATA`), filled by `newDataCallback` and handed out by
  the blocking `get_sensor_data`; a one-time `initSensor` that loads the
  stored calibration on a cold boot; and the calibration persistence
  (`loadState`, `saveState`, `updateBsecState` with its `stateUpdateCounter`
  cadence);
- the **wake cycle** of `src/main.cpp`: `get_sleep_duration`, which shortens
  a 300000 ms period by the time elapsed since the reading's time stamp
  (uint64_t arithmetic, no floor), the `last_timestamp` global it reads, and
  the microsecond value handed to the wake timer.

Files:

- `common.dfy`: `Optional.Option`; `MachineInts` with the C integer types
  (`U8`, `U16`, `U32`, `U64`, `I64`), their wrap-around and C's
  truncating division.
- `bsec_data.dfy` (`BsecData`): the `BSEC_DATA` record (`Reading`), the
  engine outputs, and what one callback does to the cache (`NewData`),
  with the field-dispatch lemmas.
- `bsec_session.dfy` (`BsecSession`): the engine as an oracle
  (`EngineScript`), the globals as one value (`Globals`), a pure function
  per operation (`Loaded`, `Saved`, `StateUpdated`, `Initialized`,
  `RunLoop`, `Acquired`), and the class `SensorSession` whose fields are the
  globals and whose methods are the C functions, each proved to produce
  exactly the state its function describes.
- `session_properties.dfy` (`SessionProperties`): what the session
  promises, proved about those functions.
- `wake_cycle.dfy` (`WakeCycle`): `SleepDuration`, `TimerWakeupMicros`,
  their lemmas, and the class `Device` holding the session and
  `last_timestamp`.

How the outside world enters the model:

- The fusion engine is an oracle. An `EngineScript` gives the result of
  `setState`, the successive outcomes of `run()` (its return value and the
  outputs, if any, it hands to the callback), the state snapshot `getState`
  yields (or its failure), and the value `millis()` reads when the save is
  decided, and whether the store accepts the write of a due save
  (`storeWriteOk`). Every call the session makes on the engine is recorded
  in the ghost field `engineCalls`, which is how "init runs once", "the fast path does not
  call `run()`" and "`setState` only gets a full-size blob" are stated.
- The preferences store is a `map<string, seq<U8>>` that survives a
  power-on; every other global starts zeroed (`ColdBootState`). A reset of
  the counter to 0 is a cold boot.
- `millis()` is the ESP32's 32-bit `unsigned long`, so the save-cadence
  product `stateUpdateCounter * STATE_SAVE_PERIOD` is taken modulo 2^32, and
  `get_sleep_duration` sees millis() zero-extended to 64 bits.
- Float signals are kept as their 32-bit pattern (`Float32`): the session
  only copies them.
- Output ids are the cases of the callback's switch: each of the ten
  subscribed ids is its own constructor of `SensorId`, and `OtherSensor(code)`
  stands for any id the switch has no case for. An id equal to one of the
  ten is always written as that named constructor.
- `BSEC_MAX_STATE_BLOB_SIZE` is 221, the BSEC2 library's value; the vendor
  header that defines it is not part of this model.
- `Preferences.getBytes` follows the ESP32 Arduino core: an absent key, or a
  stored blob longer than the buffer, reads 0 bytes and copies nothing;
  otherwise the whole blob is copied to the start of the buffer and its
  length returned. `putBytes` either stores the whole buffer or, when it
  fails, leaves the store as it was; saveState ignores which. A successful
  `getState` writes its snapshot (at most 221
  bytes) to the start of the buffer; a failing one leaves the buffer as is.

Where the code departs from what a single-slot cache of the latest reading
suggests, the model follows the code:

- A callback does not overwrite the cached reading entirely. It writes only
  the fields its outputs are routed to; every other field keeps the value
  of an earlier callback (`NewDataField`, `AcquiredReturnsLatestDelivery`).
- Raw temperature and raw humidity are subscribed to but never stored: a
  batch carrying "humidity and pressure" fills the humidity field only
  when the humidity is the heat-compensated output (`ColdBootScenario`).
- `loadState` reports failure only when `setState` fails. A blob of the
  wrong size is not discarded outright: `getBytes` may already have copied
  a shorter blob into the start of the state buffer. A later successful
  `getState` overwrites only as many bytes as its snapshot has; if that is
  fewer than 221, the rest of the buffer keeps what was there before, and
  saveState then stores all 221 bytes, that remainder included.
- A save happens only once millis() is strictly greater than
  `stateUpdateCounter * STATE_SAVE_PERIOD`, not once it reaches that value:
  the second save needs more than STATE_SAVE_PERIOD to have elapsed
  (`SaveCadence`).
- A save the store rejects is not noticed: the counter has already been
  incremented, so no new save is attempted before the next period is over
  (`RejectedSaveNotRetried`).

## Model

| member | source | states |
|---|---|---|
| `BsecData.TimestampMs` | lib/bosch/src/bsec_sensor.cpp:92-93 | the reading's time stamp is the engine's nanosecond stamp divided by 10^6 (for non-negative stamps: the floor, bracketed by multiples of 10^6) |
| `BsecData.StoredIds` | lib/bosch/src/bsec_sensor.cpp:97-142 | an output is stored iff its id is one of the subscribed ids other than raw temperature and raw humidity |
| `BsecData.DistinctTargets` | lib/bosch/src/bsec_sensor.cpp:97-142 | no two ids of the switch are stored in the same field |
| `BsecData.ApplyOutput` | lib/bosch/src/bsec_sensor.cpp:97-142 | one output writes its signal to its own field only; IAQ also writes the accuracy; raw temperature, raw humidity and unknown ids change nothing; the flag and time stamp are untouched |
| `BsecData.ApplyOutputs` | lib/bosch/src/bsec_sensor.cpp:95-143 | applying a batch of outputs never touches the updated flag or the time stamp |
| `BsecData.NewData` | lib/bosch/src/bsec_sensor.cpp:89-144 | an empty batch leaves the cache entirely unchanged, flag included; a non-empty one sets the time stamp from the first output and ends with the flag raised |
| `BsecData.UnmentionedFieldKept` | lib/bosch/src/bsec_sensor.cpp:95-143 | a field no output of the batch is routed to keeps its previous value |
| `BsecData.LastWriteWins` | lib/bosch/src/bsec_sensor.cpp:95-143 | a field holds the signal of the last output routed to it; a later duplicate id overwrites an earlier one |
| `BsecData.AccuracyKeptWithoutIaq` | lib/bosch/src/bsec_sensor.cpp:122-127 | without an IAQ output the accuracy is unchanged |
| `BsecData.AccuracyOfLastIaq` | lib/bosch/src/bsec_sensor.cpp:122-127 | the accuracy is that of the last IAQ output of the batch |
| `BsecData.NewDataField` | lib/bosch/src/bsec_sensor.cpp:87-145 | for a whole callback: each field is the last signal routed to it, or its old value if none is |
| `BsecSession.ColdBootState` | lib/bosch/src/bsec_sensor.cpp:21-27 | after power-on no init has happened, the counter is 0, no reading is pending, no engine call has been made and the state buffer has its fixed size; the store is kept as it was |
| `BsecSession.CheckBsecStatus` | lib/bosch/src/bsec_sensor.cpp:29-48 | one log entry per non-zero status, library first: negative codes are errors, positive ones warnings, zero is silent |
| `BsecSession.GetBytes` | lib/bosch/src/bsec_sensor.cpp:58 | the store read yields at most the buffer size, and yields the stored blob exactly when it fits |
| `BsecSession.Saved` | lib/bosch/src/bsec_sensor.cpp:50-54 | an accepted write puts the buffer under `bsec_status` and keeps every other key; a rejected one leaves the store as it was; nothing but the store changes |
| `BsecSession.Loaded` | lib/bosch/src/bsec_sensor.cpp:56-65 | the state buffer keeps its fixed size after a load |
| `BsecSession.SaveDue` | lib/bosch/src/bsec_sensor.cpp:76 | a save is always due at counter 0; while counter * STATE_SAVE_PERIOD fits in 32 bits it is due iff that product is below millis() |
| `BsecSession.StateUpdated` | lib/bosch/src/bsec_sensor.cpp:67-85 | updateBsecState calls getState exactly once and never touches the cache or the init flag |
| `BsecSession.Initialized` | lib/bosch/src/bsec_sensor.cpp:147-180 | initSensor touches neither the cache, the counter nor the store |
| `BsecSession.RunOnce` | lib/bosch/src/bsec_sensor.cpp:197 | a run that invokes no callback leaves the cache; afterwards a reading is pending iff one was before or the run delivered a non-empty batch |
| `BsecSession.LastDelivery` | lib/bosch/src/bsec_sensor.cpp:197-201 | the index of the last run that hands the callback a non-empty batch, or -1 when none does |
| `BsecSession.RunLoop` | lib/bosch/src/bsec_sensor.cpp:197-201 | when the retry loop exits, it does so after a run that returned true, with a reading pending |
| `BsecSession.AfterInit` | lib/bosch/src/bsec_sensor.cpp:183-186 | after the init gate the init flag is set |
| `BsecSession.Acquired` | lib/bosch/src/bsec_sensor.cpp:182-206 | whenever get_sensor_data returns, by either path, the returned reading and the cache have the flag cleared, and init is done |
| `BsecSession.SensorSession.ColdBoot` | lib/bosch/src/bsec_sensor.cpp:21-27 | the session object starts in the power-on state with a fresh state buffer |
| `BsecSession.SensorSession.CopyToStateBuffer` | lib/bosch/src/bsec_sensor.cpp:58 | the copy into `bsecState` made by `getBytes` (and by `getState`, line 69) overwrites the start of the buffer with the data and keeps the rest |
| `BsecSession.SensorSession.NewDataCallback` | lib/bosch/src/bsec_sensor.cpp:87-145 | the switch over sensor ids, run over the batch in a loop, leaves exactly `NewData` of the old cache and changes nothing else |
| `BsecSession.SensorSession.EngineRun` | lib/bosch/src/bsec_sensor.cpp:197 | one `run()` records the call, runs the callback on what it delivers, and returns the engine's result |
| `BsecSession.SensorSession.SaveState` | lib/bosch/src/bsec_sensor.cpp:50-54 | saveState always returns true, whether or not the store accepts the write; the new state is `Saved` |
| `BsecSession.SensorSession.LoadState` | lib/bosch/src/bsec_sensor.cpp:56-65 | loadState leaves exactly the result and state `Loaded` describes |
| `BsecSession.SensorSession.UpdateBsecState` | lib/bosch/src/bsec_sensor.cpp:67-85 | updateBsecState leaves exactly the state `StateUpdated` describes; its save-failure branch is proved dead |
| `BsecSession.SensorSession.InitSensor` | lib/bosch/src/bsec_sensor.cpp:147-180 | initSensor leaves exactly the state `Initialized` describes |
| `BsecSession.SensorSession.GetSensorData` | lib/bosch/src/bsec_sensor.cpp:182-206 | the init gate, fast path, retry loop and state update return exactly the reading and leave exactly the state `Acquired` describes |
| `SessionProperties.RunLoopStopsAtFirstReady` | lib/bosch/src/bsec_sensor.cpp:197-201 | when the retry loop exits, it is right after the first run that returns true with the cache flagged updated, with the cache those runs left |
| `SessionProperties.RunLoopBlocksIffNoneReady` | lib/bosch/src/bsec_sensor.cpp:197-201 | the retry loop never exits iff no run returns true with the cache flagged updated |
| `SessionProperties.RunLoopStep` | lib/bosch/src/bsec_sensor.cpp:197-201 | one turn of the retry loop: it exits after run k iff run k returned true with a reading pending, and otherwise goes on from run k + 1 |
| `SessionProperties.ReplayFlag` | lib/bosch/src/bsec_sensor.cpp:197-201 | after a series of runs (`Replay`) a reading is pending iff one was before or some run delivered a non-empty batch |
| `SessionProperties.ReplayKeepsLastDelivery` | lib/bosch/src/bsec_sensor.cpp:197-201 | most recent wins: after several runs the cache is the last delivered batch applied over what came before it; runs that deliver nothing leave the cache as it was |
| `SessionProperties.AcquiredFastPath` | lib/bosch/src/bsec_sensor.cpp:188-191 | with a reading pending, get_sensor_data returns it with the flag cleared, without calling `run()` or `getState` and without touching counter, buffer or store |
| `SessionProperties.AcquiredSlowPath` | lib/bosch/src/bsec_sensor.cpp:197-205 | with no reading pending it returns iff some run succeeds with the flag set; it calls `run()` up to the first such run, then `getState` exactly once, and returns that cache with the flag cleared |
| `SessionProperties.AcquiredReturnsLatestDelivery` | lib/bosch/src/bsec_sensor.cpp:197-205 | the reading returned on the slow path is the last batch delivered during this very call, over the cache as it stood before it |
| `SessionProperties.AcquiredBlocksWithoutDelivery` | lib/bosch/src/bsec_sensor.cpp:188-201 | a call after a call, with no outputs delivered in between, never returns |
| `SessionProperties.InitializedCalls` | lib/bosch/src/bsec_sensor.cpp:147-180 | initSensor calls begin, setTemperatureOffset(2), setState only on a cold boot with a full-size stored blob, updateSubscription with the ten outputs, attachCallback, in that order |
| `SessionProperties.InitLoadGating` | lib/bosch/src/bsec_sensor.cpp:160-164 | initSensor calls begin once, and hands the stored blob to setState iff the counter is 0 and the blob has exactly the full size |
| `SessionProperties.InitRunsOnce` | lib/bosch/src/bsec_sensor.cpp:183-186 | over any sequence of get_sensor_data calls, begin is called exactly once and initDone stays consistent with it |
| `SessionProperties.ColdBootFirstAcquire` | lib/bosch/src/bsec_sensor.cpp:160-164 | the first call after power-on applies the stored calibration iff it has the full size; with a snapshot it takes the counter from 0 to 1, the buffer starts with the snapshot, and the store then holds that buffer, or is unchanged when it rejects the write |
| `SessionProperties.FirstCall` | lib/bosch/src/bsec_sensor.cpp:183-186 | a call on an uninitialised session is the init gate followed by the call an initialised session would make |
| `SessionProperties.ColdBootScenario` | lib/bosch/src/bsec_sensor.cpp:182-206 | power-on, two failing runs, then a batch of compensated humidity and raw pressure: the reading has those two fields and the time stamp set, all else zero |
| `SessionProperties.LoadStateOutcome` | lib/bosch/src/bsec_sensor.cpp:56-65 | setState is called, with the stored blob, only when the read length equals the full size; any other length returns true with no engine call, the buffer then being the old one with whatever getBytes read copied over its start; false only when setState fails |
| `SessionProperties.SaveDueInThirtyTwoBits` | lib/bosch/src/bsec_sensor.cpp:76 | the cadence test is exact while counter * period fits in 32 bits (counter <= 198) and wraps at 199, where it reads 3432704 < millis() |
| `SessionProperties.StateUpdateOutcome` | lib/bosch/src/bsec_sensor.cpp:67-85 | a failing getState changes neither counter, buffer nor store; otherwise the snapshot lands at the start of the buffer, the bytes past it are kept, and the counter goes up by one iff a save is due, even when the store rejects the write; the store holds the buffer iff a due save was accepted, and is untouched otherwise |
| `SessionProperties.RejectedSaveNotRetried` | lib/bosch/src/bsec_sensor.cpp:76-84 | when the first save is rejected, the counter is still 1 and no further save is attempted up to STATE_SAVE_PERIOD: the store keeps what it held before |
| `SessionProperties.SaveCadence` | lib/bosch/src/bsec_sensor.cpp:76-81 | from counter 0 the first snapshot is saved (0 to 1), none while millis() <= STATE_SAVE_PERIOD, and the first one after that is (1 to 2) |
| `WakeCycle.SleepDuration` | src/main.cpp:77-84 | millis() behind the time stamp gives exactly 300000; within the period the sleep is at most 300000 and ends exactly one period after the time stamp; past it the result wraps to 2^64 minus the overrun |
| `WakeCycle.TimerWakeupMicros` | src/main.cpp:110 | the timer gets the sleep times 1000 modulo 2^64, exactly when that fits |
| `WakeCycle.SleepNeverLongerLater` | src/main.cpp:80-82 | for a fixed time stamp, a later millis() within the period never gives a longer sleep |
| `WakeCycle.WakeOnePeriodAfterReading` | src/main.cpp:107-110 | within the period the timer gets (time stamp + 300000 - millis()) * 1000 microseconds, at most 300000000 |
| `WakeCycle.OverrunWrapsAround` | src/main.cpp:107-110 | past the period the sleep exceeds 2^64 - 2^32 ms and the timer gets 2^64 minus 1000 times the overrun |
| `WakeCycle.SleepExamples` | src/main.cpp:77-84 | 2 s after the reading the sleep is 298000 ms; with millis() behind the time stamp it is 300000 ms |
| `WakeCycle.Device.PowerOn` | src/main.cpp:11-12 | the node starts with a power-on session and `last_timestamp` zero |
| `WakeCycle.Device.BuildDataAdvert` | src/main.cpp:14-18 | one blocking acquisition; `last_timestamp` becomes the time stamp of the reading it returns |
| `WakeCycle.Device.Loop` | src/main.cpp:94-111 | after the acquisition the session is in the state `Acquired` gives, the sleep is `SleepDuration` of millis() and that reading's time stamp, and the wake timer gets it in microseconds |

## Left out

- BLE: `setBeacon`, the NimBLE device, advertising start and stop, the beacon fields. They are radio I/O through libraries not part of this model.
- The BTHome payload: the `Advertisement` and `Measurement` encoding, `get_battery_voltage`, the float scalings of pressure and gas, the `memcpy` into the caller's buffer and the returned payload size. The encoder library is not part of this model, and the scalings are float arithmetic. `BuildDataAdvert` therefore returns the reading instead of a payload length.
- Serial logging, including the library version string and every message `checkBsecStatus` prints. `CheckBsecStatus` is modelled on its own as the classification of two status codes. The methods do not call it, because the engine's status codes are not part of the oracle and its only effect is logging.
- `delay(3000)` in the retry loop, `delay(2000)` and `delay(10)` in `loop`, and `esp_light_sleep_start`. Time is an input instead: the value millis() reads when the save is decided, and when the sleep is computed.
- The engine's own behaviour: the BSEC algorithm, the contents of the state blob, the I2C bring-up (`Wire.begin`), `preferences.begin`, and what `begin`, `setTemperatureOffset`, `updateSubscription` and `attachCallback` do inside the engine. The model records these calls, and the arguments of `setTemperatureOffset`, `setState` and `updateSubscription`; it does not record the arguments of `begin` (`BME68X_I2C_ADDR_HIGH`, `Wire`), the sample rate of `updateSubscription` (always ULP) or which function is attached as the callback. Their failures only log.
- `SensorSession.GetSensorData`: the retry loop has no bound in the source. The model consumes a finite script of `run()` outcomes and returns None when the script ends before the loop would. None stands for "still blocked", not for a result the source can produce.
- `SensorSession.EngineRun`: a run hands the callback at most one batch of outputs. That matches the forced (ULP) mode in use; the engine's parallel mode, which can invoke the callback several times in one run, is not modelled.
- `RTC_DATA_ATTR` placement and passing the `Bsec2` object by value have no modelled meaning. Power-on is `ColdBootState`. Light sleep keeps every global and so needs no model.
- `SensorSession.SaveState`: a rejected `putBytes` is modelled as leaving the store exactly as it was; a partly written blob is not modelled, because the store library is not part of this model.
