/**
 * The acquisition session of lib/bosch/src/bsec_sensor.cpp: the globals the
 * translation unit keeps (cached reading, init flag, save counter, state
 * buffer, preferences store) and the functions that update them.
 *
 * The fusion engine is an oracle: an `EngineScript` says what each of its
 * calls returns, and every call the session makes on it is recorded, in
 * order, in `engineCalls`.
 */
module BsecSession {
  import opened Optional
  import opened MachineInts
  import opened BsecData

  /** BSEC_MAX_STATE_BLOB_SIZE of the BSEC2 library. */
  const MaxStateBlobSize := 221
  /** STATE_SAVE_PERIOD: 360 minutes in milliseconds, a uint32_t. */
  const StateSavePeriod: U32 := 360 * 60 * 1000
  const TemperatureOffset := 2
  /** The preferences key the calibration blob is stored under. */
  const StateKey := "bsec_status"

  /** A calibration snapshot the engine writes into the state buffer. */
  type StateBlob = s: seq<U8> | |s| <= MaxStateBlobSize

  /** A call the session makes on the fusion engine. */
  datatype EngineCall =
    | Begin
    | SetTemperatureOffset(offset: int)
    | SetState(blob: seq<U8>)
    | UpdateSubscription(outputs: seq<SensorId>)
    | AttachCallback
    | Run
    | GetState

  /** What one call of `run()` does: its return value, and the outputs it
      hands to the callback, if it invokes it. */
  datatype RunOutcome = RunOutcome(ok: bool, delivered: Option<Outputs>)

  /** The outside world's answers for one `get_sensor_data` call: the result
      of `setState` (used only if calibration is loaded), the successive
      `run()` outcomes, the `getState` result (None when it fails), what
      `millis()` reads when the save is decided, and whether the store
      accepts the write of a save that is due. */
  datatype EngineScript = EngineScript(
    setStateOk: bool,
    runs: seq<RunOutcome>,
    snapshot: Option<StateBlob>,
    millisAtUpdate: U32,
    storeWriteOk: bool)

  /** The globals of the translation unit, as one value. */
  datatype Globals = Globals(
    sensorOutput: Reading,
    initDone: bool,
    stateUpdateCounter: U16,
    bsecState: seq<U8>,
    preferences: map<string, seq<U8>>,
    engineCalls: seq<EngineCall>)

  predicate WellFormed(g: Globals) {
    |g.bsecState| == MaxStateBlobSize
  }

  /** The globals after a power-on: zeroed memory, the durable store as it was. */
  function ColdBootState(preferences: map<string, seq<U8>>): (g: Globals)
    ensures WellFormed(g) && g.preferences == preferences
    ensures !g.initDone && g.stateUpdateCounter == 0 && !g.sensorOutput.updated
    ensures g.engineCalls == []
  {
    Globals(ZeroReading, false, 0, seq(MaxStateBlobSize, _ => 0), preferences, [])
  }

  // ---------------------------------------------------------------------
  // Status classification (checkBsecStatus)

  datatype Severity = Nominal | Warning | Error
  datatype StatusSource = FusionLibrary | SensorBus
  datatype StatusLog = StatusLog(source: StatusSource, severity: Severity, code: int)

  function Classify(code: int): Severity {
    if code < 0 then Error else if code > 0 then Warning else Nominal
  }

  /** The log lines checkBsecStatus prints: one for the library status and
      one for the sensor status, each only when that status is not zero. */
  function CheckBsecStatus(bsecStatus: int, sensorStatus: int): (log: seq<StatusLog>)
    ensures |log| == (if bsecStatus != 0 then 1 else 0) + (if sensorStatus != 0 then 1 else 0)
    ensures forall e :: e in log ==> e.code != 0
    ensures forall e :: e in log ==> (e.severity == Error <==> e.code < 0)
    ensures forall e :: e in log ==> (e.severity == Warning <==> e.code > 0)
    ensures forall e :: e in log ==> e.code == if e.source == FusionLibrary then bsecStatus else sensorStatus
    ensures |log| == 2 ==> log[0].source == FusionLibrary && log[1].source == SensorBus
  {
    var library := if bsecStatus != 0 then [StatusLog(FusionLibrary, Classify(bsecStatus), bsecStatus)] else [];
    var sensor := if sensorStatus != 0 then [StatusLog(SensorBus, Classify(sensorStatus), sensorStatus)] else [];
    library + sensor
  }

  // ---------------------------------------------------------------------
  // Call traces

  /** `n` consecutive calls of `run()`. */
  function Runs(n: nat): (calls: seq<EngineCall>)
    ensures |calls| == n
    ensures forall i :: 0 <= i < n ==> calls[i] == Run
  {
    if n == 0 then [] else Runs(n - 1) + [Run]
  }

  function Occurrences(calls: seq<EngineCall>, c: EngineCall): nat {
    if |calls| == 0 then 0
    else Occurrences(calls[..|calls| - 1], c) + (if calls[|calls| - 1] == c then 1 else 0)
  }

  /** The blobs handed to `setState`, in order. */
  function AppliedBlobs(calls: seq<EngineCall>): seq<seq<U8>> {
    if |calls| == 0 then []
    else
      var last := calls[|calls| - 1];
      AppliedBlobs(calls[..|calls| - 1]) + (if last.SetState? then [last.blob] else [])
  }

  lemma {:induction false} OccurrencesAppend(a: seq<EngineCall>, b: seq<EngineCall>, c: EngineCall)
    ensures Occurrences(a + b, c) == Occurrences(a, c) + Occurrences(b, c)
  {
    if |b| > 0 {
      assert (a + b)[..|a + b| - 1] == a + b[..|b| - 1];
      OccurrencesAppend(a, b[..|b| - 1], c);
    } else {
      assert a + b == a;
    }
  }

  lemma {:induction false} OccurrencesAbsent(calls: seq<EngineCall>, c: EngineCall)
    requires forall i :: 0 <= i < |calls| ==> calls[i] != c
    ensures Occurrences(calls, c) == 0
  {
    if |calls| > 0 {
      OccurrencesAbsent(calls[..|calls| - 1], c);
    }
  }

  lemma {:induction false} AppliedBlobsAppend(a: seq<EngineCall>, b: seq<EngineCall>)
    ensures AppliedBlobs(a + b) == AppliedBlobs(a) + AppliedBlobs(b)
  {
    if |b| > 0 {
      assert (a + b)[..|a + b| - 1] == a + b[..|b| - 1];
      AppliedBlobsAppend(a, b[..|b| - 1]);
    } else {
      assert a + b == a;
    }
  }

  lemma {:induction false} AppliedBlobsAbsent(calls: seq<EngineCall>)
    requires forall i :: 0 <= i < |calls| ==> !calls[i].SetState?
    ensures AppliedBlobs(calls) == []
  {
    if |calls| > 0 {
      AppliedBlobsAbsent(calls[..|calls| - 1]);
    }
  }

  // ---------------------------------------------------------------------
  // Calibration persistence (loadState, saveState, updateBsecState)

  /** `data` copied over the start of `buffer`; the rest of it is kept. */
  function Overlay(buffer: seq<U8>, data: seq<U8>): (r: seq<U8>)
    requires |data| <= |buffer|
    ensures |r| == |buffer|
    ensures forall i :: 0 <= i < |data| ==> r[i] == data[i]
    ensures forall i :: |data| <= i < |buffer| ==> r[i] == buffer[i]
  {
    data + buffer[|data|..]
  }

  /** The bytes Preferences.getBytes copies into a buffer of `maxLen` bytes;
      the length it returns is the length of this sequence. An absent key,
      and a stored blob longer than the buffer, both read as nothing. */
  function GetBytes(store: map<string, seq<U8>>, key: string, maxLen: nat): (read: seq<U8>)
    ensures |read| <= maxLen
    ensures read != [] ==> key in store && read == store[key]
    ensures key in store && |store[key]| <= maxLen ==> read == store[key]
  {
    if key in store && |store[key]| <= maxLen then store[key] else []
  }

  /** True iff the store holds a blob of exactly the engine's state size. */
  predicate HasFullBlob(store: map<string, seq<U8>>) {
    StateKey in store && |store[StateKey]| == MaxStateBlobSize
  }

  /** saveState: the whole state buffer goes to the store under StateKey.
      The result of the write is ignored: when the store rejects it, the
      store stays as it was. */
  function Saved(g: Globals, writeOk: bool): (g': Globals)
    ensures writeOk ==> StateKey in g'.preferences && g'.preferences[StateKey] == g.bsecState
    ensures forall k :: k != StateKey ==> (k in g'.preferences <==> k in g.preferences)
    ensures forall k :: k != StateKey && k in g.preferences ==> g'.preferences[k] == g.preferences[k]
    ensures !writeOk ==> g'.preferences == g.preferences
    ensures g' == g.(preferences := g'.preferences)
  {
    if writeOk then g.(preferences := g.preferences[StateKey := g.bsecState]) else g
  }

  /** loadState: the stored bytes land in the state buffer; only a blob of
      exactly the full size is handed to `setState`. Returns the function's
      result and the new globals. */
  function Loaded(g: Globals, setStateOk: bool): (res: (bool, Globals))
    requires WellFormed(g)
    ensures WellFormed(res.1)
  {
    var read := GetBytes(g.preferences, StateKey, MaxStateBlobSize);
    var g1 := g.(bsecState := Overlay(g.bsecState, read));
    if |read| == MaxStateBlobSize then
      (setStateOk, g1.(engineCalls := g1.engineCalls + [SetState(g1.bsecState)]))
    else
      (true, g1)
  }

  /** The save-cadence test of updateBsecState: the first time, or once
      counter * STATE_SAVE_PERIOD, computed modulo 2^32, is below millis(). */
  function SaveDue(counter: U16, nowMs: U32): (due: bool)
    ensures counter == 0 ==> due
    ensures counter * StateSavePeriod < U32Modulus ==>
              (due <==> counter == 0 || counter * StateSavePeriod < nowMs)
  {
    counter == 0 || Wrap32(counter * StateSavePeriod) < nowMs
  }

  /** updateBsecState: ask the engine for its state; when that succeeds and a
      save is due, bump the counter (a uint16_t) and save the buffer, whether
      or not the store accepts the write. */
  function StateUpdated(g: Globals, snapshot: Option<StateBlob>, nowMs: U32, writeOk: bool): (g': Globals)
    requires WellFormed(g)
    ensures WellFormed(g')
    ensures g'.sensorOutput == g.sensorOutput && g'.initDone == g.initDone
    ensures g'.engineCalls == g.engineCalls + [GetState]
  {
    var g1 := g.(engineCalls := g.engineCalls + [GetState]);
    match snapshot
    case None => g1
    case Some(blob) =>
      var g2 := g1.(bsecState := Overlay(g1.bsecState, blob));
      if SaveDue(g.stateUpdateCounter, nowMs) then
        Saved(g2.(stateUpdateCounter := Wrap16(g.stateUpdateCounter + 1)), writeOk)
      else
        g2
  }

  /** initSensor as seen by the engine and the store. Failures of `begin`,
      `setState` and `updateSubscription` are only logged. */
  function Initialized(g: Globals, setStateOk: bool): (g': Globals)
    requires WellFormed(g)
    ensures WellFormed(g')
    ensures g'.sensorOutput == g.sensorOutput && g'.initDone == g.initDone
    ensures g'.stateUpdateCounter == g.stateUpdateCounter && g'.preferences == g.preferences
  {
    var g1 := g.(engineCalls := g.engineCalls + [Begin, SetTemperatureOffset(TemperatureOffset)]);
    var g2 := if g.stateUpdateCounter == 0 then Loaded(g1, setStateOk).1 else g1;
    g2.(engineCalls := g2.engineCalls + [UpdateSubscription(SensorList), AttachCallback])
  }

  // ---------------------------------------------------------------------
  // Blocking acquisition (get_sensor_data)

  /** The cache after one `run()` call: the callback runs if the engine invokes it. */
  function RunOnce(r: Reading, step: RunOutcome): (r': Reading)
    ensures step.delivered.None? ==> r' == r
    ensures r'.updated <==> r.updated || (step.delivered.Some? && |step.delivered.value| > 0)
  {
    match step.delivered
    case None => r
    case Some(outs) => NewData(r, outs)
  }

  /** Whether a run hands a non-empty batch of outputs to the callback. */
  predicate Delivers(step: RunOutcome) {
    step.delivered.Some? && |step.delivered.value| > 0
  }

  /** The index of the last run that hands over outputs, or -1. */
  function LastDelivery(steps: seq<RunOutcome>): (i: int)
    ensures -1 <= i < |steps|
    ensures i >= 0 ==> Delivers(steps[i])
    ensures forall j :: i < j < |steps| ==> !Delivers(steps[j])
  {
    if |steps| == 0 then -1
    else if Delivers(steps[|steps| - 1]) then |steps| - 1
    else LastDelivery(steps[..|steps| - 1])
  }

  /** The cache after the given `run()` calls, first to last. */
  function Replay(r: Reading, steps: seq<RunOutcome>): Reading {
    if |steps| == 0 then r
    else RunOnce(Replay(r, steps[..|steps| - 1]), steps[|steps| - 1])
  }

  /** The retry loop may stop after the run at index `j`: that run returned
      true and the cache is flagged updated afterwards. */
  predicate StopsAfter(r: Reading, runs: seq<RunOutcome>, j: nat)
    requires j < |runs|
  {
    runs[j].ok && Replay(r, runs[..j + 1]).updated
  }

  /** How the retry loop ended: after `runCalls` calls of `run()`, with this cache. */
  datatype LoopExit = LoopExit(runCalls: nat, reading: Reading)

  /** The retry loop from the run at index `k` on, with cache `r`. None means
      the scripted runs ran out while the loop would still be retrying. */
  function RunLoop(r: Reading, runs: seq<RunOutcome>, k: nat): (res: Option<LoopExit>)
    requires k <= |runs|
    decreases |runs| - k
    ensures res.Some? ==> k < res.value.runCalls <= |runs| && runs[res.value.runCalls - 1].ok
    ensures res.Some? ==> res.value.reading.updated
  {
    if k == |runs| then None
    else
      var r' := RunOnce(r, runs[k]);
      if runs[k].ok && r'.updated then Some(LoopExit(k + 1, r'))
      else RunLoop(r', runs, k + 1)
  }

  /** The globals once the init gate has been passed. */
  function AfterInit(g: Globals, setStateOk: bool): (g': Globals)
    requires WellFormed(g)
    ensures WellFormed(g') && g'.initDone
  {
    if g.initDone then g else Initialized(g, setStateOk).(initDone := true)
  }

  /** get_sensor_data: the reading it returns and the globals it leaves, or
      None when the scripted runs end before the retry loop would. */
  function Acquired(g: Globals, script: EngineScript): (res: Option<(Reading, Globals)>)
    requires WellFormed(g)
    ensures res.Some? ==> WellFormed(res.value.1) && res.value.1.initDone
    ensures res.Some? ==> !res.value.0.updated && res.value.1.sensorOutput == res.value.0
  {
    var g1 := AfterInit(g, script.setStateOk);
    if g1.sensorOutput.updated then
      var out := g1.sensorOutput.(updated := false);
      Some((out, g1.(sensorOutput := out)))
    else
      match RunLoop(g1.sensorOutput, script.runs, 0)
      case None => None
      case Some(exit) =>
        var out := exit.reading.(updated := false);
        var g2 := g1.(sensorOutput := out, engineCalls := g1.engineCalls + Runs(exit.runCalls));
        Some((out, StateUpdated(g2, script.snapshot, script.millisAtUpdate, script.storeWriteOk)))
  }

  // ---------------------------------------------------------------------
  // The session object

  /** The translation unit's globals. `bsecState` is the fixed-size state
      buffer; `preferences` is the durable key-to-bytes store. The ghost
      `engineCalls` records the calls made on the engine. */
  class SensorSession {
    var sensorOutput: Reading
    var initDone: bool
    var stateUpdateCounter: U16
    const bsecState: array<U8>
    var preferences: map<string, seq<U8>>
    ghost var engineCalls: seq<EngineCall>

    ghost predicate Valid() {
      bsecState.Length == MaxStateBlobSize
    }

    ghost function State(): (g: Globals)
      reads this, bsecState
      requires Valid()
      ensures WellFormed(g)
    {
      Globals(sensorOutput, initDone, stateUpdateCounter, bsecState[..], preferences, engineCalls)
    }

    /** Power-on: memory zeroed, the store kept from before. */
    constructor ColdBoot(persisted: map<string, seq<U8>>)
      ensures Valid() && fresh(bsecState)
      ensures State() == ColdBootState(persisted)
    {
      sensorOutput := ZeroReading;
      initDone := false;
      stateUpdateCounter := 0;
      bsecState := new U8[MaxStateBlobSize](_ => 0);
      preferences := persisted;
      engineCalls := [];
    }

    /** Copies `data` over the start of the state buffer. */
    method CopyToStateBuffer(data: seq<U8>)
      requires Valid() && |data| <= bsecState.Length
      modifies bsecState
      ensures bsecState[..] == Overlay(old(bsecState[..]), data)
    {
      for i := 0 to |data|
        invariant forall j :: 0 <= j < i ==> bsecState[j] == data[j]
        invariant forall j :: i <= j < bsecState.Length ==> bsecState[j] == old(bsecState[j])
      {
        bsecState[i] := data[i];
      }
    }

    /** newDataCallback. */
    method NewDataCallback(outputs: Outputs)
      requires Valid()
      modifies this
      ensures State() == old(State()).(sensorOutput := NewData(old(sensorOutput), outputs))
    {
      if |outputs| == 0 {
        return;
      }
      var timestamp := TimestampMs(outputs[0].timeStamp);
      sensorOutput := sensorOutput.(timestamp := timestamp);
      ghost var start := sensorOutput;
      for i := 0 to |outputs|
        invariant sensorOutput == ApplyOutputs(start, outputs[..i])
        invariant State() == old(State()).(sensorOutput := sensorOutput)
      {
        var output := outputs[i];
        ghost var before := sensorOutput;
        match output.sensorId {
          case RawTemperature =>
          case RawPressure =>
            sensorOutput := sensorOutput.(pressure := output.signal);
          case RawHumidity =>
          case RawGas =>
            sensorOutput := sensorOutput.(gas := output.signal);
          case HeatCompensatedTemperature =>
            sensorOutput := sensorOutput.(temperature := output.signal);
          case HeatCompensatedHumidity =>
            sensorOutput := sensorOutput.(humidity := output.signal);
          case IaqIndex =>
            sensorOutput := sensorOutput.(iaq := output.signal, accuracy := output.accuracy);
          case StaticIaqIndex =>
            sensorOutput := sensorOutput.(staticIaq := output.signal);
          case BreathVocEquivalent =>
            sensorOutput := sensorOutput.(voc := output.signal);
          case Co2Equivalent =>
            sensorOutput := sensorOutput.(co2 := output.signal);
          case OtherSensor(_) =>
        }
        assert sensorOutput == ApplyOutput(before, output);
        assert outputs[..i + 1][..i] == outputs[..i];
      }
      assert outputs[..|outputs|] == outputs;
      sensorOutput := sensorOutput.(updated := true);
    }

    /** One call of the engine's `run()`, which invokes the callback when it
        has outputs to hand over. */
    method EngineRun(step: RunOutcome) returns (ok: bool)
      requires Valid()
      modifies this
      ensures ok == step.ok
      ensures State() == old(State()).(sensorOutput := RunOnce(old(sensorOutput), step),
                                       engineCalls := old(engineCalls) + [Run])
    {
      engineCalls := engineCalls + [Run];
      if step.delivered.Some? {
        NewDataCallback(step.delivered.value);
      }
      ok := step.ok;
    }

    /** saveState; `writeOk` is whether the store accepts the write, which
        saveState does not look at. */
    method SaveState(writeOk: bool) returns (ok: bool)
      requires Valid()
      modifies this
      ensures ok
      ensures State() == Saved(old(State()), writeOk)
    {
      if writeOk {
        preferences := preferences[StateKey := bsecState[..]];
      }
      ok := true;
    }

    /** loadState. */
    method LoadState(setStateOk: bool) returns (ok: bool)
      requires Valid()
      modifies this, bsecState
      ensures (ok, State()) == Loaded(old(State()), setStateOk)
    {
      var read := GetBytes(preferences, StateKey, MaxStateBlobSize);
      CopyToStateBuffer(read);
      ok := true;
      if |read| == MaxStateBlobSize {
        engineCalls := engineCalls + [SetState(bsecState[..])];
        if !setStateOk {
          ok := false;
        }
      }
    }

    /** updateBsecState; `snapshot` is what `getState` yields (None when it
        fails), `nowMs` what `millis()` reads and `writeOk` whether the store
        accepts a save. */
    method UpdateBsecState(snapshot: Option<StateBlob>, nowMs: U32, writeOk: bool)
      requires Valid()
      modifies this, bsecState
      ensures State() == StateUpdated(old(State()), snapshot, nowMs, writeOk)
    {
      engineCalls := engineCalls + [GetState];
      if snapshot.None? {
        return;
      }
      CopyToStateBuffer(snapshot.value);
      var update := false;
      if stateUpdateCounter == 0 || Wrap32(stateUpdateCounter * StateSavePeriod) < nowMs {
        update := true;
        stateUpdateCounter := Wrap16(stateUpdateCounter + 1);
      }
      if update {
        var saved := SaveState(writeOk);
        if !saved {
          // saveState always reports success: the status check here is dead.
          assert false;
        }
      }
    }

    /** initSensor. */
    method InitSensor(setStateOk: bool)
      requires Valid()
      modifies this, bsecState
      ensures State() == Initialized(old(State()), setStateOk)
    {
      engineCalls := engineCalls + [Begin];
      engineCalls := engineCalls + [SetTemperatureOffset(TemperatureOffset)];
      if stateUpdateCounter == 0 {
        var loaded := LoadState(setStateOk);
      }
      engineCalls := engineCalls + [UpdateSubscription(SensorList)];
      engineCalls := engineCalls + [AttachCallback];
    }

    /** get_sensor_data: None when the scripted runs end while the source
        would still be retrying. */
    method GetSensorData(script: EngineScript) returns (res: Option<Reading>)
      requires Valid()
      modifies this, bsecState
      ensures res.Some? <==> Acquired(old(State()), script).Some?
      ensures res.Some? ==> res.value == Acquired(old(State()), script).value.0
      ensures res.Some? ==> State() == Acquired(old(State()), script).value.1
    {
      if !initDone {
        InitSensor(script.setStateOk);
        initDone := true;
      }
      assert State() == AfterInit(old(State()), script.setStateOk);

      if sensorOutput.updated {
        sensorOutput := sensorOutput.(updated := false);
        return Some(sensorOutput);
      }

      ghost var g1 := State();
      var k := 0;
      var done := false;
      while !done
        invariant k <= |script.runs|
        invariant State() == g1.(sensorOutput := sensorOutput, engineCalls := g1.engineCalls + Runs(k))
        invariant !done ==> RunLoop(g1.sensorOutput, script.runs, 0) == RunLoop(sensorOutput, script.runs, k)
        invariant done ==> RunLoop(g1.sensorOutput, script.runs, 0) == Some(LoopExit(k, sensorOutput))
        decreases |script.runs| - k
      {
        if k == |script.runs| {
          return None;
        }
        var ok := EngineRun(script.runs[k]);
        k := k + 1;
        done := ok && sensorOutput.updated;
      }

      sensorOutput := sensorOutput.(updated := false);
      UpdateBsecState(script.snapshot, script.millisAtUpdate, script.storeWriteOk);
      res := Some(sensorOutput);
    }
  }
}
