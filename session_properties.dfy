/**
 * What the acquisition session promises, proved about the functions that
 * specify its operations: where the retry loop stops, which reading it
 * returns, when calibration is loaded and saved, and that initialisation
 * happens once.
 */
module SessionProperties {
  import opened Optional
  import opened MachineInts
  import opened BsecData
  import opened BsecSession

  // ---------------------------------------------------------------------
  // The retry loop

  /** The loop stops right after the FIRST run that returns true with the
      cache flagged updated, and returns the cache as the runs so far left
      it. */
  lemma {:induction false} RunLoopStopsAtFirstReady(r: Reading, runs: seq<RunOutcome>, k: nat)
    requires k <= |runs|
    ensures RunLoop(Replay(r, runs[..k]), runs, k).Some? ==>
              var exit := RunLoop(Replay(r, runs[..k]), runs, k).value;
              && k < exit.runCalls <= |runs|
              && StopsAfter(r, runs, exit.runCalls - 1)
              && (forall j :: k <= j < exit.runCalls - 1 ==> !StopsAfter(r, runs, j))
              && exit.reading == Replay(r, runs[..exit.runCalls])
    decreases |runs| - k
  {
    if k < |runs| {
      RunLoopStep(r, runs, k);
      if !StopsAfter(r, runs, k) {
        RunLoopStopsAtFirstReady(r, runs, k + 1);
      }
    }
  }

  /** The loop never stops iff no run from index `k` on qualifies. */
  lemma {:induction false} RunLoopBlocksIffNoneReady(r: Reading, runs: seq<RunOutcome>, k: nat)
    requires k <= |runs|
    ensures RunLoop(Replay(r, runs[..k]), runs, k).None? <==>
              forall j :: k <= j < |runs| ==> !StopsAfter(r, runs, j)
    decreases |runs| - k
  {
    if k < |runs| {
      RunLoopStep(r, runs, k);
      if !StopsAfter(r, runs, k) {
        RunLoopBlocksIffNoneReady(r, runs, k + 1);
      }
    }
  }

  /** One turn of the retry loop, in terms of the runs made so far. */
  lemma RunLoopStep(r: Reading, runs: seq<RunOutcome>, k: nat)
    requires k < |runs|
    ensures RunLoop(Replay(r, runs[..k]), runs, k) ==
              if StopsAfter(r, runs, k) then Some(LoopExit(k + 1, Replay(r, runs[..k + 1])))
              else RunLoop(Replay(r, runs[..k + 1]), runs, k + 1)
  {
    assert runs[..k + 1][..k] == runs[..k];
  }

  /** After a series of runs a reading is pending iff one was pending before
      or some run handed over a non-empty batch. */
  lemma {:induction false} ReplayFlag(r: Reading, steps: seq<RunOutcome>)
    ensures Replay(r, steps).updated <==> r.updated || LastDelivery(steps) >= 0
  {
    if |steps| > 0 {
      ReplayFlag(r, steps[..|steps| - 1]);
    }
  }

  /** Most recent wins: after a series of runs the cache is the last delivery
      applied over whatever the runs before it left; runs that deliver
      nothing leave the cache exactly as it was. */
  lemma {:induction false} ReplayKeepsLastDelivery(r: Reading, steps: seq<RunOutcome>)
    ensures LastDelivery(steps) < 0 ==> Replay(r, steps) == r
    ensures LastDelivery(steps) >= 0 ==>
              var i := LastDelivery(steps);
              Replay(r, steps) == NewData(Replay(r, steps[..i]), steps[i].delivered.value)
  {
    if |steps| > 0 && !Delivers(steps[|steps| - 1]) {
      var prefix := steps[..|steps| - 1];
      ReplayKeepsLastDelivery(r, prefix);
      var i := LastDelivery(steps);
      if i >= 0 {
        assert prefix[..i] == steps[..i];
      }
    }
  }

  // ---------------------------------------------------------------------
  // get_sensor_data

  /** Entered with a reading pending, get_sensor_data hands it over with the
      flag cleared and calls neither `run()` nor `getState`, so neither the
      counter, the buffer nor the store changes. */
  lemma AcquiredFastPath(g: Globals, script: EngineScript)
    requires WellFormed(g) && g.initDone && g.sensorOutput.updated
    ensures Acquired(g, script).Some?
    ensures Acquired(g, script).value.0 == g.sensorOutput.(updated := false)
    ensures var g' := Acquired(g, script).value.1;
              && g'.engineCalls == g.engineCalls
              && g'.stateUpdateCounter == g.stateUpdateCounter
              && g'.bsecState == g.bsecState
              && g'.preferences == g.preferences
  {
  }

  /** Entered with no reading pending, get_sensor_data returns iff some run
      returns true with the cache flagged updated; it then has called `run()`
      exactly up to the first such run, then `getState` exactly once, and
      returns the cache those runs left, flag cleared. */
  lemma AcquiredSlowPath(g: Globals, script: EngineScript)
    requires WellFormed(g) && g.initDone && !g.sensorOutput.updated
    ensures Acquired(g, script).Some? <==>
              exists j :: 0 <= j < |script.runs| && StopsAfter(g.sensorOutput, script.runs, j)
    ensures Acquired(g, script).Some? ==>
              var g' := Acquired(g, script).value.1;
              var n := |g'.engineCalls| - |g.engineCalls| - 1;
              && 1 <= n <= |script.runs|
              && g'.engineCalls == g.engineCalls + Runs(n) + [GetState]
              && StopsAfter(g.sensorOutput, script.runs, n - 1)
              && (forall j :: 0 <= j < n - 1 ==> !StopsAfter(g.sensorOutput, script.runs, j))
              && Acquired(g, script).value.0 == Replay(g.sensorOutput, script.runs[..n]).(updated := false)
  {
    assert script.runs[..0] == [];
    RunLoopStopsAtFirstReady(g.sensorOutput, script.runs, 0);
    RunLoopBlocksIffNoneReady(g.sensorOutput, script.runs, 0);
  }

  /** Block until ready: a call entered with no reading pending returns the
      outputs of the last callback made during THIS call, applied over the
      cache as it stood before that callback. */
  lemma AcquiredReturnsLatestDelivery(g: Globals, script: EngineScript)
    requires WellFormed(g) && g.initDone && !g.sensorOutput.updated
    requires Acquired(g, script).Some?
    ensures var n := |Acquired(g, script).value.1.engineCalls| - |g.engineCalls| - 1;
            && 1 <= n <= |script.runs|
            && 0 <= LastDelivery(script.runs[..n])
            && var i := LastDelivery(script.runs[..n]);
               Acquired(g, script).value.0 ==
                 NewData(Replay(g.sensorOutput, script.runs[..i]), script.runs[i].delivered.value).(updated := false)
  {
    AcquiredSlowPath(g, script);
    var n := |Acquired(g, script).value.1.engineCalls| - |g.engineCalls| - 1;
    var steps := script.runs[..n];
    assert steps[..n] == steps;
    ReplayKeepsLastDelivery(g.sensorOutput, steps);
    var i := LastDelivery(steps);
    if i >= 0 {
      assert steps[..i] == script.runs[..i];
    }
  }

  /** Two calls with no callback in between: the second one blocks. With no
      reading pending (as every call leaves it) and no run that hands over
      outputs, get_sensor_data never returns. */
  lemma AcquiredBlocksWithoutDelivery(g: Globals, script: EngineScript)
    requires WellFormed(g) && g.initDone && !g.sensorOutput.updated
    requires forall i :: 0 <= i < |script.runs| ==> !Delivers(script.runs[i])
    ensures Acquired(g, script).None?
  {
    forall j | 0 <= j < |script.runs|
      ensures !StopsAfter(g.sensorOutput, script.runs, j)
    {
      ReplayKeepsLastDelivery(g.sensorOutput, script.runs[..j + 1]);
    }
    AcquiredSlowPath(g, script);
  }

  // ---------------------------------------------------------------------
  // Initialisation

  /** The calls initSensor makes on the engine. */
  function InitCalls(g: Globals): seq<EngineCall> {
    [Begin, SetTemperatureOffset(TemperatureOffset)] +
    (if g.stateUpdateCounter == 0 && HasFullBlob(g.preferences) then [SetState(g.preferences[StateKey])] else []) +
    [UpdateSubscription(SensorList), AttachCallback]
  }

  lemma InitializedCalls(g: Globals, setStateOk: bool)
    requires WellFormed(g)
    ensures Initialized(g, setStateOk).engineCalls == g.engineCalls + InitCalls(g)
    ensures g.stateUpdateCounter != 0 ==> Initialized(g, setStateOk).bsecState == g.bsecState
  {
    var g1 := g.(engineCalls := g.engineCalls + [Begin, SetTemperatureOffset(TemperatureOffset)]);
    if g.stateUpdateCounter == 0 {
      LoadStateOutcome(g1, setStateOk);
    }
  }

  lemma InitCallsContents(g: Globals)
    ensures AppliedBlobs(InitCalls(g)) ==
              if g.stateUpdateCounter == 0 && HasFullBlob(g.preferences) then [g.preferences[StateKey]] else []
    ensures Occurrences(InitCalls(g), Begin) == 1
  {
    var head: seq<EngineCall> := [Begin, SetTemperatureOffset(TemperatureOffset)];
    var load: seq<EngineCall> :=
      if g.stateUpdateCounter == 0 && HasFullBlob(g.preferences) then [SetState(g.preferences[StateKey])] else [];
    var tail: seq<EngineCall> := [UpdateSubscription(SensorList), AttachCallback];
    assert InitCalls(g) == head + load + tail;
    AppliedBlobsAppend(head + load, tail);
    AppliedBlobsAppend(head, load);
    AppliedBlobsAbsent(head);
    AppliedBlobsAbsent(tail);
    assert AppliedBlobs(load) == if load == [] then [] else [g.preferences[StateKey]] by {
      if load != [] {
        assert load[..0] == [];
      }
    }
    OccurrencesAppend(head + load, tail, Begin);
    OccurrencesAppend(head, load, Begin);
    OccurrencesAbsent(load, Begin);
    OccurrencesAbsent(tail, Begin);
    assert head[..1] == [Begin];
  }

  /** initSensor calls `begin` once, and hands a blob to `setState` only when
      the counter is zero (a cold boot) and the store holds a blob of exactly
      the engine's state size: that blob, unchanged. */
  lemma InitLoadGating(g: Globals, setStateOk: bool)
    requires WellFormed(g)
    ensures AppliedBlobs(Initialized(g, setStateOk).engineCalls) ==
              AppliedBlobs(g.engineCalls) +
              (if g.stateUpdateCounter == 0 && HasFullBlob(g.preferences) then [g.preferences[StateKey]] else [])
    ensures Occurrences(Initialized(g, setStateOk).engineCalls, Begin) == Occurrences(g.engineCalls, Begin) + 1
    ensures g.stateUpdateCounter != 0 ==> Initialized(g, setStateOk).bsecState == g.bsecState
  {
    InitializedCalls(g, setStateOk);
    InitCallsContents(g);
    AppliedBlobsAppend(g.engineCalls, InitCalls(g));
    OccurrencesAppend(g.engineCalls, InitCalls(g), Begin);
  }

  /** The calls get_sensor_data adds once the init gate is passed: none on
      the fast path, the runs and one `getState` on the slow path. */
  lemma AcquiredCalls(g: Globals, script: EngineScript)
    requires WellFormed(g) && Acquired(g, script).Some?
    ensures var g1 := AfterInit(g, script.setStateOk);
            Acquired(g, script).value.1.engineCalls ==
              g1.engineCalls +
              if g1.sensorOutput.updated then []
              else Runs(RunLoop(g1.sensorOutput, script.runs, 0).value.runCalls) + [GetState]
  {
  }

  /** The calls after init hand nothing to `setState` and never call `begin`. */
  lemma LoopCallsContents(n: nat)
    ensures AppliedBlobs(Runs(n) + [GetState]) == []
    ensures Occurrences(Runs(n) + [GetState], Begin) == 0
  {
    AppliedBlobsAbsent(Runs(n) + [GetState]);
    OccurrencesAbsent(Runs(n) + [GetState], Begin);
  }

  /** `begin` has been called once iff initialisation is done, never more. */
  predicate InitCountConsistent(g: Globals) {
    Occurrences(g.engineCalls, Begin) == if g.initDone then 1 else 0
  }

  /** initSensor runs exactly once over all calls of get_sensor_data: each
      call keeps the count of `begin` calls consistent with `initDone`, and
      leaves `initDone` set. */
  lemma InitRunsOnce(g: Globals, script: EngineScript)
    requires WellFormed(g) && InitCountConsistent(g)
    requires Acquired(g, script).Some?
    ensures InitCountConsistent(Acquired(g, script).value.1)
    ensures Occurrences(Acquired(g, script).value.1.engineCalls, Begin) == 1
  {
    var g1 := AfterInit(g, script.setStateOk);
    if !g.initDone {
      InitLoadGating(g, script.setStateOk);
    }
    AcquiredCalls(g, script);
    if !g1.sensorOutput.updated {
      var extra := Runs(RunLoop(g1.sensorOutput, script.runs, 0).value.runCalls) + [GetState];
      OccurrencesAppend(g1.engineCalls, extra, Begin);
      LoopCallsContents(RunLoop(g1.sensorOutput, script.runs, 0).value.runCalls);
    }
  }

  /** The first call after a power-on hands the stored calibration to the
      engine when, and only when, a blob of exactly the right size is stored;
      once it has a state snapshot it saves it and the counter becomes 1. */
  lemma ColdBootFirstAcquire(persisted: map<string, seq<U8>>, script: EngineScript)
    requires Acquired(ColdBootState(persisted), script).Some?
    ensures var g' := Acquired(ColdBootState(persisted), script).value.1;
            && AppliedBlobs(g'.engineCalls) == (if HasFullBlob(persisted) then [persisted[StateKey]] else [])
            && (script.snapshot.Some? ==>
                  && g'.stateUpdateCounter == 1
                  && g'.bsecState[..|script.snapshot.value|] == script.snapshot.value
                  && g'.preferences == (if script.storeWriteOk then persisted[StateKey := g'.bsecState] else persisted))
            && (script.snapshot.None? ==> g'.stateUpdateCounter == 0 && g'.preferences == persisted)
  {
    var g := ColdBootState(persisted);
    InitLoadGating(g, script.setStateOk);
    var g1 := AfterInit(g, script.setStateOk);
    AcquiredCalls(g, script);
    var exit := RunLoop(g1.sensorOutput, script.runs, 0).value;
    var extra := Runs(exit.runCalls) + [GetState];
    AppliedBlobsAppend(g1.engineCalls, extra);
    LoopCallsContents(exit.runCalls);
    var g2 := g1.(sensorOutput := exit.reading.(updated := false), engineCalls := g1.engineCalls + Runs(exit.runCalls));
    StateUpdateOutcome(g2, script.snapshot, script.millisAtUpdate, script.storeWriteOk);
  }

  /** The first call after a power-on is the init gate followed by the call
      an initialised session would make. */
  lemma FirstCall(g: Globals, script: EngineScript)
    requires WellFormed(g) && !g.initDone
    ensures AfterInit(g, script.setStateOk).initDone
    ensures Acquired(g, script) == Acquired(AfterInit(g, script.setStateOk), script)
  {
  }

  /** An end-to-end scenario: after a power-on with nothing stored, two
      failing runs and a third that delivers compensated humidity and raw
      pressure yield a reading with only those two fields and the time stamp
      set, the flag cleared. */
  lemma ColdBootScenario(h: Float32, p: Float32, ts: I64)
    requires ts >= 0
    ensures var outs: Outputs := [BsecOutput(HeatCompensatedHumidity, h, 0, ts), BsecOutput(RawPressure, p, 0, ts)];
            var script := EngineScript(true, [RunOutcome(false, None), RunOutcome(false, None), RunOutcome(true, Some(outs))], None, 0, true);
            && Acquired(ColdBootState(map[]), script).Some?
            && Acquired(ColdBootState(map[]), script).value.0 ==
                 ZeroReading.(humidity := h, pressure := p, timestamp := ts / NanosPerMilli)
  {
    var outs: Outputs := [BsecOutput(HeatCompensatedHumidity, h, 0, ts), BsecOutput(RawPressure, p, 0, ts)];
    var runs := [RunOutcome(false, None), RunOutcome(false, None), RunOutcome(true, Some(outs))];
    var script := EngineScript(true, runs, None, 0, true);
    var g := ColdBootState(map[]);
    InitializedCalls(g, true);
    assert AfterInit(g, true).sensorOutput == ZeroReading;
    var r0 := ZeroReading.(timestamp := ts / NanosPerMilli);
    assert outs[..2][..1] == outs[..1];
    assert outs[..1][..0] == [];
    assert outs[..2] == outs;
    assert ApplyOutputs(r0, outs[..1]) == r0.(humidity := h);
    var expected := r0.(humidity := h, pressure := p, updated := true);
    assert NewData(ZeroReading, outs) == expected;
    assert RunLoop(ZeroReading, runs, 2) == Some(LoopExit(3, expected));
    assert RunLoop(ZeroReading, runs, 0) == Some(LoopExit(3, expected));
  }

  // ---------------------------------------------------------------------
  // Calibration persistence

  /** loadState hands the buffer to `setState` only when the stored blob has
      exactly the full size, the buffer then being that blob; any other
      length returns true with no engine call; false comes only from a
      failing `setState`. */
  lemma LoadStateOutcome(g: Globals, setStateOk: bool)
    requires WellFormed(g)
    ensures Loaded(g, setStateOk).1.engineCalls ==
              g.engineCalls + (if HasFullBlob(g.preferences) then [SetState(g.preferences[StateKey])] else [])
    ensures HasFullBlob(g.preferences) ==> Loaded(g, setStateOk).1.bsecState == g.preferences[StateKey]
    ensures !HasFullBlob(g.preferences) ==>
              Loaded(g, setStateOk).1.bsecState == Overlay(g.bsecState, GetBytes(g.preferences, StateKey, MaxStateBlobSize))
    ensures !Loaded(g, setStateOk).0 <==> HasFullBlob(g.preferences) && !setStateOk
    ensures var g' := Loaded(g, setStateOk).1;
              g'.sensorOutput == g.sensorOutput && g'.initDone == g.initDone &&
              g'.stateUpdateCounter == g.stateUpdateCounter && g'.preferences == g.preferences
  {
    var read := GetBytes(g.preferences, StateKey, MaxStateBlobSize);
    if HasFullBlob(g.preferences) {
      assert read == g.preferences[StateKey];
      assert Overlay(g.bsecState, read) == read;
    }
  }

  /** The cadence test is the source's 32-bit unsigned comparison: exact
      while counter * STATE_SAVE_PERIOD fits in 32 bits (counter <= 198), and
      wrapped from counter 199 on. */
  lemma SaveDueInThirtyTwoBits(counter: U16, nowMs: U32)
    ensures counter <= 198 ==> (SaveDue(counter, nowMs) <==> counter == 0 || counter * StateSavePeriod < nowMs)
    ensures counter == 199 ==> (SaveDue(counter, nowMs) <==> 3432704 < nowMs)
  {
    if counter <= 198 {
      assert counter * StateSavePeriod <= 198 * StateSavePeriod < U32Modulus;
    }
  }

  /** updateBsecState: a failing `getState` changes neither counter, buffer
      nor store; otherwise the snapshot lands in the buffer, and the counter
      goes up by one iff SaveDue holds, whether or not the store accepts the
      write; the store holds the buffer afterwards iff a due save was
      accepted, and is untouched otherwise. */
  lemma StateUpdateOutcome(g: Globals, snapshot: Option<StateBlob>, nowMs: U32, writeOk: bool)
    requires WellFormed(g)
    ensures snapshot.None? ==> StateUpdated(g, snapshot, nowMs, writeOk) == g.(engineCalls := g.engineCalls + [GetState])
    ensures snapshot.Some? ==> StateUpdated(g, snapshot, nowMs, writeOk).bsecState[..|snapshot.value|] == snapshot.value
    ensures snapshot.Some? ==>
              StateUpdated(g, snapshot, nowMs, writeOk).bsecState[|snapshot.value|..] == g.bsecState[|snapshot.value|..]
    ensures var g' := StateUpdated(g, snapshot, nowMs, writeOk);
              (g'.stateUpdateCounter != g.stateUpdateCounter) <==> snapshot.Some? && SaveDue(g.stateUpdateCounter, nowMs)
    ensures var g' := StateUpdated(g, snapshot, nowMs, writeOk);
              snapshot.Some? && SaveDue(g.stateUpdateCounter, nowMs) ==>
                g'.stateUpdateCounter == Wrap16(g.stateUpdateCounter + 1)
    ensures var g' := StateUpdated(g, snapshot, nowMs, writeOk);
              snapshot.Some? && SaveDue(g.stateUpdateCounter, nowMs) && writeOk ==>
                g'.preferences == g.preferences[StateKey := g'.bsecState]
    ensures var g' := StateUpdated(g, snapshot, nowMs, writeOk);
              !(snapshot.Some? && SaveDue(g.stateUpdateCounter, nowMs) && writeOk) ==> g'.preferences == g.preferences
  {
    if snapshot.Some? {
      var b := snapshot.value;
      assert Overlay(g.bsecState, b)[..|b|] == b;
    }
  }

  /** The save cadence from a power-on: the first snapshot is saved (counter
      0 to 1); later ones are not while millis() <= STATE_SAVE_PERIOD; the
      first one after that is (counter 1 to 2). */
  lemma SaveCadence(g: Globals, b1: StateBlob, b2: StateBlob, b3: StateBlob, t1: U32, t2: U32, t3: U32)
    requires WellFormed(g) && g.stateUpdateCounter == 0
    requires t2 <= StateSavePeriod < t3
    ensures var g1 := StateUpdated(g, Some(b1), t1, true);
            var g2 := StateUpdated(g1, Some(b2), t2, true);
            var g3 := StateUpdated(g2, Some(b3), t3, true);
            && g1.stateUpdateCounter == 1 && g1.preferences == g.preferences[StateKey := g1.bsecState]
            && g2.stateUpdateCounter == 1 && g2.preferences == g1.preferences
            && g3.stateUpdateCounter == 2 && g3.preferences == g2.preferences[StateKey := g3.bsecState]
  {
  }

  /** A save the store rejects is not retried: the counter has already moved
      on, so the next snapshot is not saved before STATE_SAVE_PERIOD has
      passed, and the store keeps what it held before. */
  lemma RejectedSaveNotRetried(g: Globals, b1: StateBlob, b2: StateBlob, t1: U32, t2: U32)
    requires WellFormed(g) && g.stateUpdateCounter == 0
    requires t2 <= StateSavePeriod
    ensures var g1 := StateUpdated(g, Some(b1), t1, false);
            var g2 := StateUpdated(g1, Some(b2), t2, true);
            && g1.stateUpdateCounter == 1 && g2.stateUpdateCounter == 1
            && g2.preferences == g.preferences
  {
  }
}
