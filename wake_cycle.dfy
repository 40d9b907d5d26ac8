/**
 * The wake cycle of src/main.cpp: take one reading, remember its time
 * stamp, and program the wake timer so that the next wake comes one period
 * after that time stamp.
 */
module WakeCycle {
  import opened Optional
  import opened MachineInts
  import opened BsecData
  import opened BsecSession

  const SleepSeconds := 5 * 60
  /** The wake period in milliseconds, SLEEP_SECONDS * 1000. */
  const TargetMs: U64 := SleepSeconds * 1000
  const MicrosPerMilli := 1000

  /** get_sleep_duration. `millis` is what the 32-bit millis() reads, widened
      to 64 bits; all arithmetic is on uint64_t. When millis() has not fallen
      behind the reading's time stamp, the period is shortened by the time
      elapsed since that time stamp, with no floor: past the period the
      subtraction wraps around. */
  function SleepDuration(millis: U32, lastTimestamp: U64): (sleepMs: U64)
    ensures millis < lastTimestamp ==> sleepMs == TargetMs
    ensures lastTimestamp <= millis <= lastTimestamp + TargetMs ==>
              sleepMs <= TargetMs && millis + sleepMs == lastTimestamp + TargetMs
    ensures millis > lastTimestamp + TargetMs ==>
              sleepMs == U64Modulus - (millis - lastTimestamp - TargetMs)
  {
    var current: U64 := millis;
    var result: U64 := TargetMs;
    if current >= lastTimestamp then Wrap64(result - (current - lastTimestamp)) else result
  }

  /** The argument handed to esp_sleep_enable_timer_wakeup: microseconds,
      computed modulo 2^64. */
  function TimerWakeupMicros(sleepMs: U64): (us: U64)
    ensures sleepMs * MicrosPerMilli < U64Modulus ==> us == sleepMs * MicrosPerMilli
    ensures (us - sleepMs * MicrosPerMilli) % U64Modulus == 0
  {
    Wrap64(sleepMs * MicrosPerMilli)
  }

  /** For a fixed time stamp, a later millis() never gives a longer sleep
      while the elapsed time stays within the period. */
  lemma SleepNeverLongerLater(m1: U32, m2: U32, lastTimestamp: U64)
    requires lastTimestamp <= m1 <= m2 <= lastTimestamp + TargetMs
    ensures SleepDuration(m2, lastTimestamp) <= SleepDuration(m1, lastTimestamp)
  {
  }

  /** Within the period the device wakes exactly one period after the
      reading's time stamp: the timer gets the remaining milliseconds times
      1000, with no overflow. */
  lemma WakeOnePeriodAfterReading(millis: U32, lastTimestamp: U64)
    requires lastTimestamp <= millis <= lastTimestamp + TargetMs
    ensures TimerWakeupMicros(SleepDuration(millis, lastTimestamp)) ==
              (lastTimestamp + TargetMs - millis) * MicrosPerMilli
    ensures TimerWakeupMicros(SleepDuration(millis, lastTimestamp)) <= TargetMs * MicrosPerMilli
  {
    var s := SleepDuration(millis, lastTimestamp);
    assert s * MicrosPerMilli <= TargetMs * MicrosPerMilli;
  }

  /** Past the period there is no clamp: the sleep wraps to more than
      2^64 - 2^32 milliseconds, and the timer gets 2^64 minus a thousand
      times the overrun, in microseconds. */
  lemma OverrunWrapsAround(millis: U32, lastTimestamp: U64)
    requires millis > lastTimestamp + TargetMs
    ensures SleepDuration(millis, lastTimestamp) > U64Modulus - U32Modulus
    ensures TimerWakeupMicros(SleepDuration(millis, lastTimestamp)) ==
              U64Modulus - (millis - lastTimestamp - TargetMs) * MicrosPerMilli
  {
    var d := millis - lastTimestamp - TargetMs;
    var s := SleepDuration(millis, lastTimestamp);
    assert 0 < d < U32Modulus;
    var y := U64Modulus - d * MicrosPerMilli;
    assert s * MicrosPerMilli == 999 * U64Modulus + y;
    assert 0 <= y < U64Modulus;
  }

  /** The two worked cases: 2 s after the reading the device sleeps 298 s;
      with millis() behind the time stamp it sleeps the full period. */
  lemma SleepExamples()
    ensures SleepDuration(12000, 10000) == 298000
    ensures SleepDuration(9000, 10000) == 300000
  {
  }

  /** The node: the acquisition session and the global `last_timestamp`;
      the ghost `wakeTimers` records the arguments given to the wake timer. */
  class Device {
    const session: SensorSession
    var lastTimestamp: U64
    ghost var wakeTimers: seq<U64>

    ghost predicate Valid()
      reads this, session
    {
      session.Valid()
    }

    /** Power-on: zeroed globals, the durable store kept from before. */
    constructor PowerOn(persisted: map<string, seq<U8>>)
      ensures Valid() && fresh(session) && fresh(session.bsecState)
      ensures session.State() == ColdBootState(persisted)
      ensures lastTimestamp == 0 && wakeTimers == []
    {
      session := new SensorSession.ColdBoot(persisted);
      lastTimestamp := 0;
      wakeTimers := [];
    }

    /** build_data_advert up to the reading it encodes: one blocking
        acquisition, whose time stamp becomes `last_timestamp`. */
    method BuildDataAdvert(script: EngineScript) returns (reading: Option<Reading>)
      requires Valid()
      modifies this, session, session.bsecState
      ensures Valid()
      ensures reading.Some? <==> Acquired(old(session.State()), script).Some?
      ensures reading.Some? ==> reading.value == Acquired(old(session.State()), script).value.0
      ensures reading.Some? ==> session.State() == Acquired(old(session.State()), script).value.1
      ensures reading.Some? ==> lastTimestamp == reading.value.timestamp
      ensures wakeTimers == old(wakeTimers)
    {
      reading := session.GetSensorData(script);
      if reading.Some? {
        lastTimestamp := reading.value.timestamp;
      }
    }

    /** One pass of loop(): acquire (the radio part is left out), then
        compute the sleep from `millisAtSleep` and program the wake timer. */
    method Loop(script: EngineScript, millisAtSleep: U32) returns (sleepMs: Option<U64>)
      requires Valid()
      modifies this, session, session.bsecState
      ensures Valid()
      ensures sleepMs.Some? <==> Acquired(old(session.State()), script).Some?
      ensures sleepMs.Some? ==>
                var reading := Acquired(old(session.State()), script).value.0;
                && lastTimestamp == reading.timestamp
                && sleepMs.value == SleepDuration(millisAtSleep, reading.timestamp)
                && wakeTimers == old(wakeTimers) + [TimerWakeupMicros(sleepMs.value)]
      ensures sleepMs.Some? ==> session.State() == Acquired(old(session.State()), script).value.1
    {
      var reading := BuildDataAdvert(script);
      if reading.None? {
        return None;
      }
      var ms := SleepDuration(millisAtSleep, lastTimestamp);
      wakeTimers := wakeTimers + [TimerWakeupMicros(ms)];
      sleepMs := Some(ms);
    }
  }
}
