/**
 * The cached fused reading (the BSEC_DATA record) and what one delivery of
 * engine outputs does to it (newDataCallback).
 */
module BsecData {
  import opened Optional
  import opened MachineInts

  /** A 32-bit float from the fusion engine, kept as its bit pattern: the
      session only copies signals from one place to another. */
  datatype Float32 = Float32(bits: bv32)

  const PositiveZero := Float32(0)

  /** The virtual sensor an engine output belongs to, as the switch in the
      callback tells them apart. The ten named ones are those the session
      subscribes to. `OtherSensor(code)` is any other id the engine may
      report, `code` being its raw number: an id that equals one of the ten
      is always written as that named constructor, never as `OtherSensor`. */
  datatype SensorId =
    | RawTemperature
    | RawPressure
    | RawHumidity
    | RawGas
    | HeatCompensatedTemperature
    | HeatCompensatedHumidity
    | IaqIndex
    | StaticIaqIndex
    | BreathVocEquivalent
    | Co2Equivalent
    | OtherSensor(code: U8)

  /** The subscription list, in the order it is handed to the engine. */
  const SensorList: seq<SensorId> := [
    RawTemperature, RawPressure, RawHumidity, RawGas,
    HeatCompensatedTemperature, HeatCompensatedHumidity,
    IaqIndex, StaticIaqIndex, BreathVocEquivalent, Co2Equivalent
  ]

  /** One entry of the engine's output array: the virtual sensor, its value,
      its accuracy and the engine time stamp in nanoseconds (int64_t). */
  datatype BsecOutput = BsecOutput(sensorId: SensorId, signal: Float32, accuracy: U8, timeStamp: I64)

  /** The outputs handed to one callback; their count `nOutputs` is a uint8_t. */
  type Outputs = s: seq<BsecOutput> | |s| < 0x100

  /** The single-slot cache of the latest fused reading. */
  datatype Reading = Reading(
    temperature: Float32,
    humidity: Float32,
    pressure: Float32,
    gas: Float32,
    iaq: Float32,
    staticIaq: Float32,
    voc: Float32,
    co2: Float32,
    accuracy: U8,
    updated: bool,
    timestamp: U64)

  /** The cache as the C runtime initialises a global: every byte zero. */
  const ZeroReading := Reading(
    PositiveZero, PositiveZero, PositiveZero, PositiveZero,
    PositiveZero, PositiveZero, PositiveZero, PositiveZero,
    0, false, 0)

  const NanosPerMilli := 1000000

  /** The reading's time stamp: nanoseconds divided by 10^6 in int64_t
      arithmetic, then stored in a uint64_t. */
  function TimestampMs(timeStamp: I64): (ms: U64)
    ensures timeStamp >= 0 ==> ms == timeStamp / NanosPerMilli
    ensures timeStamp >= 0 ==> ms * NanosPerMilli <= timeStamp < (ms + 1) * NanosPerMilli
  {
    Wrap64(TruncDiv(timeStamp, NanosPerMilli))
  }

  /** The float fields of a reading, named so that a property can speak of
      "every other field". */
  datatype Field = Temperature | Humidity | Pressure | Gas | Iaq | StaticIaq | Voc | Co2

  function FieldOf(r: Reading, f: Field): Float32 {
    match f
    case Temperature => r.temperature
    case Humidity => r.humidity
    case Pressure => r.pressure
    case Gas => r.gas
    case Iaq => r.iaq
    case StaticIaq => r.staticIaq
    case Voc => r.voc
    case Co2 => r.co2
  }

  function SetField(r: Reading, f: Field, v: Float32): (r': Reading)
    ensures FieldOf(r', f) == v
    ensures forall g :: g != f ==> FieldOf(r', g) == FieldOf(r, g)
    ensures r'.accuracy == r.accuracy && r'.updated == r.updated && r'.timestamp == r.timestamp
  {
    match f
    case Temperature => r.(temperature := v)
    case Humidity => r.(humidity := v)
    case Pressure => r.(pressure := v)
    case Gas => r.(gas := v)
    case Iaq => r.(iaq := v)
    case StaticIaq => r.(staticIaq := v)
    case Voc => r.(voc := v)
    case Co2 => r.(co2 := v)
  }

  /** Where the callback stores an output of each virtual sensor. The raw
      temperature and raw humidity outputs are subscribed to but only logged,
      and outputs of any other sensor are ignored. */
  function Target(id: SensorId): Option<Field> {
    match id
    case RawTemperature => None
    case RawPressure => Some(Pressure)
    case RawHumidity => None
    case RawGas => Some(Gas)
    case HeatCompensatedTemperature => Some(Temperature)
    case HeatCompensatedHumidity => Some(Humidity)
    case IaqIndex => Some(Iaq)
    case StaticIaqIndex => Some(StaticIaq)
    case BreathVocEquivalent => Some(Voc)
    case Co2Equivalent => Some(Co2)
    case OtherSensor(_) => None
  }

  /** An output is stored iff its sensor is subscribed to and is neither
      raw temperature nor raw humidity. */
  lemma StoredIds(id: SensorId)
    ensures Target(id).Some? <==> id in SensorList && id != RawTemperature && id != RawHumidity
  {
  }

  /** No two virtual sensors are stored in the same field. */
  lemma DistinctTargets(a: SensorId, b: SensorId)
    requires Target(a).Some? && Target(a) == Target(b)
    ensures a == b
  {
  }

  /** The effect of one output on the reading: its signal goes to its own
      field, IAQ also carries the accuracy, and nothing else changes. */
  function ApplyOutput(r: Reading, o: BsecOutput): (r': Reading)
    ensures Target(o.sensorId).None? ==> r' == r
    ensures Target(o.sensorId).Some? ==> FieldOf(r', Target(o.sensorId).value) == o.signal
    ensures forall g :: Target(o.sensorId) != Some(g) ==> FieldOf(r', g) == FieldOf(r, g)
    ensures r'.accuracy == if o.sensorId == IaqIndex then o.accuracy else r.accuracy
    ensures r'.updated == r.updated && r'.timestamp == r.timestamp
  {
    match Target(o.sensorId)
    case None => r
    case Some(f) =>
      var r1 := SetField(r, f, o.signal);
      if o.sensorId == IaqIndex then r1.(accuracy := o.accuracy) else r1
  }

  /** The outputs applied one after the other, first to last. */
  function ApplyOutputs(r: Reading, outs: seq<BsecOutput>): (r': Reading)
    ensures r'.updated == r.updated && r'.timestamp == r.timestamp
  {
    if |outs| == 0 then r
    else ApplyOutput(ApplyOutputs(r, outs[..|outs| - 1]), outs[|outs| - 1])
  }

  /** What one callback invocation leaves in the cache. */
  function NewData(r: Reading, outs: Outputs): (r': Reading)
    ensures |outs| == 0 ==> r' == r
    ensures |outs| > 0 ==> r'.updated && r'.timestamp == TimestampMs(outs[0].timeStamp)
  {
    if |outs| == 0 then r
    else ApplyOutputs(r.(timestamp := TimestampMs(outs[0].timeStamp)), outs).(updated := true)
  }

  /** A field that no output of the batch is routed to keeps its value. */
  lemma {:induction false} UnmentionedFieldKept(r: Reading, outs: seq<BsecOutput>, f: Field)
    requires forall i :: 0 <= i < |outs| ==> Target(outs[i].sensorId) != Some(f)
    ensures FieldOf(ApplyOutputs(r, outs), f) == FieldOf(r, f)
  {
    if |outs| > 0 {
      UnmentionedFieldKept(r, outs[..|outs| - 1], f);
    }
  }

  /** A field ends up holding the signal of the LAST output routed to it: a
      later duplicate overwrites an earlier one. */
  lemma {:induction false} LastWriteWins(r: Reading, outs: seq<BsecOutput>, f: Field, i: nat)
    requires i < |outs| && Target(outs[i].sensorId) == Some(f)
    requires forall j :: i < j < |outs| ==> Target(outs[j].sensorId) != Some(f)
    ensures FieldOf(ApplyOutputs(r, outs), f) == outs[i].signal
  {
    if i < |outs| - 1 {
      LastWriteWins(r, outs[..|outs| - 1], f, i);
    }
  }

  /** The accuracy changes only through an IAQ output. */
  lemma {:induction false} AccuracyKeptWithoutIaq(r: Reading, outs: seq<BsecOutput>)
    requires forall i :: 0 <= i < |outs| ==> outs[i].sensorId != IaqIndex
    ensures ApplyOutputs(r, outs).accuracy == r.accuracy
  {
    if |outs| > 0 {
      AccuracyKeptWithoutIaq(r, outs[..|outs| - 1]);
    }
  }

  /** The accuracy is that of the last IAQ output. */
  lemma {:induction false} AccuracyOfLastIaq(r: Reading, outs: seq<BsecOutput>, i: nat)
    requires i < |outs| && outs[i].sensorId == IaqIndex
    requires forall j :: i < j < |outs| ==> outs[j].sensorId != IaqIndex
    ensures ApplyOutputs(r, outs).accuracy == outs[i].accuracy
  {
    if i < |outs| - 1 {
      AccuracyOfLastIaq(r, outs[..|outs| - 1], i);
    }
  }

  /** For a non-empty batch the whole callback: time stamp from the first
      output, each field from the last output routed to it or unchanged, and
      the updated flag raised. */
  lemma NewDataField(r: Reading, outs: Outputs, f: Field)
    requires |outs| > 0
    ensures (forall i :: 0 <= i < |outs| ==> Target(outs[i].sensorId) != Some(f)) ==>
              FieldOf(NewData(r, outs), f) == FieldOf(r, f)
    ensures forall i :: 0 <= i < |outs| && Target(outs[i].sensorId) == Some(f) &&
                        (forall j :: i < j < |outs| ==> Target(outs[j].sensorId) != Some(f)) ==>
              FieldOf(NewData(r, outs), f) == outs[i].signal
  {
    var r0 := r.(timestamp := TimestampMs(outs[0].timeStamp));
    assert forall g :: FieldOf(r0, g) == FieldOf(r, g);
    assert forall g :: FieldOf(NewData(r, outs), g) == FieldOf(ApplyOutputs(r0, outs), g);
    if forall i :: 0 <= i < |outs| ==> Target(outs[i].sensorId) != Some(f) {
      UnmentionedFieldKept(r0, outs, f);
    }
    forall i | 0 <= i < |outs| && Target(outs[i].sensorId) == Some(f) &&
               (forall j :: i < j < |outs| ==> Target(outs[j].sensorId) != Some(f))
      ensures FieldOf(NewData(r, outs), f) == outs[i].signal
    {
      LastWriteWins(r0, outs, f, i);
    }
  }
}
