/** The pulse-counter host: named counting units, each fed by two pins in
    single-edge, half-quadrature or quadrature mode. The count the
    hardware holds is a parameter; the unit configuration written to the
    hardware is an output. The counting rules of the edge and level
    actions are those of the ESP-IDF pulse counter driver. */
module PcntHost {
  import opened CInt
  import opened Payload
  import opened Transport
  import opened Host
  import F = Factory

  /** `encoderType`. */
  datatype EncoderType = Single | HalfQuad | Quad

  /** What an edge on a channel's edge pin does to the count. */
  datatype EdgeAction = EdgeHold | Increase | Decrease

  /** How the level of a channel's level pin modifies the edge action. */
  datatype LevelAction = Keep | Inverse | LevelHold

  /** A channel: its two pins, the actions on a rising and a falling edge,
      and the level actions while the level pin is high and low. */
  datatype ChannelConf = ChannelConf(edgePin: int, levelPin: int,
                                     onRise: EdgeAction, onFall: EdgeAction,
                                     whenHigh: LevelAction, whenLow: LevelAction)

  /** A unit: its rollover limits, its glitch filter and its two channels. */
  datatype UnitConf = UnitConf(lowLimit: int, highLimit: int, maxGlitchNs: int,
                               chanA: ChannelConf, chanB: ChannelConf)

  const MAX_GLITCH_NS := 100

  /** The configuration `Add` writes: channel A counts on pin A gated by
      pin B, down on a rise except in single-edge mode and up on a fall;
      channel B, on pin B gated by pin A, counts only in quadrature mode. */
  function UnitConfig(inputA: int, inputB: int, et: EncoderType, lowLimit: int, highLimit: int): UnitConf {
    UnitConf(lowLimit, highLimit, MAX_GLITCH_NS,
             ChannelConf(inputA, inputB, if et != Single then Decrease else EdgeHold, Increase, Keep, Inverse),
             if et == Quad then ChannelConf(inputB, inputA, Increase, Decrease, Keep, Inverse)
             else ChannelConf(inputB, inputA, EdgeHold, EdgeHold, LevelHold, LevelHold))
  }

  /** The count change of one edge on a channel's edge pin. */
  function Step(c: ChannelConf, rising: bool, levelHigh: bool): (d: int)
    ensures -1 <= d <= 1
  {
    var e := if rising then c.onRise else c.onFall;
    var d := match e case EdgeHold => 0 case Increase => 1 case Decrease => -1;
    match (if levelHigh then c.whenHigh else c.whenLow)
    case Keep => d
    case Inverse => -d
    case LevelHold => 0
  }

  /** A change of one of the two pins: pin A (or B) goes to `to` while the
      other pin stays at `other`. */
  datatype PinEdge = PinEdge(onA: bool, to: bool, other: bool)

  /** The count change of one pin edge, summed over both channels. */
  function EdgeCount(u: UnitConf, e: PinEdge): int {
    if e.onA then Step(u.chanA, e.to, e.other) else Step(u.chanB, e.to, e.other)
  }

  /** The count change of a sequence of pin edges. */
  function Count(u: UnitConf, es: seq<PinEdge>): int
    decreases |es|
  {
    if es == [] then 0 else Count(u, es[..|es| - 1]) + EdgeCount(u, es[|es| - 1])
  }

  /** One forward quadrature cycle, pin A leading: A rises, B rises, A
      falls, B falls. */
  const Forward: seq<PinEdge> :=
    [PinEdge(true, true, false), PinEdge(false, true, true), PinEdge(true, false, true), PinEdge(false, false, false)]

  /** One backward cycle, pin B leading: B rises, A rises, B falls, A falls. */
  const Backward: seq<PinEdge> :=
    [PinEdge(false, true, false), PinEdge(true, true, true), PinEdge(false, false, true), PinEdge(true, false, false)]

  /** The counts per cycle of each encoder type. */
  function PerCycle(et: EncoderType): int {
    match et
    case Single => 1
    case HalfQuad => 2
    case Quad => 4
  }

  /** The publish rule of the input task as written: the value `Measure`
      returns must be non-zero, and the unit must have changed. */
  predicate PublishesAsWritten(value: int, changed: int) {
    value != 0 && changed != 0
  }

  /** The rule every other host follows: publish on a change. */
  predicate Publishes(changed: int) {
    changed != 0
  }

  /** A unit of the host (`PcntUnit`). Its value, which the code leaves
      uninitialised, starts at zero. */
  class PcntUnit {
    const name: string
    const mode: ObjMsgSample
    var changed: int
    var value: Int32

    constructor (name: string, mode: ObjMsgSample)
      ensures this.name == name && this.mode == mode && changed == 0 && value == 0
    {
      this.name := name;
      this.mode := mode;
      changed := 0;
      value := 0;
    }

    function GetValue(): Int32
      reads this
    {
      value
    }
  }

  class PcntHost {
    const base: ObjMsgHost
    const sampleIntervalMs: int
    var units: map<string, PcntUnit>
    var anyChangeEvents: bool

    /** `PcntHost(transport, origin, sampleIntervalMs)`; the change-event
        flag, which the code leaves uninitialised, starts false. */
    constructor (transport: ObjMsgTransport, origin: UInt16, sampleIntervalMs: int)
      ensures base.transport == transport && base.originId == origin && base.tag == "PcntHost"
      ensures this.sampleIntervalMs == sampleIntervalMs && units == map[] && !anyChangeEvents
    {
      base := new ObjMsgHost(transport, "PcntHost", origin);
      this.sampleIntervalMs := sampleIntervalMs;
      units := map[];
      anyChangeEvents := false;
    }

    /** `Add(name, inputA, inputB, et, mode, lowLimit, highLimit)`: a new
        unit under `name`, the name registered for int payloads, and the
        unit's configuration. */
    method Add(factory: F.ObjMsgDataFactory, name: string, inputA: int, inputB: int, et: EncoderType,
               mode: ObjMsgSample, lowLimit: int, highLimit: int) returns (unit: PcntUnit, conf: UnitConf)
      modifies this, factory
      ensures fresh(unit) && units == old(units)[name := unit]
      ensures unit.name == name && unit.mode == mode && unit.changed == 0 && unit.value == 0
      ensures anyChangeEvents == (old(anyChangeEvents) || mode == ChangeEvent)
      ensures factory.dataClasses == F.Register(old(factory.dataClasses), name, IntClass).0
      ensures conf == UnitConfig(inputA, inputB, et, lowLimit, highLimit)
    {
      unit := new PcntUnit(name, mode);
      units := units[name := unit];
      if mode == ChangeEvent {
        anyChangeEvents := true;
      }
      var _ := factory.RegisterClass(base.originId, name, IntClass);
      var chanA := ChannelConf(inputA, inputB, if et != Single then Decrease else EdgeHold, Increase, Keep, Inverse);
      var chanB: ChannelConf;
      if et == Quad {
        chanB := ChannelConf(inputB, inputA, Increase, Decrease, Keep, Inverse);
      } else {
        chanB := ChannelConf(inputB, inputA, EdgeHold, EdgeHold, LevelHold, LevelHold);
      }
      conf := UnitConf(lowLimit, highLimit, MAX_GLITCH_NS, chanA, chanB);
    }

    /** `Measure(unit)`, `count` being the hardware's count: the value is
        updated only on a change, and `changed` says which way it went. */
    method MeasureUnit(unit: PcntUnit, count: Int32) returns (v: Int32)
      modifies unit
      ensures (unit.value as int, unit.changed) == Sense(old(unit.value), count)
      ensures v == unit.value
    {
      if count != unit.value {
        unit.changed := if count > unit.value then 1 else -1;
        unit.value := count;
      } else {
        unit.changed := 0;
      }
      v := unit.value;
    }

    /** `Measure(name)`: the unit's count, or INT_MIN for a name that is
        not a unit. */
    method Measure(name: string, count: Int32) returns (v: Int32)
      modifies if name in units then {units[name]} else {}
      ensures name !in units ==> v == INT_MIN
      ensures name in units ==> v == count && units[name].value == count
      ensures name in units ==> (units[name].value as int, units[name].changed) == Sense(old(units[name].value), count)
    {
      if name in units {
        v := MeasureUnit(units[name], count);
      } else {
        v := INT_MIN;
      }
    }

    /** One pass of the input task over `unit`: a change-event unit is
        measured and published when its count changed. */
    method SampleUnit(unit: PcntUnit, count: Int32) returns (data: ObjMsgData?)
      requires base.transport.Valid()
      modifies unit, base.transport, base.transport.buf
      ensures base.transport.Valid()
      ensures unit.mode != ChangeEvent ==> data == null && unit.value == old(unit.value) && unit.changed == old(unit.changed)
      ensures unit.mode == ChangeEvent ==> (unit.value as int, unit.changed) == Sense(old(unit.value), count)
      ensures data != null <==> unit.mode == ChangeEvent && Publishes(unit.changed)
      ensures data != null ==> fresh(data) && data.origin == base.originId && data.name == unit.name
                               && data.value == IntValue(unit.value)
      ensures base.transport.Contents
              == if data != null then Enqueue(old(base.transport.Contents), base.transport.depth, data).0
                 else old(base.transport.Contents)
    {
      data := null;
      if unit.mode == ChangeEvent {
        var _ := MeasureUnit(unit, count);
        if unit.changed != 0 {
          data := new ObjMsgData(base.originId, unit.name, IntValue(unit.value));
          var _ := base.Produce(data);
        }
      }
    }
  }

  // --------------------------------------------------------------- lemmas

  /** A forward cycle counts up and a backward cycle down, by one, two or
      four according to the encoder type, whatever the pins and limits. */
  lemma {:induction false} CyclesCount(inputA: int, inputB: int, et: EncoderType, lowLimit: int, highLimit: int)
    ensures Count(UnitConfig(inputA, inputB, et, lowLimit, highLimit), Forward) == PerCycle(et)
    ensures Count(UnitConfig(inputA, inputB, et, lowLimit, highLimit), Backward) == -PerCycle(et)
  {
    var u := UnitConfig(inputA, inputB, et, lowLimit, highLimit);
    CountOfFour(u, Forward);
    CountOfFour(u, Backward);
  }

  /** The count of four edges, edge by edge. */
  lemma CountOfFour(u: UnitConf, es: seq<PinEdge>)
    requires |es| == 4
    ensures Count(u, es) == EdgeCount(u, es[0]) + EdgeCount(u, es[1]) + EdgeCount(u, es[2]) + EdgeCount(u, es[3])
  {
    assert es[..3][..2] == es[..2];
    assert es[..2][..1] == es[..1];
    assert es[..1][..0] == [];
    assert Count(u, es[..1]) == EdgeCount(u, es[0]);
    assert Count(u, es[..2]) == Count(u, es[..1]) + EdgeCount(u, es[1]);
    assert Count(u, es[..3]) == Count(u, es[..2]) + EdgeCount(u, es[2]);
  }

  /** Counting a sequence of edges is additive. */
  lemma {:induction false} CountAppend(u: UnitConf, xs: seq<PinEdge>, ys: seq<PinEdge>)
    ensures Count(u, xs + ys) == Count(u, xs) + Count(u, ys)
    decreases |ys|
  {
    if ys == [] {
      assert xs + ys == xs;
    } else {
      assert (xs + ys)[..|xs + ys| - 1] == xs + ys[..|ys| - 1];
      CountAppend(u, xs, ys[..|ys| - 1]);
    }
  }

  /** A forward cycle followed by a backward one leaves the count where it
      was. */
  lemma ForwardThenBack(inputA: int, inputB: int, et: EncoderType, lowLimit: int, highLimit: int)
    ensures Count(UnitConfig(inputA, inputB, et, lowLimit, highLimit), Forward + Backward) == 0
  {
    CountAppend(UnitConfig(inputA, inputB, et, lowLimit, highLimit), Forward, Backward);
    CyclesCount(inputA, inputB, et, lowLimit, highLimit);
  }

  /** As written, a count going back to zero is a change the task does not
      publish. */
  lemma ReturnToZeroUnpublished()
    ensures Sense(1, 0) == (0, -1)
    ensures !PublishesAsWritten(Sense(1, 0).0, Sense(1, 0).1)
    ensures Publishes(Sense(1, 0).1)
  {
  }

  /** The two rules agree except on a count of zero. */
  lemma PublishesAgree(value: int, changed: int)
    ensures value != 0 ==> (PublishesAsWritten(value, changed) <==> Publishes(changed))
    ensures PublishesAsWritten(value, changed) ==> Publishes(changed)
  {
  }
}
