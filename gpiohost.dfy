/** The GPIO host: named digital ports configured by flag bits. Input
    ports report their level (inverted on request) and whether it rose or
    fell; output ports are driven from int payloads. The pin levels the
    hardware reports are parameters, and the configuration written to the
    hardware is an output. */
module GpioHost {
  import opened CInt
  import opened Payload
  import opened Transport
  import opened Host
  import F = Factory

  /** `GpioFlags`: configuration bits. */
  type GpioFlags = bv8

  const DEFAULT_GF: GpioFlags := 0x00
  const INVERTED_GF: GpioFlags := 0x01
  const POS_EVENT_GF: GpioFlags := 0x04
  const NEG_EVENT_GF: GpioFlags := 0x08
  const IS_INPUT_GF: GpioFlags := 0x10
  const PULLDOWN_GF: GpioFlags := 0x20
  const PULLUP_GF: GpioFlags := 0x40

  /** `flags & mask` is non-zero. */
  predicate Has(flags: GpioFlags, mask: GpioFlags) {
    flags & mask != 0
  }

  /** `operator|`: the flags set in either operand. */
  function Union(a: GpioFlags, b: GpioFlags): GpioFlags {
    a | b
  }

  /** A mask is in the union exactly when it meets either operand. */
  lemma UnionHas(a: GpioFlags, b: GpioFlags, m: GpioFlags)
    ensures Has(Union(a, b), m) <==> Has(a, m) || Has(b, m)
  {
    assert (a | b) & m == (a & m) | (b & m);
  }

  /** `gpio_int_type_t`: the interrupt edges, as bits. */
  type IntrType = bv8

  const GPIO_INTR_DISABLE: IntrType := 0
  const GPIO_INTR_POSEDGE: IntrType := 1
  const GPIO_INTR_NEGEDGE: IntrType := 2
  const GPIO_INTR_ANYEDGE: IntrType := 3

  /** The interrupt edges a port's flags ask for: an event on the
      positive level is the rising edge, or the falling one when the port
      is inverted; an event on the negative level the opposite edge. */
  function Edges(flags: GpioFlags): (edge: IntrType)
    ensures !Has(flags, POS_EVENT_GF) && !Has(flags, NEG_EVENT_GF) ==> edge == GPIO_INTR_DISABLE
    ensures Has(flags, POS_EVENT_GF) && Has(flags, NEG_EVENT_GF) ==> edge == GPIO_INTR_ANYEDGE
    ensures Has(flags, POS_EVENT_GF) && !Has(flags, NEG_EVENT_GF)
            ==> edge == if Has(flags, INVERTED_GF) then GPIO_INTR_NEGEDGE else GPIO_INTR_POSEDGE
    ensures !Has(flags, POS_EVENT_GF) && Has(flags, NEG_EVENT_GF)
            ==> edge == if Has(flags, INVERTED_GF) then GPIO_INTR_POSEDGE else GPIO_INTR_NEGEDGE
  {
    var inv := Has(flags, INVERTED_GF);
    var pos: IntrType := if Has(flags, POS_EVENT_GF) then (if inv then GPIO_INTR_NEGEDGE else GPIO_INTR_POSEDGE) else 0;
    var neg: IntrType := if Has(flags, NEG_EVENT_GF) then (if inv then GPIO_INTR_POSEDGE else GPIO_INTR_NEGEDGE) else 0;
    pos | neg
  }

  /** `EdgeConfig(flags)`: the edges accumulated one flag at a time. */
  method EdgeConfig(flags: GpioFlags) returns (edge: IntrType)
    ensures edge == Edges(flags)
  {
    edge := GPIO_INTR_DISABLE;
    if flags & POS_EVENT_GF != 0 {
      edge := edge | (if flags & INVERTED_GF != 0 then GPIO_INTR_NEGEDGE else GPIO_INTR_POSEDGE);
    }
    if flags & NEG_EVENT_GF != 0 {
      edge := edge | (if flags & INVERTED_GF != 0 then GPIO_INTR_POSEDGE else GPIO_INTR_NEGEDGE);
    }
  }

  datatype GpioMode = Input | Output

  /** The `gpio_config_t` a port is configured with. */
  datatype IoConf = IoConf(mode: GpioMode, intrType: IntrType, pin: int, pullDown: bool, pullUp: bool)

  /** An input port gets the edges its flags ask for, an output port no
      interrupt; the pulls follow their flags. */
  function PortConf(pin: int, flags: GpioFlags): (c: IoConf)
    ensures c.mode == Input <==> Has(flags, IS_INPUT_GF)
    ensures c.intrType == if Has(flags, IS_INPUT_GF) then Edges(flags) else GPIO_INTR_DISABLE
    ensures c.pullDown <==> Has(flags, PULLDOWN_GF)
    ensures c.pullUp <==> Has(flags, PULLUP_GF)
    ensures c.pin == pin
  {
    IoConf(if Has(flags, IS_INPUT_GF) then Input else Output,
           if Has(flags, IS_INPUT_GF) then Edges(flags) else GPIO_INTR_DISABLE,
           pin, Has(flags, PULLDOWN_GF), Has(flags, PULLUP_GF))
  }

  /** The level a port reads: the pin's level, inverted when the port is. */
  function Level(flags: GpioFlags, high: bool): (l: int)
    ensures l == 0 || l == 1
    ensures l == 1 <==> (high != Has(flags, INVERTED_GF))
  {
    var level := if high then 1 else 0;
    if Has(flags, INVERTED_GF) then (if level == 0 then 1 else 0) else level
  }

  /** The input task's rule: publish on a change, and on every interrupt
      of a port that does not listen to both edges. */
  predicate Publishes(changed: int, flags: GpioFlags) {
    changed != 0 || flags & (POS_EVENT_GF | NEG_EVENT_GF) != POS_EVENT_GF | NEG_EVENT_GF
  }

  /** The level `Consume` drives an output port to: the payload's level,
      negated (`!level`) when the port is inverted. */
  function DriveLevel(flags: GpioFlags, level: int): int {
    if Has(flags, INVERTED_GF) then (if level == 0 then 1 else 0) else level
  }

  /** A port of the host (`GpioPort`). Its value, which the code leaves
      uninitialised, starts at zero. */
  class GpioPort {
    const name: string
    const pin: int
    const mode: ObjMsgSample
    const flags: GpioFlags
    var changed: int
    var value: int

    constructor (name: string, pin: int, mode: ObjMsgSample, flags: GpioFlags)
      ensures this.name == name && this.pin == pin && this.mode == mode && this.flags == flags
      ensures changed == 0 && value == 0
    {
      this.name := name;
      this.pin := pin;
      this.mode := mode;
      this.flags := flags;
      changed := 0;
      value := 0;
    }

    function GetValue(): int
      reads this
    {
      value
    }
  }

  class GpioHost {
    const base: ObjMsgHost
    var ports: map<string, GpioPort>
    var anyChangeEvents: bool

    /** `GpioHost(transport, origin)`; the change-event flag, which the code
        leaves uninitialised, starts false. */
    constructor (transport: ObjMsgTransport, origin: UInt16)
      ensures base.transport == transport && base.originId == origin && base.tag == "GpioHost"
      ensures ports == map[] && !anyChangeEvents
    {
      base := new ObjMsgHost(transport, "GpioHost", origin);
      ports := map[];
      anyChangeEvents := false;
    }

    /** `Add(name, pin, mode, flags)`: a new port under `name`, the name
        registered for int payloads, and the port's configuration. */
    method Add(factory: F.ObjMsgDataFactory, name: string, pin: int, mode: ObjMsgSample, flags: GpioFlags)
      returns (port: GpioPort, conf: IoConf)
      modifies this, factory
      ensures fresh(port) && ports == old(ports)[name := port]
      ensures port.name == name && port.pin == pin && port.mode == mode && port.flags == flags
      ensures port.changed == 0 && port.value == 0
      ensures anyChangeEvents == (old(anyChangeEvents) || mode == ChangeEvent)
      ensures factory.dataClasses == F.Register(old(factory.dataClasses), name, IntClass).0
      ensures conf == PortConf(pin, flags)
    {
      port := new GpioPort(name, pin, mode, flags);
      ports := ports[name := port];
      if mode == ChangeEvent {
        anyChangeEvents := true;
      }
      var _ := factory.RegisterClass(base.originId, name, IntClass);
      var ioMode: GpioMode;
      var intr: IntrType;
      if flags & IS_INPUT_GF != 0 {
        ioMode := Input;
        intr := EdgeConfig(flags);
      } else {
        ioMode := Output;
        intr := GPIO_INTR_DISABLE;
      }
      conf := IoConf(ioMode, intr, pin, flags & PULLDOWN_GF != 0, flags & PULLUP_GF != 0);
    }

    /** `Consume(data)`: an output port named by the payload is driven to
        the payload's int level; nothing else is driven. Always false. */
    method Consume(data: ObjMsgData) returns (accepted: bool, drive: Option<(int, int)>)
      ensures !accepted
      ensures drive.Some? <==> data.name in ports && GetInt(data.value).Some? && !Has(ports[data.name].flags, IS_INPUT_GF)
      ensures drive.Some? ==> drive.value == (ports[data.name].pin, DriveLevel(ports[data.name].flags, GetInt(data.value).value))
    {
      accepted := false;
      drive := None;
      if data.GetName() in ports {
        var port := ports[data.GetName()];
        var level := GetInt(data.value);
        if level.Some? {
          if port.flags & IS_INPUT_GF == 0 {
            var l := level.value;
            if port.flags & INVERTED_GF != 0 {
              l := if l == 0 then 1 else 0;
            }
            drive := Some((port.pin, l));
          }
        }
      }
    }

    /** `Measure(port)`, `high` being the pin's level: the value is updated
        only on a change, and `changed` says which way it went. */
    method MeasurePort(port: GpioPort, high: bool) returns (on: bool)
      modifies port
      ensures (port.value, port.changed) == Sense(old(port.value), Level(port.flags, high))
      ensures on <==> port.value != 0
    {
      var level := if high then 1 else 0;
      if port.flags & INVERTED_GF != 0 {
        level := if level == 0 then 1 else 0;
      }
      if level != port.value {
        port.changed := if level > port.value then 1 else -1;
        port.value := level;
      } else {
        port.changed := 0;
      }
      on := port.value != 0;
    }

    /** `Measure(name)`: the port's level as 0 or 1, or INT_MIN for a name
        that is not a port. */
    method Measure(name: string, high: bool) returns (v: int)
      modifies if name in ports then {ports[name]} else {}
      ensures name !in ports ==> v == INT_MIN
      ensures name in ports ==> v == Level(ports[name].flags, high) && ports[name].value == v
      ensures name in ports ==> (ports[name].value, ports[name].changed) == Sense(old(ports[name].value), v)
    {
      if name in ports {
        var on := MeasurePort(ports[name], high);
        v := if on then 1 else 0;
      } else {
        v := INT_MIN;
      }
    }

    /** The input task's handling of one interrupt from `port`. */
    method OnInterrupt(port: GpioPort, high: bool) returns (data: ObjMsgData?)
      requires base.transport.Valid()
      modifies port, base.transport, base.transport.buf
      ensures base.transport.Valid()
      ensures (port.value, port.changed) == Sense(old(port.value), Level(port.flags, high))
      ensures data != null <==> Publishes(port.changed, port.flags)
      ensures data != null ==> fresh(data) && data.origin == base.originId && data.name == port.name
                               && data.value == IntValue(port.value)
      ensures base.transport.Contents
              == if data != null then Enqueue(old(base.transport.Contents), base.transport.depth, data).0
                 else old(base.transport.Contents)
    {
      var _ := MeasurePort(port, high);
      data := null;
      if port.changed != 0 || port.flags & (POS_EVENT_GF | NEG_EVENT_GF) != POS_EVENT_GF | NEG_EVENT_GF {
        data := new ObjMsgData(base.originId, port.name, IntValue(port.value));
        var _ := base.Produce(data);
      }
    }
  }

  // --------------------------------------------------------------- lemmas

  /** Reading the same level twice: the second reading reports no change. */
  lemma SenseTwice(value: int, level: int)
    ensures Sense(Sense(value, level).0, level) == (level, 0)
  {
  }

  /** A port that listens to both edges publishes only on a change; one
      that listens to a single edge, or none, publishes on every interrupt. */
  lemma PublishesBothEdges(changed: int, flags: GpioFlags)
    ensures Has(flags, POS_EVENT_GF) && Has(flags, NEG_EVENT_GF) ==> (Publishes(changed, flags) <==> changed != 0)
    ensures !(Has(flags, POS_EVENT_GF) && Has(flags, NEG_EVENT_GF)) ==> Publishes(changed, flags)
  {
  }

  /** A port inverted for an active-low switch reads 1 when the pin is low. */
  lemma InvertedReadsLow()
    ensures Level(Union(IS_INPUT_GF, Union(PULLUP_GF, INVERTED_GF)), false) == 1
    ensures PortConf(0, Union(IS_INPUT_GF, PULLUP_GF)) == IoConf(Input, GPIO_INTR_DISABLE, 0, false, true)
  {
  }

  /** An output driven to a logical level by `Consume` reads back as that
      level through the same flags; an inverted port drives the opposite
      pin level, and any non-zero level counts as on. */
  lemma DriveLevelReadsBack(flags: GpioFlags, level: int)
    ensures Has(flags, INVERTED_GF) ==> (DriveLevel(flags, level) == 1 <==> level == 0)
    ensures (level == 0 || level == 1) ==> Level(flags, DriveLevel(flags, level) == 1) == level
  {
  }
}
