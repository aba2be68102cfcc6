/** The older generation of the registry and the transport, declared in
    `ObjMsg.h` and `ObjMsg.cpp`. The registry keeps the same map and the
    same registration and lookup; its deserializer has no fallback, so a
    record whose name is not registered gives NULL. The transport is the
    same queue under lower-case names. */
module Legacy {
  import opened CInt
  import opened Json
  import opened Payload
  import F = Factory
  import T = Transport

  /** `deserialize(origin, json)`:
      - text that does not parse, or a record without a "name" item: NULL;
      - a registered name: the class's default payload populated from the
        whole record, or NULL when that fails;
      - an unregistered name: NULL, after the lookup left a NULL entry.
      A "name" that is not a string gives NULL here (see
      `DeserializeAsWritten`). */
  function DeserializeSpec(reg: F.Registry, origin: UInt16, text: string): (r: (F.Registry, F.Delivered))
    ensures !F.Named(text) ==> r == (reg, F.Null)
    ensures F.Named(text) ==> r.0 == F.Lookup(reg, F.RecordName(text)).0
    ensures r.1.Delivered? ==> r.1.origin == origin && F.Named(text) && r.1.name == F.RecordName(text)
                               && F.Lookup(reg, F.RecordName(text)).1.Some?
  {
    match Parse(text)
    case None => (reg, F.Null)
    case Some(root) =>
      match F.NameItem(root)
      case None => (reg, F.Null)
      case Some(jsonName) =>
        match GetStringValue(jsonName)
        case None => (reg, F.Null)
        case Some(name) =>
          var (reg1, fn) := F.Lookup(reg, name);
          match fn
          case None => (reg1, F.Null)
          case Some(c) =>
            var p := Populate(DefaultValue(c), Some(root));
            (reg1, if p.ok then F.Delivered(origin, name, p.value) else F.Null)
  }

  /** `deserialize` as written: a "name" that is not a string hands a NULL
      `char*` to `create`, which builds a `std::string` from it; a
      registered class's population may itself be undefined. */
  function DeserializeAsWritten(reg: F.Registry, origin: UInt16, text: string): (r: Outcome<(F.Registry, F.Delivered)>)
    ensures r.Defined? ==> r.value == DeserializeSpec(reg, origin, text)
  {
    match Parse(text)
    case None => Defined(DeserializeSpec(reg, origin, text))
    case Some(root) =>
      match F.NameItem(root)
      case None => Defined(DeserializeSpec(reg, origin, text))
      case Some(jsonName) =>
        match GetStringValue(jsonName)
        case None => Undefined
        case Some(name) =>
          match F.Lookup(reg, name).1
          case Some(c) =>
            if PopulateAsWritten(DefaultValue(c), Some(root)).Undefined? then Undefined
            else Defined(DeserializeSpec(reg, origin, text))
          case None => Defined(DeserializeSpec(reg, origin, text))
  }

  /** The older payload registry. */
  class ObjMsgDataFactory {
    var dataClasses: F.Registry

    constructor ()
      ensures dataClasses == map[]
    {
      dataClasses := map[];
    }

    /** `registerClass(origin, name, fn)`; the origin plays no part. */
    method RegisterClass(origin: UInt16, name: string, fn: PayloadClass) returns (ok: bool)
      modifies this
      ensures (dataClasses, ok) == F.Register(old(dataClasses), name, fn)
    {
      ok := name !in dataClasses;
      if ok {
        dataClasses := dataClasses[name := Some(fn)];
      }
    }

    /** `create(origin, name)`: the registered class's two-argument
        `Create`, or NULL. */
    method Create(origin: UInt16, name: string) returns (data: ObjMsgData?)
      modifies this
      ensures dataClasses == F.Lookup(old(dataClasses), name).0
      ensures data == null <==> F.Lookup(old(dataClasses), name).1.None?
      ensures data != null ==> fresh(data) && data.origin == origin && data.name == name
                               && data.value == DefaultValue(F.Lookup(old(dataClasses), name).1.value)
    {
      if name !in dataClasses {
        dataClasses := dataClasses[name := None];
      }
      var fn := dataClasses[name];
      if fn.Some? {
        data := ObjMsgData.Create(fn.value, origin, name);
      } else {
        data := null;
      }
    }

    /** `deserialize(origin, json)`. */
    method Deserialize(origin: UInt16, json: string) returns (data: ObjMsgData?)
      modifies this
      ensures dataClasses == DeserializeSpec(old(dataClasses), origin, json).0
      ensures data == null <==> DeserializeSpec(old(dataClasses), origin, json).1.Null?
      ensures data != null ==> fresh(data)
                               && F.Delivered(data.origin, data.name, data.value) == DeserializeSpec(old(dataClasses), origin, json).1
    {
      var root := Parse(json);
      if root.None? {
        return null;
      }
      var jsonName := F.NameItem(root.value);
      if jsonName.None? {
        return null;
      }
      var name := GetStringValue(jsonName.value);
      if name.None? {
        return null;
      }
      data := Create(origin, name.value);
      if data != null {
        var ok := data.DeserializeValue(root);
        if !ok {
          data := null;
        }
      }
    }
  }

  /** The older transport: the same zero-wait queue of envelopes. */
  class ObjMsgTransport {
    const queue: T.ObjMsgTransport

    ghost predicate Valid()
      reads this, queue, queue.buf
    {
      queue.Valid()
    }

    /** `ObjMsgTransport(message_queue_depth)`. */
    constructor (depth: UInt16)
      requires depth > 0
      ensures Valid() && fresh(queue) && fresh(queue.buf)
      ensures queue.depth == depth && queue.Contents == []
    {
      queue := new T.ObjMsgTransport(depth);
    }

    /** `send(data)`. */
    method Send(data: ObjMsgData?) returns (ok: bool)
      requires Valid()
      modifies queue, queue.buf
      ensures Valid()
      ensures (queue.Contents, ok) == T.Enqueue(old(queue.Contents), queue.depth, data)
    {
      ok := queue.Send(data);
    }

    /** `receive(data, ticks)` once the wait has run out. */
    method Receive(data: ObjMsgData?) returns (ok: bool, received: ObjMsgData?)
      requires Valid()
      modifies queue
      ensures Valid()
      ensures (queue.Contents, ok, received) == T.Dequeue(old(queue.Contents), data)
    {
      ok, received := queue.Receive(data);
    }
  }

  /** The older host base: a tag, an origin id, and the older transport it
      publishes on. */
  class ObjMsgHost {
    const transport: ObjMsgTransport
    const tag: string
    const originId: UInt16

    /** `ObjMsgHost(transport, tag, origin)`. */
    constructor (transport: ObjMsgTransport, tag: string, origin: UInt16)
      ensures this.transport == transport && this.tag == tag && originId == origin
    {
      this.transport := transport;
      this.tag := tag;
      originId := origin;
    }

    /** The default `consume`: nothing is accepted. */
    method Consume(data: ObjMsgData?) returns (accepted: bool)
      ensures !accepted
    {
      accepted := false;
    }

    /** `produce(data)`: the transport's `send`, with its effect and
        result. */
    method Produce(data: ObjMsgData?) returns (ok: bool)
      requires transport.Valid()
      modifies transport.queue, transport.queue.buf
      ensures transport.Valid()
      ensures (transport.queue.Contents, ok) == T.Enqueue(old(transport.queue.Contents), transport.queue.depth, data)
    {
      ok := transport.Send(data);
    }
  }

  // --------------------------------------------------------------- lemmas

  /** The two generations agree on every text except a record whose
      string name is not registered: there the older one gives NULL, the
      newer one a string payload when the record has a "value" item. Both
      leave the same registry. */
  lemma AgreesWithNewer(reg: F.Registry, origin: UInt16, text: string)
    ensures DeserializeSpec(reg, origin, text).0 == F.DeserializeSpec(reg, origin, text).0
    ensures !F.Named(text) || F.Lookup(reg, F.RecordName(text)).1.Some?
            ==> DeserializeSpec(reg, origin, text) == F.DeserializeSpec(reg, origin, text)
    ensures F.Named(text) && F.Lookup(reg, F.RecordName(text)).1.None?
            ==> DeserializeSpec(reg, origin, text).1.Null?
                && (F.DeserializeSpec(reg, origin, text).1.Delivered?
                    <==> GetItem(Parse(text).value, "value", false).Some?)
  {
  }

  /** A payload of a registered class comes back from the older
      deserializer exactly as from the newer one. */
  lemma DeserializeSerialized(reg: F.Registry, origin: UInt16, name: string, v: Value)
    requires Plain(name) && Printable(v) && name in reg && reg[name] == Some(ClassOf(v))
    requires v.StringValue? ==> !v.asJson
    ensures !v.JsonValue? ==> DeserializeSpec(reg, origin, Serialize(name, v)) == (reg, F.Delivered(origin, name, v))
    ensures v.JsonValue? ==> DeserializeSpec(reg, origin, Serialize(name, v))
                             == (reg, F.Delivered(origin, name, JsonValue(Some(RecordJson(name, ValueJson(v))))))
  {
    F.DeserializeSerialized(reg, origin, name, v);
    ParseSerialized(name, v);
    F.RecordNamed(name, ValueJson(v));
    AgreesWithNewer(reg, origin, Serialize(name, v));
  }

  /** No fallback: a payload whose name is not registered gives NULL, and
      the name is left with a NULL entry. */
  lemma DeserializeUnregistered(reg: F.Registry, origin: UInt16, name: string, v: Value)
    requires Plain(name) && Printable(v) && name !in reg
    ensures DeserializeSpec(reg, origin, Serialize(name, v)) == (reg[name := None], F.Null)
  {
    ParseSerialized(name, v);
    F.RecordNamed(name, ValueJson(v));
  }

  /** A record whose name is a number hands a NULL `char*` to `create`. */
  lemma NameNotString(reg: F.Registry, origin: UInt16, n: int, m: int)
    ensures DeserializeAsWritten(reg, origin, F.NumberNamed(n, m)).Undefined?
    ensures DeserializeSpec(reg, origin, F.NumberNamed(n, m)) == (reg, F.Null)
  {
    F.ParseNumberNamed(n, m);
  }

  /** The older factory also reads a printed record for a registered int
      class through `valueint`, and drops it for an unregistered name. */
  lemma DeserializeIntRecord(reg: F.Registry, origin: UInt16, name: string, val: Json)
    requires NoNul(name) && Wf(val) && name in reg && reg[name] == Some(IntClass)
    ensures DeserializeSpec(reg, origin, Print(RecordJson(name, val)))
         == (reg, F.Delivered(origin, name, IntValue(ValueInt(val))))
  {
    F.ParsePrintedRecord(name, val);
    F.RecordValue(name, val);
  }

  lemma DeserializePrintedUnregistered(reg: F.Registry, origin: UInt16, name: string, val: Json)
    requires NoNul(name) && Wf(val) && name !in reg
    ensures DeserializeSpec(reg, origin, Print(RecordJson(name, val))) == (reg[name := None], F.Null)
  {
    F.ParsePrintedRecord(name, val);
  }
}
