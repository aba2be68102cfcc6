/** The payload registry (`ObjMsgDataFactory`): endpoint names mapped to the
    payload class whose `Create` builds them, and the deserializer that
    turns a record text into a populated payload of the registered class,
    or into an opaque string payload carrying the record's "value" as JSON
    text when the name is not registered. */
module Factory {
  import opened CInt
  import opened Json
  import opened Payload

  /** `dataClasses`: a name maps to its registered class, or to NULL when
      only a lookup (`operator[]`) put the name there. */
  type Registry = map<string, Option<PayloadClass>>

  /** `RegisterClass`: `insert` keeps an existing entry and reports whether
      it added one. */
  function Register(reg: Registry, name: string, c: PayloadClass): (r: (Registry, bool))
    ensures r.1 <==> name !in reg
    ensures r.0.Keys == reg.Keys + {name}
    ensures r.0[name] == if name in reg then reg[name] else Some(c)
    ensures forall n :: n in reg ==> r.0[n] == reg[n]
  {
    if name in reg then (reg, false) else (reg[name := Some(c)], true)
  }

  /** Registering each name of `entries` with its class, in order. */
  function RegisterEach(reg: Registry, entries: seq<(string, PayloadClass)>): Registry
    decreases |entries|
  {
    if entries == [] then reg
    else
      var last := entries[|entries| - 1];
      Register(RegisterEach(reg, entries[..|entries| - 1]), last.0, last.1).0
  }

  /** One more registration extends the sequence by one entry. */
  lemma RegisterEachSnoc(reg: Registry, entries: seq<(string, PayloadClass)>, name: string, c: PayloadClass)
    ensures RegisterEach(reg, entries + [(name, c)]) == Register(RegisterEach(reg, entries), name, c).0
  {
    assert (entries + [(name, c)])[..|entries|] == entries;
  }

  /** `dataClasses[name]`: the entry, inserting a NULL one for an unknown
      name. */
  function Lookup(reg: Registry, name: string): (r: (Registry, Option<PayloadClass>))
    ensures r.0.Keys == reg.Keys + {name}
    ensures name in reg ==> r == (reg, reg[name])
    ensures name !in reg ==> r.1.None? && r.0 == reg[name := None]
  {
    if name in reg then (reg, reg[name]) else (reg[name := None], None)
  }

  /** What `Deserialize` returns: NULL, or a new payload. */
  datatype Delivered = Null | Delivered(origin: UInt16, name: string, value: Value)

  /** The record's case-sensitive "name" item. */
  function NameItem(root: Json): Option<Json> {
    GetItem(root, "name", true)
  }

  /** A record the deserializer reaches a class lookup for: it parses and
      has a "name" item that is a string. */
  predicate Named(text: string) {
    Parse(text).Some? && NameItem(Parse(text).value).Some?
    && NameItem(Parse(text).value).value.JString?
  }

  function RecordName(text: string): string
    requires Named(text)
  {
    NameItem(Parse(text).value).value.s
  }

  /** `Deserialize(origin, json)`:
      - text that does not parse, or a record without a "name" item: NULL;
      - a registered name: the class's default payload populated from the
        whole record, or NULL when that fails;
      - an unregistered name: a string payload flagged as JSON holding
        the printed "value" item (the lookup leaves a NULL entry).
      A "name" that is not a string, and an unregistered record without a
      "value" item, give NULL here (see `DeserializeAsWritten`). */
  function DeserializeSpec(reg: Registry, origin: UInt16, text: string): (r: (Registry, Delivered))
    ensures !Named(text) ==> r == (reg, Null)
    ensures Named(text) ==> r.0 == Lookup(reg, RecordName(text)).0
    ensures r.1.Delivered? ==> r.1.origin == origin && Named(text) && r.1.name == RecordName(text)
  {
    match Parse(text)
    case None => (reg, Null)
    case Some(root) =>
      match NameItem(root)
      case None => (reg, Null)
      case Some(jsonName) =>
        match GetStringValue(jsonName)
        case None => (reg, Null)
        case Some(name) =>
          var (reg1, fn) := Lookup(reg, name);
          match fn
          case Some(c) =>
            var p := Populate(DefaultValue(c), Some(root));
            (reg1, if p.ok then Delivered(origin, name, p.value) else Null)
          case None =>
            match GetItem(root, "value", false)
            case None => (reg1, Null)
            case Some(v) => (reg1, Delivered(origin, name, StringValue(Print(v), true)))
  }

  /** `Deserialize` as written:
      - a "name" that is not a string gives a NULL `char*` to `Create`;
      - an unregistered record without "value" gives `cJSON_Print(NULL)`,
        a NULL `char*`, to the string payload;
      - a registered class's `DeserializeValue` may itself be undefined. */
  function DeserializeAsWritten(reg: Registry, origin: UInt16, text: string): (r: Outcome<(Registry, Delivered)>)
    ensures r.Defined? ==> r.value == DeserializeSpec(reg, origin, text)
  {
    match Parse(text)
    case None => Defined(DeserializeSpec(reg, origin, text))
    case Some(root) =>
      match NameItem(root)
      case None => Defined(DeserializeSpec(reg, origin, text))
      case Some(jsonName) =>
        match GetStringValue(jsonName)
        case None => Undefined
        case Some(name) =>
          match Lookup(reg, name).1
          case Some(c) =>
            if PopulateAsWritten(DefaultValue(c), Some(root)).Undefined? then Undefined
            else Defined(DeserializeSpec(reg, origin, text))
          case None =>
            if GetItem(root, "value", false).None? then Undefined
            else Defined(DeserializeSpec(reg, origin, text))
  }

  /** The payload registry. */
  class ObjMsgDataFactory {
    var dataClasses: Registry

    constructor ()
      ensures dataClasses == map[]
    {
      dataClasses := map[];
    }

    /** `RegisterClass(origin, name, fn)`; the origin plays no part. */
    method RegisterClass(origin: UInt16, name: string, fn: PayloadClass) returns (ok: bool)
      modifies this
      ensures (dataClasses, ok) == Register(old(dataClasses), name, fn)
    {
      ok := name !in dataClasses;
      if ok {
        dataClasses := dataClasses[name := Some(fn)];
      }
    }

    /** `Create(origin, name)`: the registered class's two-argument
        `Create`, or NULL. */
    method Create(origin: UInt16, name: string) returns (data: ObjMsgData?)
      modifies this
      ensures dataClasses == Lookup(old(dataClasses), name).0
      ensures data == null <==> Lookup(old(dataClasses), name).1.None?
      ensures data != null ==> fresh(data) && data.origin == origin && data.name == name
                               && data.value == DefaultValue(Lookup(old(dataClasses), name).1.value)
    {
      if name !in dataClasses {
        dataClasses := dataClasses[name := None];
      }
      var fn := dataClasses[name];
      if fn.Some? {
        data := ObjMsgData.Create(fn.value, origin, name);
      } else {
        data := null;
      }
    }

    method Deserialize(origin: UInt16, json: string) returns (data: ObjMsgData?)
      modifies this
      ensures dataClasses == DeserializeSpec(old(dataClasses), origin, json).0
      ensures data == null <==> DeserializeSpec(old(dataClasses), origin, json).1.Null?
      ensures data != null ==> fresh(data)
                               && Delivered(data.origin, data.name, data.value) == DeserializeSpec(old(dataClasses), origin, json).1
    {
      var root := Parse(json);
      if root.None? {
        return null;
      }
      var jsonName := NameItem(root.value);
      if jsonName.None? {
        return null;
      }
      var name := GetStringValue(jsonName.value);
      if name.None? {
        return null;
      }
      data := Create(origin, name.value);
      if data != null {
        var ok := data.DeserializeValue(root);
        if !ok {
          data := null;
        }
      } else {
        var v := GetItem(root.value, "value", false);
        if v.Some? {
          data := new ObjMsgData(origin, name.value, StringValue(Print(v.value), true));
        }
      }
    }
  }

  // --------------------------------------------------------------- lemmas

  /** The first registration of a name wins: a second one reports failure
      and the name keeps its first class. */
  lemma RegisterFirstWins(reg: Registry, name: string, c1: PayloadClass, c2: PayloadClass)
    requires name !in reg
    ensures Register(reg, name, c1).1
    ensures Register(Register(reg, name, c1).0, name, c2) == (Register(reg, name, c1).0, false)
    ensures Lookup(Register(reg, name, c1).0, name).1 == Some(c1)
  {
  }

  /** Creating an unregistered name yields NULL and leaves a NULL entry, so
      registering the name afterwards fails and it stays unregistered. */
  lemma CreateBlocksRegister(reg: Registry, name: string, c: PayloadClass)
    requires name !in reg
    ensures Lookup(reg, name).1.None?
    ensures !Register(Lookup(reg, name).0, name, c).1
    ensures Lookup(Register(Lookup(reg, name).0, name, c).0, name).1.None?
  {
  }

  /** The parsed record of a serialized payload names it. */
  lemma RecordNamed(name: string, vj: Json)
    ensures NameItem(RecordJson(name, vj)) == Some(JString(name))
  {
  }

  /** A payload of a registered class, serialized and deserialized with
      any origin, comes back with that origin, its name and its value
      (a JSON payload comes back holding the whole record). */
  lemma DeserializeSerialized(reg: Registry, origin: UInt16, name: string, v: Value)
    requires Plain(name) && Printable(v) && name in reg && reg[name] == Some(ClassOf(v))
    requires v.StringValue? ==> !v.asJson
    ensures !v.JsonValue? ==> DeserializeSpec(reg, origin, Serialize(name, v)) == (reg, Delivered(origin, name, v))
    ensures v.JsonValue? ==> DeserializeSpec(reg, origin, Serialize(name, v))
                             == (reg, Delivered(origin, name, JsonValue(Some(RecordJson(name, ValueJson(v))))))
  {
    ParseSerialized(name, v);
    RecordNamed(name, ValueJson(v));
    SerializeRoundTrip(name, v, DefaultValue(ClassOf(v)));
  }

  /** A payload whose name is not registered is delivered as a string
      payload flagged as JSON, holding its value printed by cJSON; the
      name now has a NULL entry. */
  lemma DeserializeUnregistered(reg: Registry, origin: UInt16, name: string, v: Value)
    requires Plain(name) && Printable(v) && name !in reg
    ensures DeserializeSpec(reg, origin, Serialize(name, v))
         == (reg[name := None], Delivered(origin, name, StringValue(Print(ValueJson(v)), true)))
  {
    var rec := RecordJson(name, ValueJson(v));
    ParseSerialized(name, v);
    RecordNamed(name, ValueJson(v));
    assert GetItem(rec, "value", false) == Some(ValueJson(v)) by {
      KeysDiffer("name", "value", 0);
      FindMemberSkip(rec.members[0], [rec.members[1]], "value", false);
    }
  }

  /** ` { "name":N, "value":M }`, a record whose name is a number. */
  function NumberNamed(n: int, m: int): string {
    " {" + IntField("name", n, "," + IntField("value", m, " }"))
  }

  lemma ParseNumberNamed(n: int, m: int)
    ensures Parse(NumberNamed(n, m)) == Some(JObject([Member("name", JNumber(n, 0)), Member("value", JNumber(m, 0))]))
  {
    var t2 := IntField("value", m, " }");
    var m1, m2 := Member("name", JNumber(n, 0)), Member("value", JNumber(m, 0));
    assert ParseMembers(t2) == Some(([m2], "")) by {
      assert " }" + "" == " }";
      ParseIntFieldClose("value", m, "");
    }
    assert ParseMembers(IntField("name", n, "," + t2)) == Some(([m1] + [m2], "")) by {
      ParseIntFieldComma("name", n, t2);
    }
    assert ParseValue(NumberNamed(n, m)) == Some((JObject([m1, m2]), "")) by {
      assert [m1] + [m2] == [m1, m2];
      ParseSpaceBrace("name", n, "," + t2);
    }
  }

  /** A record whose name is a number, such as ` { "name":1, "value":2 }`,
      hands a NULL `char*` to `Create`. */
  lemma NameNotString(reg: Registry, origin: UInt16, n: int, m: int)
    ensures DeserializeAsWritten(reg, origin, NumberNamed(n, m)).Undefined?
    ensures DeserializeSpec(reg, origin, NumberNamed(n, m)) == (reg, Null)
  {
    ParseNumberNamed(n, m);
  }

  /** `{"name":"u"}` with "u" unregistered: the fallback prints a missing
      "value" item, and cJSON prints NULL as a NULL `char*`. */
  lemma UnregisteredWithoutValue(reg: Registry, origin: UInt16)
    requires "u" !in reg
    ensures Parse("{\"name\":\"u\"}") == Some(JObject([Member("name", JString("u"))]))
    ensures DeserializeAsWritten(reg, origin, "{\"name\":\"u\"}").Undefined?
    ensures DeserializeSpec(reg, origin, "{\"name\":\"u\"}") == (reg["u" := None], Null)
  {
    ParseNameOnly();
  }

  lemma ParseNameOnly()
    ensures Parse("{\"name\":\"u\"}") == Some(JObject([Member("name", JString("u"))]))
  {
    var m1s := "\"" + ("name" + ("\":" + ("\"" + ("u" + ("\"" + "}")))));
    assert "{\"name\":\"u\"}" == "{" + m1s;
    assert ParseMember(m1s) == Some((Member("name", JString("u")), "}")) by {
      ParseValueString("u", "}");
      assert "" + m1s == m1s;
      ParseMemberText("", "name", "\"" + ("u" + ("\"" + "}")), JString("u"), "}");
    }
    assert SkipWs("}") == "}" + "";
    ParseMembersClose(m1s, Member("name", JString("u")), "}", "");
    ParseValueBrace(m1s);
    ParseObjectMembers(m1s);
  }

  // ------------------------------------------------------ printed records

  /** A record as any sender's cJSON prints it parses back to itself. */
  lemma ParsePrintedRecord(name: string, val: Json)
    requires NoNul(name) && Wf(val)
    ensures Parse(Print(RecordJson(name, val))) == Some(RecordJson(name, val))
    ensures Named(Print(RecordJson(name, val))) && RecordName(Print(RecordJson(name, val))) == name
  {
    var rec := RecordJson(name, val);
    assert Wf(rec);
    ParsePrint(rec);
    RecordNamed(name, val);
  }

  lemma RecordValue(name: string, val: Json)
    ensures ValueField(Some(RecordJson(name, val))) == Some(val)
  {
    var rec := RecordJson(name, val);
    KeysDiffer("name", "value", 0);
    FindMemberSkip(rec.members[0], [rec.members[1]], "value", false);
  }

  /** A printed record for a name registered as an int class delivers the
      value's `valueint`: a number truncated toward zero and saturated,
      `true` as 1, and 0 for anything else. */
  lemma DeserializeIntRecord(reg: Registry, origin: UInt16, name: string, val: Json)
    requires NoNul(name) && Wf(val) && name in reg && reg[name] == Some(IntClass)
    ensures DeserializeSpec(reg, origin, Print(RecordJson(name, val)))
         == (reg, Delivered(origin, name, IntValue(ValueInt(val))))
  {
    ParsePrintedRecord(name, val);
    RecordValue(name, val);
  }

  /** A printed record for a name registered as a string class delivers
      the string, escapes decoded, or nothing when the value is not a
      string. */
  lemma DeserializeStringRecord(reg: Registry, origin: UInt16, name: string, val: Json)
    requires NoNul(name) && Wf(val) && name in reg && reg[name] == Some(StringClass)
    ensures val.JString? ==> DeserializeSpec(reg, origin, Print(RecordJson(name, val)))
                             == (reg, Delivered(origin, name, StringValue(val.s, false)))
    ensures !val.JString? ==> DeserializeSpec(reg, origin, Print(RecordJson(name, val))) == (reg, Null)
  {
    ParsePrintedRecord(name, val);
    RecordValue(name, val);
  }

  /** A printed record whose name is not registered arrives as a string
      payload flagged as JSON, holding the value printed again. */
  lemma DeserializePrintedUnregistered(reg: Registry, origin: UInt16, name: string, val: Json)
    requires NoNul(name) && Wf(val) && name !in reg
    ensures DeserializeSpec(reg, origin, Print(RecordJson(name, val)))
         == (reg[name := None], Delivered(origin, name, StringValue(Print(val), true)))
  {
    ParsePrintedRecord(name, val);
    RecordValue(name, val);
  }

  /** Values `Serialize` never writes: `2.6` and `-2.6` arrive in an int
      payload as 2 and -2, `true` as 1, `false` as 0, and 5e10 saturates
      to `INT_MAX`. */
  lemma DeserializeIntExamples(reg: Registry, origin: UInt16)
    requires "adc" in reg && reg["adc"] == Some(IntClass)
    ensures DeserializeSpec(reg, origin, Print(RecordJson("adc", JNumber(26, -1)))).1 == Delivered(origin, "adc", IntValue(2))
    ensures DeserializeSpec(reg, origin, Print(RecordJson("adc", JNumber(-26, -1)))).1 == Delivered(origin, "adc", IntValue(-2))
    ensures DeserializeSpec(reg, origin, Print(RecordJson("adc", JBool(true)))).1 == Delivered(origin, "adc", IntValue(1))
    ensures DeserializeSpec(reg, origin, Print(RecordJson("adc", JBool(false)))).1 == Delivered(origin, "adc", IntValue(0))
    ensures DeserializeSpec(reg, origin, Print(RecordJson("adc", JNumber(50000000000, 0)))).1 == Delivered(origin, "adc", IntValue(INT_MAX))
  {
    assert Whole(26, 1) == 2;
    DeserializeIntRecord(reg, origin, "adc", JNumber(26, -1));
    DeserializeIntRecord(reg, origin, "adc", JNumber(-26, -1));
    DeserializeIntRecord(reg, origin, "adc", JBool(true));
    DeserializeIntRecord(reg, origin, "adc", JBool(false));
    DeserializeIntRecord(reg, origin, "adc", JNumber(50000000000, 0));
  }
}
