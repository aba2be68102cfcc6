/** The payload objects of the messaging layer (`ObjMsgData` and its typed
    subclasses): an origin, an endpoint name and a typed value, with the
    record text `{"name":"<name>", "value":<value>}` each class writes and
    the way each class repopulates its value from a parsed record. */
module Payload {
  import opened CInt
  import opened Decimal
  import opened Json
  import J3 = Joystick3AxisData
  import J2 = ObjMsgJoystickData

  /** The concrete payload classes; a registry maps names to these (their
      two-argument `Create` functions). */
  datatype PayloadClass =
    | IntClass        // ObjMsgDataInt
    | StringClass     // ObjMsgDataString
    | JsonClass       // ObjMsgDataJson
    | Joystick3Class  // Joystick3AxisData
    | JoystickClass   // ObjMsgJoystickData

  /** The typed value of a payload. A string payload also carries its
      `asJson` flag; a JSON payload holds a tree or NULL. */
  datatype Value =
    | IntValue(i: Int32)
    | StringValue(s: string, asJson: bool)
    | JsonValue(json: Option<Json>)
    | Joystick3Value(j3: J3.Sample)
    | JoystickValue(j2: J2.Sample)

  function ClassOf(v: Value): PayloadClass {
    match v
    case IntValue(_) => IntClass
    case StringValue(_, _) => StringClass
    case JsonValue(_) => JsonClass
    case Joystick3Value(_) => Joystick3Class
    case JoystickValue(_) => JoystickClass
  }

  // ------------------------------------------------------------- GetValue

  /** `GetValue(int&)`: only an int payload has an integer form. */
  function GetInt(v: Value): (r: Option<Int32>)
    ensures r.Some? <==> v.IntValue?
    ensures v.IntValue? ==> r.value == v.i
  {
    if v.IntValue? then Some(v.i) else None
  }

  /** `GetValue(double&)`: the int converted; no other class has one. */
  function GetDouble(v: Value): (r: Option<real>)
    ensures r.Some? <==> v.IntValue?
    ensures v.IntValue? ==> r.value == v.i as real
  {
    if v.IntValue? then Some(v.i as real) else None
  }

  /** `GetValue(string&)`: every value has a string form except a JSON
      payload holding NULL. The formatted forms fit the buffers the code
      formats them into (32 bytes for an int, 80 for a joystick sample). */
  function GetString(v: Value): (r: Option<string>)
    ensures r.None? <==> v == JsonValue(None)
    ensures v.IntValue? ==> r.value == IntToString(v.i) && |r.value| < 32
    ensures v.StringValue? ==> r.value == v.s
    ensures v.JsonValue? && v.json.Some? ==> r.value == Print(v.json.value)
    ensures v.Joystick3Value? ==> r.value == J3.Text(v.j3) && |r.value| < 80
    ensures v.JoystickValue? ==> r.value == J2.Text(v.j2) && |r.value| < 80
  {
    match v
    case IntValue(i) => IntToStringLength(i); Some(IntToString(i))
    case StringValue(s, _) => Some(s)
    case JsonValue(j) => if j.Some? then Some(Print(j.value)) else None
    case Joystick3Value(s) => Some(J3.Text(s))
    case JoystickValue(s) => Some(J2.Text(s))
  }

  // ------------------------------------------------------------- Create

  /** The value the two-argument `Create` gives each class. The joystick
      classes leave their sample uninitialised; the model starts it at
      zero. */
  function DefaultValue(c: PayloadClass): (v: Value)
    ensures ClassOf(v) == c
    ensures c == IntClass ==> GetInt(v) == Some(0) && GetString(v) == Some("0")
    ensures c == StringClass ==> GetString(v) == Some("") && !v.asJson && GetInt(v).None?
    ensures c == JsonClass ==> GetString(v).None? && GetInt(v).None?
  {
    match c
    case IntClass => IntValue(0)
    case StringClass => StringValue("", false)
    case JsonClass => JsonValue(None)
    case Joystick3Class => Joystick3Value(J3.Zero)
    case JoystickClass => JoystickValue(J2.Zero)
  }

  // ------------------------------------------------------------ Serialize

  /** `{"name":"<name>", "value":<val><close>`, the text every `Serialize`
      builds. */
  function RecordText(name: string, val: string, close: string): string {
    "{\"name\":\"" + (name + ("\", \"value\":" + (val + close)))
  }

  /** The parsed form of a record. */
  function RecordJson(name: string, val: Json): Json {
    JObject([Member("name", JString(name)), Member("value", val)])
  }

  /** The value part of the record text: the string form of the value,
      quoted for a string payload not flagged as JSON. A JSON payload
      holding NULL is printed as `null` here (see `SerializeAsWritten`). */
  function ValueText(v: Value): (t: string)
    ensures v.StringValue? && v.asJson ==> t == v.s
    ensures v.StringValue? && !v.asJson ==> t == "\"" + (v.s + "\"")
    ensures !v.StringValue? && v != JsonValue(None) ==> t == GetString(v).value
  {
    match v
    case StringValue(s, asJson) => if asJson then s else "\"" + (s + "\"")
    case JsonValue(j) => if j.Some? then Print(j.value) else "null"
    case _ => GetString(v).value
  }

  /** The int, joystick and base-template versions close the record with
      `}`; the string and JSON versions with ` }`. */
  function Closing(v: Value): (c: string)
    ensures c == "}" || c == " }"
  {
    if v.StringValue? || v.JsonValue? then " }" else "}"
  }

  /** `Serialize`. */
  function Serialize(name: string, v: Value): string {
    RecordText(name, ValueText(v), Closing(v))
  }

  /** `ObjMsgDataJson::Serialize` as written appends `cJSON_Print(value)`,
      which is NULL for a payload holding no JSON. */
  function SerializeAsWritten(name: string, v: Value): (r: Outcome<string>)
    ensures r.Defined? <==> v != JsonValue(None)
    ensures r.Defined? ==> r.value == Serialize(name, v)
  {
    if v == JsonValue(None) then Undefined else Defined(Serialize(name, v))
  }

  // ------------------------------------------------------ DeserializeValue

  datatype Populated = Populated(ok: bool, value: Value)

  /** The case-insensitive "value" item of a record. */
  function ValueField(record: Option<Json>): Option<Json> {
    if record.None? then None else GetItem(record.value, "value", false)
  }

  /** `DeserializeValue(json)`: the success flag and the new value.
      - int: the "value" item's valueint, if the item exists;
      - string: the "value" item's text, if the item exists and is a
        string (see `PopulateAsWritten` for other items);
      - JSON: the whole record, whatever it is; success iff non-NULL;
      - joystick: the fields of the case-sensitive "value" object, if all
        exist (see `PopulateAsWritten`).
      A failure leaves the value of every class but JSON unchanged. */
  function Populate(v: Value, record: Option<Json>): (r: Populated)
    ensures ClassOf(r.value) == ClassOf(v)
    ensures !r.ok && !v.JsonValue? ==> r.value == v
    ensures v.IntValue? ==> (r.ok <==> ValueField(record).Some?)
    ensures v.IntValue? && r.ok ==> r.value.i == ValueInt(ValueField(record).value)
    ensures v.StringValue? ==> (r.ok <==> ValueField(record).Some? && ValueField(record).value.JString?)
    ensures v.StringValue? && r.ok ==> r.value == StringValue(ValueField(record).value.s, v.asJson)
    ensures v.JsonValue? ==> r.ok == record.Some? && r.value.json == record
    ensures v.Joystick3Value? ==> (r.ok <==> J3.Read(record).Some?) && (r.ok ==> r.value.j3 == J3.Read(record).value)
    ensures v.JoystickValue? ==> (r.ok <==> J2.Read(record).Some?) && (r.ok ==> r.value.j2 == J2.Read(record).value)
  {
    match v
    case IntValue(_) =>
      (match ValueField(record)
       case None => Populated(false, v)
       case Some(item) => Populated(true, IntValue(ValueInt(item))))
    case StringValue(_, asJson) =>
      (match ValueField(record)
       case Some(JString(s)) => Populated(true, StringValue(s, asJson))
       case _ => Populated(false, v))
    case JsonValue(_) => Populated(record.Some?, JsonValue(record))
    case Joystick3Value(_) =>
      (match J3.Read(record)
       case None => Populated(false, v)
       case Some(s) => Populated(true, Joystick3Value(s)))
    case JoystickValue(_) =>
      (match J2.Read(record)
       case None => Populated(false, v)
       case Some(s) => Populated(true, JoystickValue(s)))
  }

  /** `DeserializeValue` as written: a string payload copies the item's
      `valuestring`, NULL for an item that is not a string, and the joystick
      payloads dereference the field lookups unchecked. */
  function PopulateAsWritten(v: Value, record: Option<Json>): (r: Outcome<Populated>)
    ensures r.Undefined? <==>
              (v.StringValue? && ValueField(record).Some? && !ValueField(record).value.JString?)
              || (v.Joystick3Value? && J3.Read(record).None?)
              || (v.JoystickValue? && J2.Read(record).None?)
    ensures r.Defined? ==> r.value == Populate(v, record)
  {
    if v.StringValue? && ValueField(record).Some? && !ValueField(record).value.JString? then Undefined
    else if v.Joystick3Value? && J3.ReadAsWritten(record).Undefined? then Undefined
    else if v.JoystickValue? && J2.ReadAsWritten(record).Undefined? then Undefined
    else Defined(Populate(v, record))
  }

  /** A payload: `origin` and `name` are fixed at construction; `value` is
      what `DeserializeValue` replaces. */
  class ObjMsgData {
    const origin: UInt16
    const name: string
    var value: Value

    /** Each class's `Create(origin, name, value)` (a string payload with
        its `asJson` flag). */
    constructor (origin: UInt16, name: string, value: Value)
      ensures this.origin == origin && this.name == name && this.value == value
      ensures GetOrigin() == origin && GetName() == name && IsFromOrigin(origin)
    {
      this.origin := origin;
      this.name := name;
      this.value := value;
    }

    /** The two-argument `Create` of class `c`. */
    static method Create(c: PayloadClass, origin: UInt16, name: string) returns (d: ObjMsgData)
      ensures fresh(d) && d.origin == origin && d.name == name && d.value == DefaultValue(c)
      ensures d.GetOrigin() == origin && d.GetName() == name
    {
      d := new ObjMsgData(origin, name, DefaultValue(c));
    }

    function GetOrigin(): UInt16 {
      origin
    }

    function GetName(): string {
      name
    }

    /** `IsFrom(int16_t)`: the stored uint16_t origin and the int16_t
        argument are compared as ints. */
    predicate IsFrom(o: Int16) {
      origin == o
    }

    /** The comparison with the argument taken as the uint16_t origin it
        stands for. */
    predicate IsFromOrigin(o: UInt16) {
      origin == o
    }

    method DeserializeValue(record: Option<Json>) returns (ok: bool)
      modifies this
      ensures Populated(ok, value) == Populate(old(value), record)
    {
      var r := Populate(value, record);
      ok := r.ok;
      value := r.value;
    }
  }

  // --------------------------------------------------------------- lemmas

  /** Values whose record text the model parses back: plain strings (not
      flagged as JSON) and plain JSON trees. */
  predicate Printable(v: Value) {
    match v
    case StringValue(s, asJson) => Plain(s) && !asJson
    case JsonValue(j) => j.Some? ==> Wf(j.value)
    case _ => true
  }

  /** The JSON the "value" member of a serialized record holds. */
  function ValueJson(v: Value): Json
    requires Printable(v)
  {
    match v
    case IntValue(i) => JNumber(i, 0)
    case StringValue(s, _) => JString(s)
    case JsonValue(j) => if j.Some? then j.value else JNull
    case Joystick3Value(s) => J3.AsJson(s)
    case JoystickValue(s) => J2.AsJson(s)
  }

  /** The "value" member of a record text, then its closing. */
  lemma ParseRecordValue(val: string, vj: Json, close: string)
    requires close == "}" || close == " }"
    requires ParseValue(val + close) == Some((vj, close))
    ensures ParseMembers(" " + ("\"" + ("value" + ("\":" + (val + close)))))
         == Some(([Member("value", vj)], ""))
  {
    var m2s := " " + ("\"" + ("value" + ("\":" + (val + close))));
    assert ParseMember(m2s) == Some((Member("value", vj), close)) by {
      ParseMemberText(" ", "value", val + close, vj, close);
    }
    assert SkipWs(close) == "}" + "" by {
      if close == " }" { SkipWsPrefix(" ", "}"); }
    }
    ParseMembersClose(m2s, Member("value", vj), close, "");
  }

  /** The "name" member of a record text, then a comma and more. */
  lemma ParseRecordName(name: string, more: string)
    requires Plain(name)
    ensures ParseMembers("\"" + ("name" + ("\":" + ("\"" + (name + ("\"" + ("," + more)))))))
         == match ParseMembers(more)
            case None => None
            case Some((ms, r)) => Some(([Member("name", JString(name))] + ms, r))
  {
    var m1s := "\"" + ("name" + ("\":" + ("\"" + (name + ("\"" + ("," + more))))));
    assert ParseMember(m1s) == Some((Member("name", JString(name)), "," + more)) by {
      ParseValueString(name, "," + more);
      assert "" + m1s == m1s;
      ParseMemberText("", "name", "\"" + (name + ("\"" + ("," + more))), JString(name), "," + more);
    }
    ParseMembersComma(m1s, Member("name", JString(name)), "," + more, more);
  }

  /** The record text cut at the places the parser reads it. */
  lemma RecordTextSplit(name: string, tail: string)
    ensures "{\"name\":\"" + (name + ("\", \"value\":" + tail))
         == "{" + ("\"" + ("name" + ("\":" + ("\"" + (name + ("\"" + ("," + (" " + ("\"" + ("value" + ("\":" + tail)))))))))))
  {
    var m2s := " " + ("\"" + ("value" + ("\":" + tail)));
    assert "\", \"value\":" + tail == "\"" + ("," + m2s) by {
      assert "\", \"value\":" == "\"" + ("," + (" " + ("\"" + ("value" + "\":"))));
    }
    var m1t := name + ("\"" + ("," + m2s));
    assert "{\"name\":\"" + m1t == "{" + ("\"" + ("name" + ("\":" + ("\"" + m1t)))) by {
      assert "{\"name\":\"" == "{" + ("\"" + ("name" + ("\":" + "\"")));
    }
  }

  /** A record text parses to the record it spells, whenever its value
      text parses to `vj` and stops at the closing brace. */
  lemma ParseRecord(name: string, val: string, vj: Json, close: string)
    requires Plain(name) && (close == "}" || close == " }")
    requires ParseValue(val + close) == Some((vj, close))
    ensures Parse(RecordText(name, val, close)) == Some(RecordJson(name, vj))
  {
    var m2s := " " + ("\"" + ("value" + ("\":" + (val + close))));
    var m1s := "\"" + ("name" + ("\":" + ("\"" + (name + ("\"" + ("," + m2s))))));
    RecordTextSplit(name, val + close);
    assert ParseMembers(m1s) == Some((RecordJson(name, vj).members, "")) by {
      ParseRecordValue(val, vj, close);
      ParseRecordName(name, m2s);
      assert [Member("name", JString(name))] + [Member("value", vj)] == RecordJson(name, vj).members;
    }
    assert ParseValue("{" + m1s) == Some((RecordJson(name, vj), "")) by {
      ParseValueBrace(m1s);
      ParseObjectMembers(m1s);
    }
  }

  /** The value text of each class, followed by its closing, parses to the
      value's JSON. */
  lemma ParseValueText(v: Value)
    requires Printable(v)
    ensures ParseValue(ValueText(v) + Closing(v)) == Some((ValueJson(v), Closing(v)))
  {
    var close := Closing(v);
    assert Ends(close);
    match v
    case IntValue(i) => ParseValueNumber(i, close);
    case StringValue(s, _) =>
      assert ValueText(v) + close == "\"" + (s + ("\"" + close));
      ParseValueString(s, close);
    case JsonValue(j) =>
      if j.Some? { ParsePrinted(j.value, close); } else { ParseValueNull(close); }
    case Joystick3Value(s) => J3.ParseText(s, close);
    case JoystickValue(s) => J2.ParseText(s, close);
  }

  /** `Serialize` produces JSON: parsing the record gives the name and the
      value's JSON. */
  lemma ParseSerialized(name: string, v: Value)
    requires Plain(name) && Printable(v)
    ensures Parse(Serialize(name, v)) == Some(RecordJson(name, ValueJson(v)))
  {
    ParseValueText(v);
    ParseRecord(name, ValueText(v), ValueJson(v), Closing(v));
  }

  /** Serialize then DeserializeValue into any payload of the same class
      restores the value (a JSON payload instead adopts the whole record,
      whose "value" member is the tree it held). */
  lemma SerializeRoundTrip(name: string, v: Value, w: Value)
    requires Plain(name) && Printable(v) && ClassOf(w) == ClassOf(v)
    requires v.StringValue? ==> w.asJson == v.asJson
    ensures !v.JsonValue? ==> Populate(w, Parse(Serialize(name, v))) == Populated(true, v)
    ensures v.JsonValue? ==> Populate(w, Parse(Serialize(name, v))) == Populated(true, JsonValue(Some(RecordJson(name, ValueJson(v)))))
  {
    ParseSerialized(name, v);
    var rec := RecordJson(name, ValueJson(v));
    assert GetItem(rec, "value", true) == Some(ValueJson(v)) by {
      KeysDiffer("name", "value", 0);
      FindMemberSkip(rec.members[0], [rec.members[1]], "value", true);
    }
    assert GetItem(rec, "value", false) == Some(ValueJson(v)) by {
      KeysDiffer("name", "value", 0);
      FindMemberSkip(rec.members[0], [rec.members[1]], "value", false);
    }
    match v
    case Joystick3Value(s) => J3.ReadAsJson(s, rec);
    case JoystickValue(s) => J2.ReadAsJson(s, rec);
    case _ =>
  }

  /** An int or string payload given a record without a "value" member
      fails and keeps its value. */
  lemma PopulateWithoutValue(v: Value, record: Json)
    requires v.IntValue? || v.StringValue?
    requires record.JObject? ==> forall i :: 0 <= i < |record.members| ==> !KeyMatches(record.members[i].key, "value", false)
    ensures Populate(v, Some(record)) == Populated(false, v)
  {
    if record.JObject? {
      FindMemberFirst(record.members, "value", false);
    }
  }

  /** A string payload given the record `{"name":"s","value":1}` copies a
      NULL `valuestring`. */
  lemma PopulateStringFromNumber()
    ensures Parse(RecordText("s", "1", "}")) == Some(RecordJson("s", JNumber(1, 0)))
    ensures PopulateAsWritten(DefaultValue(StringClass), Parse(RecordText("s", "1", "}"))) == Undefined
    ensures Populate(DefaultValue(StringClass), Parse(RecordText("s", "1", "}"))) == Populated(false, DefaultValue(StringClass))
  {
    ParseValueNumber(1, "}");
    ParseRecord("s", "1", JNumber(1, 0), "}");
    var rec := RecordJson("s", JNumber(1, 0));
    assert GetItem(rec, "value", false) == Some(JNumber(1, 0)) by {
      KeysDiffer("name", "value", 0);
      FindMemberSkip(rec.members[0], [rec.members[1]], "value", false);
    }
  }

  /** A joystick payload given a record whose "value" is an empty object
      reads fields that are not there. */
  lemma PopulateJoystickFromEmpty()
    ensures Parse(RecordText("j", "{\n}", "}")) == Some(RecordJson("j", JObject([])))
    ensures PopulateAsWritten(DefaultValue(Joystick3Class), Parse(RecordText("j", "{\n}", "}"))) == Undefined
    ensures PopulateAsWritten(DefaultValue(JoystickClass), Parse(RecordText("j", "{\n}", "}"))) == Undefined
  {
    assert Print(JObject([])) == "{\n}";
    ParsePrinted(JObject([]), "}");
    ParseRecord("j", "{\n}", JObject([]), "}");
    var rec := RecordJson("j", JObject([]));
    assert GetItem(rec, "value", true) == Some(JObject([])) by {
      KeysDiffer("name", "value", 0);
      FindMemberSkip(rec.members[0], [rec.members[1]], "value", true);
    }
  }

  /** `ObjMsgDataJson::Serialize` of a payload holding NULL. */
  lemma SerializeNullJson(name: string)
    ensures SerializeAsWritten(name, DefaultValue(JsonClass)) == Undefined
    ensures Serialize(name, DefaultValue(JsonClass)) == RecordText(name, "null", " }")
  {
  }

  /** A payload from an origin above 32767 is never `IsFrom` any int16_t;
      in particular not from its own origin narrowed to int16_t. */
  lemma IsFromHighOrigin(d: ObjMsgData, o: Int16)
    requires d.origin >= 0x8000
    ensures !d.IsFrom(o) && !d.IsFrom(Wrap16(d.origin))
  {
  }

  /** Below 32768 `IsFrom` is the equality of origins; `IsFromOrigin` is
      that equality for every origin. */
  lemma IsFromOwnOrigin(d: ObjMsgData, o: UInt16)
    ensures d.IsFromOrigin(o) <==> d.origin == o
    ensures d.origin < 0x8000 ==> d.IsFrom(d.origin) && (d.IsFrom(Wrap16(o)) <==> d.IsFromOrigin(o))
  {
  }
}
