/** The older two-axis joystick payload value (`joystick_sample_t`): its text
    form as `GetValue(string&)` formats it, and how `DeserializeValue` reads
    it back from a parsed record. */
module ObjMsgJoystickData {
  import opened CInt
  import opened Decimal
  import opened Json

  /** joystick_sample_t: three int16_t fields. */
  datatype Sample = Sample(x: Int16, y: Int16, up: Int16)

  /** The sample a payload built without an initial value starts from. */
  const Zero := Sample(0, 0, 0)

  /** ` { "x":X, "y":Y, "up":U }`, with decimal fields. */
  function Text(v: Sample): (s: string)
    ensures |s| < 80
  {
    var s := " {" + IntField("x", v.x, "," + IntField("y", v.y, "," + IntField("up", v.up, " }")));
    IntToStringLength(v.x);
    IntToStringLength(v.y);
    IntToStringLength(v.up);
    s
  }

  /** The JSON object the text denotes. */
  function AsJson(v: Sample): Json {
    JObject([Member("x", JNumber(v.x, 0)), Member("y", JNumber(v.y, 0)), Member("up", JNumber(v.up, 0))])
  }

  /** `cJSON_GetObjectItem(item, key)->valueint` stored into an int16_t;
      nothing when the item or the field is missing. */
  function Field(item: Option<Json>, key: string): (r: Option<Int16>)
    ensures r.Some? <==> item.Some? && GetItem(item.value, key, false).Some?
  {
    if item.None? then None
    else
      match GetItem(item.value, key, false)
      case None => None
      case Some(f) => Some(Wrap16(ValueInt(f)))
  }

  /** The case-sensitive "value" item of a record. */
  function ValueItem(record: Option<Json>): Option<Json> {
    if record.None? then None else GetItem(record.value, "value", true)
  }

  /** What `DeserializeValue` reads from a record: the three fields of its
      "value" object. Nothing when one of them is missing, where the code
      would dereference a null item. */
  function Read(record: Option<Json>): (r: Option<Sample>)
    ensures r.Some? <==> (Field(ValueItem(record), "x").Some? && Field(ValueItem(record), "y").Some?
                          && Field(ValueItem(record), "up").Some?)
    ensures r.Some? ==> r.value == Sample(Field(ValueItem(record), "x").value, Field(ValueItem(record), "y").value,
                                          Field(ValueItem(record), "up").value)
  {
    var item := ValueItem(record);
    match (Field(item, "x"), Field(item, "y"), Field(item, "up"))
    case (Some(x), Some(y), Some(up)) => Some(Sample(x, y, up))
    case _ => None
  }

  /** `DeserializeValue` as written: the fields are read through pointers
      that are null when a field is missing. */
  function ReadAsWritten(record: Option<Json>): (r: Outcome<Sample>)
    ensures r.Defined? <==> Read(record).Some?
  {
    match Read(record)
    case None => Undefined
    case Some(v) => Defined(v)
  }

  /** The text followed by more text, written as one right-nested chain. */
  lemma TextAppend(v: Sample, rest: string)
    ensures Text(v) + rest
         == " {" + IntField("x", v.x, "," + IntField("y", v.y, "," + IntField("up", v.up, " }" + rest)))
  {
    var u0 := IntField("up", v.up, " }");
    var y0 := IntField("y", v.y, "," + u0);
    var x0 := IntField("x", v.x, "," + y0);
    IntFieldAppend("up", v.up, " }", rest);
    Assoc(",", u0, rest);
    IntFieldAppend("y", v.y, "," + u0, rest);
    Assoc(",", y0, rest);
    IntFieldAppend("x", v.x, "," + y0, rest);
    Assoc(" {", x0, rest);
  }

  /** The text parses back to exactly the object it renders, and the parser
      stops right after it. */
  lemma ParseText(v: Sample, rest: string)
    ensures ParseValue(Text(v) + rest) == Some((AsJson(v), rest))
  {
    var t3 := IntField("up", v.up, " }" + rest);
    var t2 := IntField("y", v.y, "," + t3);
    var t1 := IntField("x", v.x, "," + t2);
    var mx, my, mu := Member("x", JNumber(v.x, 0)), Member("y", JNumber(v.y, 0)), Member("up", JNumber(v.up, 0));
    TextAppend(v, rest);
    assert ParseMembers(t3) == Some(([mu], rest)) by {
      ParseIntFieldClose("up", v.up, rest);
    }
    assert ParseMembers(t2) == Some(([my] + [mu], rest)) by {
      ParseIntFieldComma("y", v.y, t3);
    }
    assert ParseMembers(t1) == Some(([mx] + ([my] + [mu]), rest)) by {
      ParseIntFieldComma("x", v.x, t2);
    }
    assert [mx] + ([my] + [mu]) == AsJson(v).members;
    ParseSpaceBrace("x", v.x, "," + t2);
  }

  /** Reading the object back (as the "value" of a record) restores the
      sample: every field is found under its own key and fits the int16_t
      it came from. */
  lemma ReadAsJson(v: Sample, record: Json)
    requires GetItem(record, "value", true) == Some(AsJson(v))
    ensures Read(Some(record)) == Some(v)
  {
    var ms := AsJson(v).members;
    var mx, my, mu := ms[0], ms[1], ms[2];
    assert ms == [mx] + ([my] + [mu]);
    assert Field(Some(AsJson(v)), "x") == Some(v.x);
    assert Field(Some(AsJson(v)), "y") == Some(v.y) by {
      KeysDiffer("x", "y", 0);
      FindMemberSkip(mx, [my] + [mu], "y", false);
    }
    assert Field(Some(AsJson(v)), "up") == Some(v.up) by {
      KeysDiffer("x", "up", 0);
      KeysDiffer("y", "up", 0);
      FindMemberSkip(mx, [my] + [mu], "up", false);
      FindMemberSkip(my, [mu], "up", false);
    }
  }
}
