/** The three-axis joystick payload value (`Joystick3AxisSample_t`): its
    text form as `GetValue(string&)` formats it, and how `DeserializeValue`
    reads it back from a parsed record. */
module Joystick3AxisData {
  import opened CInt
  import opened Decimal
  import opened Json

  /** Joystick3AxisSample_t: four int16_t fields. */
  datatype Sample = Sample(x: Int16, y: Int16, z: Int16, up: Int16)

  /** The sample a payload built without an initial value starts from. */
  const Zero := Sample(0, 0, 0, 0)

  /** ` { "x":X, "y":Y, "z":Z, "up":U }`, with decimal fields. */
  function Text(v: Sample): (s: string)
    ensures |s| < 80
  {
    var s := " {" + IntField("x", v.x, "," + IntField("y", v.y, "," + IntField("z", v.z, "," + IntField("up", v.up, " }"))));
    IntToStringLength(v.x);
    IntToStringLength(v.y);
    IntToStringLength(v.z);
    IntToStringLength(v.up);
    s
  }

  /** The JSON object the text denotes. */
  function AsJson(v: Sample): Json {
    JObject([Member("x", JNumber(v.x, 0)), Member("y", JNumber(v.y, 0)),
             Member("z", JNumber(v.z, 0)), Member("up", JNumber(v.up, 0))])
  }

  /** `cJSON_GetObjectItem(item, key)->valueint` stored into an int16_t;
      nothing when the item or the field is missing. */
  function Field(item: Option<Json>, key: string): (r: Option<Int16>)
    ensures r.Some? <==> item.Some? && GetItem(item.value, key, false).Some?
  {
    if item.None? then None
    else
      match GetItem(item.value, key, false)
      case None => None
      case Some(f) => Some(Wrap16(ValueInt(f)))
  }

  /** The case-sensitive "value" item of a record. */
  function ValueItem(record: Option<Json>): Option<Json> {
    if record.None? then None else GetItem(record.value, "value", true)
  }

  /** What `DeserializeValue` reads from a record: the four fields of its
      "value" object. Nothing when one of them is missing, where the code
      would dereference a null item. */
  function Read(record: Option<Json>): (r: Option<Sample>)
    ensures r.Some? <==> (Field(ValueItem(record), "x").Some? && Field(ValueItem(record), "y").Some?
                          && Field(ValueItem(record), "z").Some? && Field(ValueItem(record), "up").Some?)
    ensures r.Some? ==> r.value == Sample(Field(ValueItem(record), "x").value, Field(ValueItem(record), "y").value,
                                          Field(ValueItem(record), "z").value, Field(ValueItem(record), "up").value)
  {
    var item := ValueItem(record);
    match (Field(item, "x"), Field(item, "y"), Field(item, "z"), Field(item, "up"))
    case (Some(x), Some(y), Some(z), Some(up)) => Some(Sample(x, y, z, up))
    case _ => None
  }

  /** `DeserializeValue` as written: the fields are read through pointers
      that are null when a field is missing. */
  function ReadAsWritten(record: Option<Json>): (r: Outcome<Sample>)
    ensures r.Defined? <==> Read(record).Some?
  {
    match Read(record)
    case None => Undefined
    case Some(v) => Defined(v)
  }

  /** The text followed by more text, written as one right-nested chain. */
  lemma TextAppend(v: Sample, rest: string)
    ensures Text(v) + rest
         == " {" + IntField("x", v.x, "," + IntField("y", v.y, "," + IntField("z", v.z, "," + IntField("up", v.up, " }" + rest))))
  {
    var u0 := IntField("up", v.up, " }");
    var z0 := IntField("z", v.z, "," + u0);
    var y0 := IntField("y", v.y, "," + z0);
    var x0 := IntField("x", v.x, "," + y0);
    IntFieldAppend("up", v.up, " }", rest);
    Assoc(",", u0, rest);
    IntFieldAppend("z", v.z, "," + u0, rest);
    Assoc(",", z0, rest);
    IntFieldAppend("y", v.y, "," + z0, rest);
    Assoc(",", y0, rest);
    IntFieldAppend("x", v.x, "," + y0, rest);
    Assoc(" {", x0, rest);
  }

  /** The text parses back to exactly the object it renders, and the parser
      stops right after it. */
  lemma ParseText(v: Sample, rest: string)
    ensures ParseValue(Text(v) + rest) == Some((AsJson(v), rest))
  {
    var t2 := IntField("y", v.y, "," + IntField("z", v.z, "," + IntField("up", v.up, " }" + rest)));
    TextAppend(v, rest);
    ParseFields(v, rest);
    ParseSpaceBrace("x", v.x, "," + t2);
  }

  /** The four fields parse back to the object's members. */
  lemma ParseFields(v: Sample, rest: string)
    ensures ParseMembers(IntField("x", v.x, "," + IntField("y", v.y, "," + IntField("z", v.z, "," + IntField("up", v.up, " }" + rest)))))
         == Some((AsJson(v).members, rest))
  {
    var t3 := IntField("z", v.z, "," + IntField("up", v.up, " }" + rest));
    var t2 := IntField("y", v.y, "," + t3);
    var mx, my, mz, mu := Member("x", JNumber(v.x, 0)), Member("y", JNumber(v.y, 0)), Member("z", JNumber(v.z, 0)), Member("up", JNumber(v.up, 0));
    ParseLastFields(v, rest);
    ParseIntFieldComma("y", v.y, t3);
    ParseIntFieldComma("x", v.x, t2);
    Prepend2(mx, my, mz, mu);
  }

  /** The last two fields parse back to the last two members. */
  lemma ParseLastFields(v: Sample, rest: string)
    ensures ParseMembers(IntField("z", v.z, "," + IntField("up", v.up, " }" + rest)))
         == Some(([Member("z", JNumber(v.z, 0)), Member("up", JNumber(v.up, 0))], rest))
  {
    var mx, my, mz, mu := Member("x", JNumber(v.x, 0)), Member("y", JNumber(v.y, 0)), Member("z", JNumber(v.z, 0)), Member("up", JNumber(v.up, 0));
    ParseIntFieldClose("up", v.up, rest);
    ParseIntFieldComma("z", v.z, IntField("up", v.up, " }" + rest));
    Prepend2(mx, my, mz, mu);
  }

  /** Members put in front of a list one at a time. */
  lemma Prepend2(a: Member, b: Member, c: Member, d: Member)
    ensures [c] + [d] == [c, d]
    ensures [a] + ([b] + [c, d]) == [a, b, c, d]
  {
  }

  /** Reading the object back (as the "value" of a record) restores the
      sample: every field is found under its own key and fits the int16_t
      it came from. */
  lemma ReadAsJson(v: Sample, record: Json)
    requires GetItem(record, "value", true) == Some(AsJson(v))
    ensures Read(Some(record)) == Some(v)
  {
    var ms := AsJson(v).members;
    var mx, my, mz, mu := ms[0], ms[1], ms[2], ms[3];
    assert ms == [mx] + ([my] + ([mz] + [mu]));
    assert Field(Some(AsJson(v)), "x") == Some(v.x);
    assert Field(Some(AsJson(v)), "y") == Some(v.y) by {
      KeysDiffer("x", "y", 0);
      FindMemberSkip(mx, [my] + ([mz] + [mu]), "y", false);
    }
    assert Field(Some(AsJson(v)), "z") == Some(v.z) by {
      KeysDiffer("x", "z", 0);
      KeysDiffer("y", "z", 0);
      FindMemberSkip(mx, [my] + ([mz] + [mu]), "z", false);
      FindMemberSkip(my, [mz] + [mu], "z", false);
    }
    assert Field(Some(AsJson(v)), "up") == Some(v.up) by {
      KeysDiffer("x", "up", 0);
      KeysDiffer("y", "up", 0);
      KeysDiffer("z", "up", 0);
      FindMemberSkip(mx, [my] + ([mz] + [mu]), "up", false);
      FindMemberSkip(my, [mz] + [mu], "up", false);
      FindMemberSkip(mz, [mu], "up", false);
    }
  }
}
