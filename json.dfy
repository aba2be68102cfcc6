/** The part of cJSON the messaging layer relies on: a JSON value (null,
    booleans, numbers, strings, arrays and objects); `cJSON_Parse` (leading
    white space skipped, trailing text ignored); `cJSON_Print` in its
    formatted layout; and the item lookups `cJSON_GetObjectItem`
    (case-insensitive), `cJSON_GetObjectItemCaseSensitive`, `->valueint`,
    `cJSON_GetNumberValue` and `cJSON_GetStringValue`. A number is held as
    the exact decimal it was written as, `mant` times ten to the `exp`. */
module Json {
  import opened CInt
  import opened Decimal

  datatype Json =
    | JNull
    | JBool(b: bool)
    | JNumber(mant: int, exp: int)
    | JString(s: string)
    | JArray(items: seq<Json>)
    | JObject(members: seq<Member>)

  datatype Member = Member(key: string, val: Json)

  /** cJSON skips every character up to and including the space. */
  predicate IsWs(c: char) {
    c <= ' '
  }

  predicate AllWs(s: string) {
    forall i :: 0 <= i < |s| ==> IsWs(s[i])
  }

  /** Text a quoted string can hold as it is: no quote and no backslash. */
  predicate Plain(s: string) {
    forall i :: 0 <= i < |s| ==> s[i] != '"' && s[i] != '\\'
  }

  /** Text `cJSON_Print` copies unchanged: plain and free of control
      characters. */
  predicate Verbatim(s: string) {
    forall i :: 0 <= i < |s| ==> s[i] != '"' && s[i] != '\\' && s[i] >= ' '
  }

  /** A C string: no NUL inside. */
  predicate NoNul(s: string) {
    forall i :: 0 <= i < |s| ==> s[i] != '\0'
  }

  /** The trees the parser produces and the printer reproduces: strings and
      keys are C strings, and a number is an integer (`exp == 0`) or has
      its fraction digits counted in a negative `exp`. */
  predicate Wf(j: Json)
    decreases j
  {
    match j
    case JNumber(_, e) => e <= 0
    case JString(s) => NoNul(s)
    case JArray(items) => forall i :: 0 <= i < |items| ==> Wf(items[i])
    case JObject(ms) => forall i :: 0 <= i < |ms| ==> NoNul(ms[i].key) && Wf(ms[i].val)
    case _ => true
  }

  // ---------------------------------------------------------------- lookup

  function ToLower(c: char): (r: char)
    ensures 'A' <= c <= 'Z' ==> r as int == c as int + 32
    ensures !('A' <= c <= 'Z') ==> r == c
  {
    if 'A' <= c <= 'Z' then (c as int + 32) as char else c
  }

  predicate KeyMatches(key: string, name: string, caseSensitive: bool) {
    if caseSensitive then key == name
    else |key| == |name| && forall i :: 0 <= i < |key| ==> ToLower(key[i]) == ToLower(name[i])
  }

  /** The first member of an object whose key matches `name`; nothing for a
      value that is not an object (array elements have no key). */
  function GetItem(j: Json, name: string, caseSensitive: bool): (r: Option<Json>)
    ensures r.Some? ==> j.JObject?
  {
    if j.JObject? then FindMember(j.members, name, caseSensitive) else None
  }

  function FindMember(ms: seq<Member>, name: string, caseSensitive: bool): Option<Json> {
    if ms == [] then None
    else if KeyMatches(ms[0].key, name, caseSensitive) then Some(ms[0].val)
    else FindMember(ms[1..], name, caseSensitive)
  }

  /** Lookup finds a member exactly when some key matches, and then it finds
      the value of the first such member. */
  lemma {:induction false} FindMemberFirst(ms: seq<Member>, name: string, caseSensitive: bool)
    ensures FindMember(ms, name, caseSensitive).Some? <==> exists i :: 0 <= i < |ms| && KeyMatches(ms[i].key, name, caseSensitive)
    ensures FindMember(ms, name, caseSensitive).Some? ==>
              exists i :: 0 <= i < |ms| && KeyMatches(ms[i].key, name, caseSensitive)
                       && FindMember(ms, name, caseSensitive).value == ms[i].val
                       && forall k :: 0 <= k < i ==> !KeyMatches(ms[k].key, name, caseSensitive)
    decreases |ms|
  {
    if ms != [] && !KeyMatches(ms[0].key, name, caseSensitive) {
      var r := FindMember(ms[1..], name, caseSensitive);
      FindMemberFirst(ms[1..], name, caseSensitive);
      assert forall i :: 1 <= i < |ms| ==> ms[i] == ms[1..][i - 1];
      if r.Some? {
        var i :| 0 <= i < |ms[1..]| && KeyMatches(ms[1..][i].key, name, caseSensitive)
                 && r.value == ms[1..][i].val
                 && forall k :: 0 <= k < i ==> !KeyMatches(ms[1..][k].key, name, caseSensitive);
        assert KeyMatches(ms[i + 1].key, name, caseSensitive) && r.value == ms[i + 1].val;
        assert forall k :: 0 <= k < i + 1 ==> !KeyMatches(ms[k].key, name, caseSensitive) by {
          forall k | 0 <= k < i + 1 ensures !KeyMatches(ms[k].key, name, caseSensitive) {
            if k > 0 { assert ms[k] == ms[1..][k - 1]; }
          }
        }
      }
    } else if ms != [] {
      assert KeyMatches(ms[0].key, name, caseSensitive);
    }
  }

  /** Keys that differ in length, or in one letter ignoring case, do not
      match in either kind of lookup. */
  lemma KeysDiffer(key: string, name: string, i: nat)
    requires |key| != |name| || (i < |key| == |name| && ToLower(key[i]) != ToLower(name[i]))
    ensures !KeyMatches(key, name, false) && !KeyMatches(key, name, true)
  {
  }

  /** Lookup passes over a leading member whose key does not match. */
  lemma FindMemberSkip(m: Member, ms: seq<Member>, name: string, caseSensitive: bool)
    requires !KeyMatches(m.key, name, caseSensitive)
    ensures FindMember([m] + ms, name, caseSensitive) == FindMember(ms, name, caseSensitive)
  {
    assert ([m] + ms)[1..] == ms;
  }

  /** `a` with its `k` lowest decimal digits dropped. */
  function Whole(a: nat, k: nat): nat {
    if k == 0 then a else Whole(a / 10, k - 1)
  }

  /** The number `mant`·10^`exp` cut toward zero, as a cast of the double to
      an integer cuts it: the fraction digits are dropped and the sign kept
      (see `TruncatedRoundsDown`). */
  function Truncated(mant: int, exp: int): (r: int)
    ensures exp >= 0 ==> r == mant * Pow10(exp)
    ensures exp < 0 ==> Abs(r) == Whole(Abs(mant), -exp) && (mant >= 0 ==> r >= 0) && (mant < 0 ==> r <= 0)
  {
    if exp >= 0 then mant * Pow10(exp)
    else if mant >= 0 then Whole(mant, -exp)
    else -(Whole(-mant, -exp) as int)
  }

  /** `->valueint`: the number truncated and saturated to int; 1 for `true`
      (cJSON sets it when it parses one); 0 for every other item. */
  function ValueInt(j: Json): (r: Int32)
    ensures j.JNumber? ==> r == Saturate32(Truncated(j.mant, j.exp))
    ensures j == JBool(true) ==> r == 1
    ensures !j.JNumber? && j != JBool(true) ==> r == 0
  {
    match j
    case JNumber(m, e) => Saturate32(Truncated(m, e))
    case JBool(b) => if b then 1 else 0
    case _ => 0
  }

  /** `cJSON_GetStringValue`: the text of a string item, NULL otherwise. */
  function GetStringValue(j: Json): (r: Option<string>)
    ensures r.Some? <==> j.JString?
    ensures r.Some? ==> r.value == j.s
  {
    if j.JString? then Some(j.s) else None
  }

  // ---------------------------------------------------------------- print

  function Tabs(n: nat): (s: string)
    ensures |s| == n && forall i :: 0 <= i < n ==> s[i] == '\t'
  {
    if n == 0 then "" else Tabs(n - 1) + "\t"
  }

  /** The value of a hexadecimal digit of either case. */
  function HexValue(c: char): (r: Option<nat>)
    ensures r.Some? ==> r.value < 16
  {
    if '0' <= c <= '9' then Some(c as int - '0' as int)
    else if 'a' <= c <= 'f' then Some(c as int - 'a' as int + 10)
    else if 'A' <= c <= 'F' then Some(c as int - 'A' as int + 10)
    else None
  }

  /** The lower-case hexadecimal digit `%x` writes for `d`. */
  function HexChar(d: nat): (c: char)
    requires d < 16
    ensures HexValue(c) == Some(d) && c != '"' && c != '\\'
  {
    if d < 10 then DigitChar(d) else ('a' as int + (d - 10)) as char
  }

  /** One character as `cJSON_Print` writes it inside quotes: quote and
      backslash escaped, the five named control escapes, `\u00xx` for the
      other control characters, everything else unchanged. */
  function EscapeChar(c: char): (r: string)
    ensures c != '"' && c != '\\' && c >= ' ' ==> r == [c]
    ensures |r| == 1 ==> r == [c] && c != '"' && c != '\\'
    ensures |r| == 2 || |r| == 6 || |r| == 1
  {
    if c == '"' || c == '\\' then ['\\', c]
    else if c as int == 8 then "\\b"
    else if c as int == 12 then "\\f"
    else if c == '\n' then "\\n"
    else if c == '\r' then "\\r"
    else if c == '\t' then "\\t"
    else if c < ' ' then "\\u00" + [HexChar(c as int / 16), HexChar(c as int % 16)]
    else [c]
  }

  /** String content as `cJSON_Print` writes it; the C string ends at the
      first NUL. */
  function Escape(s: string): (r: string)
    ensures Verbatim(s) && NoNul(s) ==> r == s
  {
    if s == [] || s[0] == '\0' then ""
    else EscapeChar(s[0]) + Escape(s[1..])
  }

  /** The fraction digits of a number: the `k` lowest decimal digits of `r`,
      zero-padded. */
  function Fraction(r: nat, k: nat): (s: string)
    ensures |s| == k && AllDigits(s)
  {
    if k == 0 then "" else Fraction(r / 10, k - 1) + [DigitChar(r % 10)]
  }

  /** The text of a number: `%d` for an integer, otherwise the integer part,
      a point and one digit per fraction place. */
  function NumberText(m: int, e: int): (t: string)
    ensures |t| > 0 && (t[0] == '-' || IsDigit(t[0]))
  {
    if e >= 0 then IntToString(m * Pow10(e))
    else
      var digits := NatToString(Whole(Abs(m), -e)) + ("." + Fraction(Abs(m), -e));
      assert IsDigit(digits[0]);
      (if m < 0 then "-" else "") + digits
  }

  /** `cJSON_Print`: formatted output, one object member per line indented
      by tabs, array elements separated by a comma and a space. */
  function Print(j: Json): string {
    PrintAt(j, 0, "")
  }

  /** The text of `j` printed at nesting `depth`, followed by `after`. */
  function PrintAt(j: Json, depth: nat, after: string): (s: string)
    ensures |s| > |after| && !IsWs(s[0]) && s[0] != ']'
    decreases j, 1
  {
    match j
    case JNull => "null" + after
    case JBool(b) => (if b then "true" else "false") + after
    case JNumber(m, e) => NumberText(m, e) + after
    case JString(s) => "\"" + (Escape(s) + ("\"" + after))
    case JArray(items) => "[" + PrintItems(items, depth + 1, "]" + after)
    case JObject(ms) => "{\n" + PrintMembers(ms, depth + 1, Tabs(depth) + ("}" + after))
  }

  /** Array elements separated by `, `; then `after`. */
  function PrintItems(items: seq<Json>, depth: nat, after: string): (s: string)
    ensures |s| >= |after|
    decreases items, 0
  {
    if items == [] then after
    else PrintAt(items[0], depth, (if |items| > 1 then ", " else "") + PrintItems(items[1..], depth, after))
  }

  /** Members one per line: tabs, the quoted key, a colon and a tab, the value,
      a comma unless it is the last member; then `after`. */
  function PrintMembers(ms: seq<Member>, depth: nat, after: string): (s: string)
    ensures |s| >= |after|
    decreases ms, 0
  {
    if ms == [] then after
    else
      Tabs(depth) + ("\"" + (Escape(ms[0].key) + ("\":\t" +
        PrintAt(ms[0].val, depth, (if |ms| > 1 then "," else "") + ("\n" + PrintMembers(ms[1..], depth, after))))))
  }

  // ---------------------------------------------------------------- parse

  function SkipWs(s: string): (r: string)
    ensures |r| <= |s|
    ensures r == [] || !IsWs(r[0])
  {
    if s != [] && IsWs(s[0]) then SkipWs(s[1..]) else s
  }

  /** Where the quote that closes a string body is: the scan steps over the
      character after each backslash. */
  function StringEnd(s: string): (r: Option<nat>)
    ensures r.Some? ==> r.value < |s| && s[r.value] == '"'
  {
    if s == [] then None
    else if s[0] == '"' then Some(0)
    else if s[0] == '\\' then
      if |s| < 2 then None
      else match StringEnd(s[2..])
        case None => None
        case Some(k) => Some(k + 2)
    else
      match StringEnd(s[1..])
      case None => None
      case Some(k) => Some(k + 1)
  }

  /** cJSON's `parse_hex4`: four hexadecimal digits, or 0 when one of them
      is not a hexadecimal digit. */
  function Hex4(s: string): (r: nat)
    requires |s| == 4
    ensures r < 0x1_0000
  {
    if HexValue(s[0]).Some? && HexValue(s[1]).Some? && HexValue(s[2]).Some? && HexValue(s[3]).Some? then
      HexValue(s[0]).value * 0x1000 + HexValue(s[1]).value * 0x100 + HexValue(s[2]).value * 0x10 + HexValue(s[3]).value
    else 0
  }

  /** A `\u` escape at the start of `t` (before the closing quote): the
      character and how many characters it takes; a high surrogate must be
      followed by a `\u` low surrogate, the pair giving one character. */
  function Utf16(t: string): (r: Option<(char, nat)>)
    ensures r.Some? ==> (r.value.1 == 6 || r.value.1 == 12) && r.value.1 <= |t|
  {
    if |t| < 6 then None
    else
      var first := Hex4(t[2..6]);
      if 0xDC00 <= first <= 0xDFFF then None
      else if 0xD800 <= first <= 0xDBFF then
        if |t| < 12 || t[6] != '\\' || t[7] != 'u' then None
        else
          var second := Hex4(t[8..12]);
          if second < 0xDC00 || 0xDFFF < second then None
          else Some(((0x1_0000 + (first - 0xD800) * 0x400 + (second - 0xDC00)) as char, 12))
      else Some((first as char, 6))
  }

  /** The character a one-letter escape stands for. */
  function EscapedChar(c: char): Option<char> {
    if c == 'b' then Some(8 as char)
    else if c == 'f' then Some(12 as char)
    else if c == 'n' then Some('\n')
    else if c == 'r' then Some('\r')
    else if c == 't' then Some('\t')
    else if c == '"' || c == '\\' || c == '/' then Some(c)
    else None
  }

  function Cons(c: char, r: Option<string>): (r': Option<string>)
    ensures r'.Some? <==> r.Some?
    ensures r.Some? ==> r'.value == [c] + r.value
  {
    if r.None? then None else Some([c] + r.value)
  }

  /** The text a string body stands for, its escapes decoded; nothing for an
      unknown escape. */
  function Unescape(t: string): (r: Option<string>)
    decreases |t|
  {
    if t == [] then Some("")
    else if t[0] != '\\' then Cons(t[0], Unescape(t[1..]))
    else if |t| < 2 then None
    else if t[1] == 'u' then
      match Utf16(t)
      case None => None
      case Some((c, n)) => Cons(c, Unescape(t[n..]))
    else
      match EscapedChar(t[1])
      case None => None
      case Some(c) => Cons(c, Unescape(t[2..]))
  }

  /** A string after its opening quote: the decoded body and the text after
      the closing quote. */
  function ParseString(s: string): (r: Option<(string, string)>)
    ensures r.Some? ==> |r.value.1| < |s|
  {
    match StringEnd(s)
    case None => None
    case Some(k) =>
      match Unescape(s[..k])
      case None => None
      case Some(body) => Some((body, s[k + 1..]))
  }

  /** The optional fraction of a number: a point then any digits; their
      value, their count and the text after them. */
  function FractionPart(u: string): (r: (nat, nat, string))
    ensures |r.2| <= |u| && (r.1 > 0 ==> |r.2| < |u|)
  {
    if u != [] && u[0] == '.' then
      var k := LeadingDigits(u[1..]);
      (DigitsValue(u[1..][..k]), k, u[1..][k..])
    else (0, 0, u)
  }

  /** The optional exponent of a number: `e` or `E`, a sign, and at least
      one digit; otherwise nothing of the text is taken. */
  function ExponentPart(v: string): (r: (int, string))
    ensures |r.1| <= |v|
  {
    if v != [] && (v[0] == 'e' || v[0] == 'E') then
      var x := v[1..];
      var minus := x != [] && x[0] == '-';
      var y := if x != [] && (x[0] == '-' || x[0] == '+') then x[1..] else x;
      var k := LeadingDigits(y);
      if k == 0 then (0, v) else ((if minus then -(DigitsValue(y[..k]) as int) else DigitsValue(y[..k])), y[k..])
    else (0, v)
  }

  /** A number with its exponent folded in when it is an integer. */
  function Normal(mant: int, exp: int): (j: Json)
    ensures j.JNumber? && j.exp <= 0
    ensures exp < 0 ==> j == JNumber(mant, exp)
  {
    if exp >= 0 then JNumber(mant * Pow10(exp), 0) else JNumber(mant, exp)
  }

  /** A number without its sign as `strtod` reads it: digits, an optional
      point with more digits (at least one digit in all), and an optional
      exponent; yields the digits as an integer, its power of ten and the
      text that follows. */
  function ParseUnsignedNumber(t: string): (r: Option<(nat, int, string)>)
    ensures r.Some? ==> |r.value.2| < |t|
  {
    var k := LeadingDigits(t);
    var (frac, scale, v) := FractionPart(t[k..]);
    if k == 0 && scale == 0 then None
    else
      var (e, w) := ExponentPart(v);
      Some((DigitsValue(t[..k]) * Pow10(scale) + frac, e - scale, w))
  }

  /** A number as `strtod` reads it: an optional minus sign, then the
      unsigned number. */
  function ParseNumber(s: string): (r: Option<(Json, string)>)
    ensures r.Some? ==> |r.value.1| < |s| && Wf(r.value.0)
  {
    var minus := s != [] && s[0] == '-';
    var t := if minus then s[1..] else s;
    match ParseUnsignedNumber(t)
    case None => None
    case Some((mag, e, w)) => Some((Normal(if minus then -(mag as int) else mag, e), w))
  }

  /** One value, after optional white space; yields the value and the text
      that follows it. */
  function ParseValue(s: string): (r: Option<(Json, string)>)
    ensures r.Some? ==> |r.value.1| < |s|
    decreases |s|, 0
  {
    var t := SkipWs(s);
    if t == [] then None
    else if |t| >= 4 && t[..4] == "null" then Some((JNull, t[4..]))
    else if |t| >= 5 && t[..5] == "false" then Some((JBool(false), t[5..]))
    else if |t| >= 4 && t[..4] == "true" then Some((JBool(true), t[4..]))
    else if t[0] == '"' then
      match ParseString(t[1..])
      case None => None
      case Some((body, rest)) => Some((JString(body), rest))
    else if t[0] == '-' || IsDigit(t[0]) then ParseNumber(t)
    else if t[0] == '[' then ParseArray(t[1..])
    else if t[0] == '{' then ParseObject(t[1..])
    else None
  }

  /** The rest of an array after its opening bracket. */
  function ParseArray(s: string): (r: Option<(Json, string)>)
    ensures r.Some? ==> |r.value.1| < |s|
    decreases |s|, 2
  {
    var t := SkipWs(s);
    if t != [] && t[0] == ']' then Some((JArray([]), t[1..]))
    else
      match ParseItems(s)
      case None => None
      case Some((items, rest)) => Some((JArray(items), rest))
  }

  /** One or more values separated by commas, through the closing bracket. */
  function ParseItems(s: string): (r: Option<(seq<Json>, string)>)
    ensures r.Some? ==> |r.value.1| < |s|
    decreases |s|, 1
  {
    match ParseValue(s)
    case None => None
    case Some((v, r1)) =>
      var r2 := SkipWs(r1);
      if r2 == [] then None
      else if r2[0] == ',' then
        match ParseItems(r2[1..])
        case None => None
        case Some((more, r3)) => Some(([v] + more, r3))
      else if r2[0] == ']' then Some(([v], r2[1..]))
      else None
  }

  /** The rest of an object after its opening brace. */
  function ParseObject(s: string): (r: Option<(Json, string)>)
    ensures r.Some? ==> |r.value.1| < |s|
    decreases |s|, 2
  {
    var t := SkipWs(s);
    if t != [] && t[0] == '}' then Some((JObject([]), t[1..]))
    else
      match ParseMembers(s)
      case None => None
      case Some((ms, rest)) => Some((JObject(ms), rest))
  }

  /** One or more members separated by commas, through the closing brace. */
  function ParseMembers(s: string): (r: Option<(seq<Member>, string)>)
    ensures r.Some? ==> |r.value.1| < |s|
    decreases |s|, 1
  {
    match ParseMember(s)
    case None => None
    case Some((m, r1)) =>
      var r2 := SkipWs(r1);
      if r2 == [] then None
      else if r2[0] == ',' then
        match ParseMembers(r2[1..])
        case None => None
        case Some((more, r3)) => Some(([m] + more, r3))
      else if r2[0] == '}' then Some(([m], r2[1..]))
      else None
  }

  /** One `"key": value` member, after optional white space. */
  function ParseMember(s: string): (r: Option<(Member, string)>)
    ensures r.Some? ==> |r.value.1| < |s|
    decreases |s|, 0
  {
    var t := SkipWs(s);
    if t == [] || t[0] != '"' then None
    else
      match ParseString(t[1..])
      case None => None
      case Some((key, r1)) =>
        var r2 := SkipWs(r1);
        if r2 == [] || r2[0] != ':' then None
        else
          match ParseValue(r2[1..])
          case None => None
          case Some((v, r3)) => Some((Member(key, v), r3))
  }

  /** `cJSON_Parse`: NULL (None) for text that is not JSON. */
  function Parse(text: string): (r: Option<Json>)
    ensures r.Some? <==> ParseValue(text).Some?
  {
    match ParseValue(text)
    case None => None
    case Some((j, _)) => Some(j)
  }

  // ---------------------------------------------------------------- lemmas

  /** A text boundary after which a number cannot continue. */
  predicate Ends(rest: string) {
    rest == [] || !(IsDigit(rest[0]) || rest[0] == '.' || rest[0] == 'e' || rest[0] == 'E')
  }

  /** A position `n` characters later. */
  function Later(o: Option<nat>, n: nat): Option<nat> {
    if o.None? then None else Some(o.value + n)
  }

  lemma Assoc(a: string, b: string, c: string)
    ensures (a + b) + c == a + (b + c)
  {
  }

  lemma {:induction false} SkipWsPrefix(w: string, x: string)
    requires AllWs(w)
    ensures SkipWs(w + x) == SkipWs(x)
    decreases |w|
  {
    if w != [] {
      assert (w + x)[0] == w[0];
      assert (w + x)[1..] == w[1..] + x;
      SkipWsPrefix(w[1..], x);
    } else {
      assert w + x == x;
    }
  }

  lemma AllWsTabs(n: nat)
    ensures AllWs(Tabs(n))
  {
  }

  // ------------------------------------------------------- string lemmas

  /** The closing-quote scan passes over plain text one character at a time. */
  lemma {:induction false} StringEndPlain(p: string, x: string)
    requires Plain(p)
    ensures StringEnd(p + x) == Later(StringEnd(x), |p|)
    decreases |p|
  {
    if p == [] {
      assert p + x == x;
    } else {
      assert (p + x)[0] == p[0];
      assert (p + x)[1..] == p[1..] + x;
      StringEndPlain(p[1..], x);
    }
  }

  /** Plain text has nothing to decode. */
  lemma {:induction false} UnescapePlain(p: string)
    requires Plain(p)
    ensures Unescape(p) == Some(p)
    decreases |p|
  {
    if p != [] {
      UnescapePlain(p[1..]);
      assert [p[0]] + p[1..] == p;
    }
  }

  /** The scan steps over an escaped character as a whole. */
  lemma StringEndEscapeChar(c: char, x: string)
    ensures StringEnd(EscapeChar(c) + x) == Later(StringEnd(x), |EscapeChar(c)|)
  {
    var e := EscapeChar(c);
    var t := e + x;
    if |e| == 1 {
      StringEndPlain(e, x);
    } else if |e| == 2 {
      assert t[0] == '\\' && t[2..] == x;
    } else {
      var h := "00" + [HexChar(c as int / 16), HexChar(c as int % 16)];
      assert e == "\\u" + h;
      assert t[0] == '\\' && t[2..] == h + x;
      StringEndPlain(h, x);
    }
  }

  lemma {:induction false} StringEndEscape(s: string, x: string)
    ensures StringEnd(Escape(s) + x) == Later(StringEnd(x), |Escape(s)|)
    decreases |s|
  {
    if s == [] || s[0] == '\0' {
      assert Escape(s) + x == x;
    } else {
      var e, r := EscapeChar(s[0]), Escape(s[1..]);
      assert Escape(s) == e + r;
      calc {
        StringEnd(Escape(s) + x);
      == { Assoc(e, r, x); }
        StringEnd(e + (r + x));
      == { StringEndEscapeChar(s[0], r + x); }
        Later(StringEnd(r + x), |e|);
      == { StringEndEscape(s[1..], x); }
        Later(Later(StringEnd(x), |r|), |e|);
      ==
        Later(StringEnd(x), |e + r|);
      }
    }
  }

  /** An escaped character decodes to the character. */
  lemma UnescapeEscapeChar(c: char, x: string)
    ensures Unescape(EscapeChar(c) + x) == Cons(c, Unescape(x))
  {
    var e := EscapeChar(c);
    var t := e + x;
    if |e| == 1 {
      assert t[0] == c && t[1..] == x;
    } else if |e| == 2 {
      assert t[0] == '\\' && t[1] == e[1] && t[2..] == x;
    } else {
      var h1, h2 := HexChar(c as int / 16), HexChar(c as int % 16);
      assert t[0] == '\\' && t[1] == 'u';
      assert t[2..6] == ['0', '0', h1, h2];
      assert Hex4(t[2..6]) == c as int;
      assert t[6..] == x;
    }
  }

  /** Decoding undoes the printer's escaping of a C string. */
  lemma {:induction false} UnescapeEscape(s: string)
    requires NoNul(s)
    ensures Unescape(Escape(s)) == Some(s)
    decreases |s|
  {
    if s != [] {
      UnescapeEscapeChar(s[0], Escape(s[1..]));
      UnescapeEscape(s[1..]);
      assert [s[0]] + s[1..] == s;
    }
  }

  /** A plain body and its closing quote read back as the body. */
  lemma ParseStringPlain(body: string, rest: string)
    requires Plain(body)
    ensures ParseString(body + ("\"" + rest)) == Some((body, rest))
  {
    var s := body + ("\"" + rest);
    StringEndPlain(body, "\"" + rest);
    UnescapePlain(body);
    assert s[..|body|] == body && s[|body| + 1..] == rest;
  }

  /** A printed string body and its closing quote read back as the string. */
  lemma ParseStringEscaped(str: string, rest: string)
    requires NoNul(str)
    ensures ParseString(Escape(str) + ("\"" + rest)) == Some((str, rest))
  {
    var e := Escape(str);
    var s := e + ("\"" + rest);
    assert StringEnd("\"" + rest) == Some(0);
    StringEndEscape(str, "\"" + rest);
    assert StringEnd(s) == Some(|e|);
    assert s[..|e|] == e && s[|e| + 1..] == rest;
    UnescapeEscape(str);
  }

  // ------------------------------------------------------- number lemmas

  /** The fraction digits and the integer part together give the number
      back, and the fraction is below its place value. */
  lemma {:induction false} WholeFraction(a: nat, k: nat)
    ensures Whole(a, k) * Pow10(k) + DigitsValue(Fraction(a, k)) == a
    ensures DigitsValue(Fraction(a, k)) < Pow10(k)
    decreases k
  {
    if k > 0 {
      WholeFraction(a / 10, k - 1);
      FractionLast(a, k);
      PlaceStep(Whole(a / 10, k - 1), Pow10(k - 1), DigitsValue(Fraction(a / 10, k - 1)), a);
    }
  }

  lemma FractionLast(a: nat, k: nat)
    requires k > 0
    ensures DigitsValue(Fraction(a, k)) == DigitsValue(Fraction(a / 10, k - 1)) * 10 + a % 10
  {
    var fk := Fraction(a, k);
    assert fk[..|fk| - 1] == Fraction(a / 10, k - 1);
    assert DigitValue(fk[|fk| - 1]) == a % 10;
  }

  lemma PlaceStep(w: nat, p: nat, d: nat, a: nat)
    requires w * p + d == a / 10 && d < p
    ensures w * (10 * p) + (d * 10 + a % 10) == a
    ensures d * 10 + a % 10 < 10 * p
  {
    assert w * (10 * p) == (w * p) * 10;
  }

  /** `Truncated` drops the fraction: its magnitude is the largest integer
      whose place value does not exceed the number's. */
  lemma TruncatedRoundsDown(mant: int, exp: int)
    requires exp < 0
    ensures Abs(Truncated(mant, exp)) * Pow10(-exp) <= Abs(mant) < (Abs(Truncated(mant, exp)) + 1) * Pow10(-exp)
  {
    var a, k := Abs(mant), -exp;
    WholeFraction(a, k);
    var w := Whole(a, k);
    assert (w + 1) * Pow10(k) == w * Pow10(k) + Pow10(k);
  }

  /** The digits of a number without its sign. */
  function Magnitude(a: nat, k: nat): string {
    if k == 0 then NatToString(a) else NatToString(Whole(a, k)) + ("." + Fraction(a, k))
  }

  lemma NumberTextSign(m: int, e: int)
    requires e <= 0
    ensures NumberText(m, e) == (if m < 0 then "-" else "") + Magnitude(Abs(m), -e)
  {
    if e == 0 {
      assert m * Pow10(0) == m;
    }
  }

  /** The parser reads the integer digits and the fraction of a printed
      magnitude, and stops where it ends. */
  lemma ParseMagnitude(a: nat, k: nat, rest: string)
    requires Ends(rest)
    ensures var t := Magnitude(a, k) + rest;
            var n := LeadingDigits(t);
            0 < n && DigitsValue(t[..n]) == Whole(a, k)
            && FractionPart(t[n..]) == (DigitsValue(Fraction(a, k)), k, rest)
  {
    var d := NatToString(Whole(a, k));
    DigitsValueOfNatToString(Whole(a, k));
    if k == 0 {
      LeadingDigitsOfDigits(d, rest);
      PrefixSplit(d, rest);
    } else {
      var f := Fraction(a, k);
      var u := "." + (f + rest);
      assert Magnitude(a, k) + rest == d + u;
      LeadingDigitsOfDigits(d, u);
      PrefixSplit(d, u);
      FractionText(f, rest);
    }
  }

  lemma PrefixSplit(d: string, x: string)
    ensures (d + x)[..|d|] == d && (d + x)[|d|..] == x
  {
  }

  lemma FractionText(f: string, rest: string)
    requires AllDigits(f) && f != [] && Ends(rest)
    ensures FractionPart("." + (f + rest)) == (DigitsValue(f), |f|, rest)
  {
    var u := "." + (f + rest);
    assert u[1..] == f + rest;
    LeadingDigitsOfDigits(f, rest);
    PrefixSplit(f, rest);
  }

  /** A printed number is read back as that number. */
  lemma ParseNumberText(m: int, e: int, rest: string)
    requires e <= 0 && Ends(rest)
    ensures ParseNumber(NumberText(m, e) + rest) == Some((JNumber(m, e), rest))
  {
    var a: nat, k: nat := Abs(m), -e;
    var t := Magnitude(a, k) + rest;
    var sv := if m < 0 then "-" + t else t;
    calc {
      ParseNumber(NumberText(m, e) + rest);
    == { NumberTextSplit(m, e, rest); }
      ParseNumber(sv);
    == { MagnitudeStart(a, k, rest); ParseUnsigned(m < 0, a, k, rest); }
      Some((Normal(if m < 0 then -(a as int) else a, -(k as int)), rest));
    == { NormalSigned(m, e); }
      Some((JNumber(m, e), rest));
    }
  }

  lemma NumberTextSplit(m: int, e: int, rest: string)
    requires e <= 0
    ensures NumberText(m, e) + rest
         == (if m < 0 then "-" + (Magnitude(Abs(m), -e) + rest) else Magnitude(Abs(m), -e) + rest)
  {
    NumberTextSign(m, e);
  }

  lemma NormalSigned(m: int, e: int)
    requires e <= 0
    ensures Normal(if m < 0 then -(Abs(m) as int) else Abs(m), -((-e) as int)) == JNumber(m, e)
  {
    if e == 0 { assert m * Pow10(0) == m; }
  }

  lemma MagnitudeStart(a: nat, k: nat, rest: string)
    ensures (Magnitude(a, k) + rest)[0] == NatToString(Whole(a, k))[0]
  {
    if k == 0 {
      assert Magnitude(a, k) + rest == NatToString(a) + rest;
    } else {
      assert Magnitude(a, k) + rest == NatToString(Whole(a, k)) + ("." + (Fraction(a, k) + rest));
    }
  }

  /** The unsigned number parser reads a printed magnitude back. */
  lemma ParseMagnitudeNumber(a: nat, k: nat, rest: string)
    requires Ends(rest)
    ensures ParseUnsignedNumber(Magnitude(a, k) + rest) == Some((a, -(k as int), rest))
  {
    var t := Magnitude(a, k) + rest;
    calc {
      ParseUnsignedNumber(t);
    == { ParseMagnitude(a, k, rest); UnsignedParts(t, Whole(a, k), DigitsValue(Fraction(a, k)), k, rest); }
      Some((Whole(a, k) * Pow10(k) + DigitsValue(Fraction(a, k)), -(k as int), rest));
    == { WholeFraction(a, k); }
      Some((a, -(k as int), rest));
    }
  }

  /** The unsigned number parser on integer digits and a fraction without
      an exponent. */
  lemma UnsignedParts(t: string, w: nat, f: nat, k: nat, rest: string)
    requires 0 < LeadingDigits(t) && DigitsValue(t[..LeadingDigits(t)]) == w
    requires FractionPart(t[LeadingDigits(t)..]) == (f, k, rest) && Ends(rest)
    ensures ParseUnsignedNumber(t) == Some((w * Pow10(k) + f, -(k as int), rest))
  {
    assert ExponentPart(rest) == (0, rest);
  }

  /** The number parser on a sign and a printed magnitude. */
  lemma ParseUnsigned(neg: bool, a: nat, k: nat, rest: string)
    requires Ends(rest)
    requires (Magnitude(a, k) + rest)[0] != '-'
    ensures var t := Magnitude(a, k) + rest;
            ParseNumber(if neg then "-" + t else t) == Some((Normal(if neg then -(a as int) else a, -(k as int)), rest))
  {
    var t := Magnitude(a, k) + rest;
    var s := if neg then "-" + t else t;
    assert (s != [] && s[0] == '-') == neg;
    assert (if neg then s[1..] else s) == t;
    ParseMagnitudeNumber(a, k, rest);
    ParseSigned(s, neg, t, a, -(k as int), rest);
  }

  /** `ParseNumber` unfolded: the sign, then the unsigned number. */
  lemma ParseSigned(s: string, neg: bool, t: string, mag: nat, e: int, w: string)
    requires (s != [] && s[0] == '-') == neg && (if neg then s[1..] else s) == t
    requires ParseUnsignedNumber(t) == Some((mag, e, w))
    ensures ParseNumber(s) == Some((Normal(if neg then -(mag as int) else mag, e), w))
  {
  }

  /** How fractions print: the integer part, a point, and one digit per
      place, leading zeros kept. */
  lemma NumberTextExamples()
    ensures NumberText(26, -1) == "2.6"
    ensures NumberText(-5, -2) == "-0.05"
  {
    FractionTextExample(26, 1, 2, "6");
    FractionTextExample(5, 2, 0, "05");
  }

  lemma FractionTextExample(a: nat, k: nat, w: nat, f: string)
    requires 0 < a && 0 < k && w < 10 && Whole(a, k) == w && Fraction(a, k) == f
    ensures NumberText(a, -(k as int)) == [DigitChar(w)] + ("." + f)
    ensures NumberText(-(a as int), -(k as int)) == "-" + ([DigitChar(w)] + ("." + f))
  {
    assert NatToString(w) == [DigitChar(w)];
    assert Abs(-(a as int)) == a;
  }

  /** A printed number is read back as a value. */
  lemma ParseValueNumberText(m: int, e: int, rest: string)
    requires e <= 0 && Ends(rest)
    ensures ParseValue(NumberText(m, e) + rest) == Some((JNumber(m, e), rest))
  {
    var s := NumberText(m, e) + rest;
    assert s[0] == '-' || IsDigit(s[0]);
    ParseValueDigit(s);
    ParseNumberText(m, e, rest);
  }

  /** A text that starts with a minus sign or a digit is read as a number. */
  lemma ParseValueDigit(s: string)
    requires s != [] && (s[0] == '-' || IsDigit(s[0]))
    ensures ParseValue(s) == ParseNumber(s)
  {
    assert SkipWs(s) == s;
    assert |s| >= 4 ==> s[..4] != "null" && s[..4] != "true" by {
      if |s| >= 4 { assert s[..4][0] == s[0]; }
    }
    assert |s| >= 5 ==> s[..5] != "false" by {
      if |s| >= 5 { assert s[..5][0] == s[0]; }
    }
  }

  /** A `%d` integer is read back as that integer. */
  lemma ParseValueNumber(n: int, rest: string)
    requires Ends(rest)
    ensures ParseValue(IntToString(n) + rest) == Some((JNumber(n, 0), rest))
  {
    assert n * Pow10(0) == n;
    assert NumberText(n, 0) == IntToString(n);
    ParseValueNumberText(n, 0, rest);
  }

  // -------------------------------------------------------- value lemmas

  lemma ParseValueNull(rest: string)
    ensures ParseValue("null" + rest) == Some((JNull, rest))
  {
    var s := "null" + rest;
    assert SkipWs(s) == s && s[..4] == "null" && s[4..] == rest;
  }

  lemma ParseValueBool(b: bool, rest: string)
    ensures ParseValue((if b then "true" else "false") + rest) == Some((JBool(b), rest))
  {
    var w := if b then "true" else "false";
    var s := w + rest;
    assert SkipWs(s) == s && s[..|w|] == w && s[|w|..] == rest;
    assert s[..4] != "null" by { assert s[0] != 'n'; }
  }

  /** A text that starts with a quote is read as a string. */
  lemma ParseValueQuote(s: string)
    requires s != [] && s[0] == '"'
    ensures ParseValue(s) == match ParseString(s[1..])
                             case None => None
                             case Some((body, rest)) => Some((JString(body), rest))
  {
    assert SkipWs(s) == s;
    assert |s| >= 4 ==> s[..4] != "null" && s[..4] != "true" by {
      if |s| >= 4 { assert s[..4][0] == '"'; }
    }
    assert |s| >= 5 ==> s[..5] != "false" by {
      if |s| >= 5 { assert s[..5][0] == '"'; }
    }
  }

  /** A quoted plain string is read back as that string. */
  lemma ParseValueString(str: string, rest: string)
    requires Plain(str)
    ensures ParseValue("\"" + (str + ("\"" + rest))) == Some((JString(str), rest))
  {
    var s := "\"" + (str + ("\"" + rest));
    assert s[0] == '"' && s[1..] == str + ("\"" + rest);
    ParseValueQuote(s);
    ParseStringPlain(str, rest);
  }

  /** A printed string is read back as that string. */
  lemma ParseValueEscaped(str: string, rest: string)
    requires NoNul(str)
    ensures ParseValue("\"" + (Escape(str) + ("\"" + rest))) == Some((JString(str), rest))
  {
    var s := "\"" + (Escape(str) + ("\"" + rest));
    assert s[0] == '"' && s[1..] == Escape(str) + ("\"" + rest);
    ParseValueQuote(s);
    ParseStringEscaped(str, rest);
  }

  lemma ParseValueWs(w: string, x: string)
    requires AllWs(w)
    ensures ParseValue(w + x) == ParseValue(x)
  {
    SkipWsPrefix(w, x);
  }

  lemma ParseValueBrace(x: string)
    ensures ParseValue("{" + x) == ParseObject(x)
  {
    var s := "{" + x;
    assert SkipWs(s) == s && s[1..] == x;
  }

  lemma ParseValueBracket(x: string)
    ensures ParseValue("[" + x) == ParseArray(x)
  {
    var s := "[" + x;
    assert SkipWs(s) == s && s[1..] == x;
  }

  // ------------------------------------------------------- member lemmas

  /** One member: white space, a quoted key text, a colon and a value text. */
  lemma ParseMemberQuoted(w: string, kt: string, key: string, vtail: string, v: Json, tail: string)
    requires AllWs(w)
    requires ParseString(kt + ("\"" + (":" + vtail))) == Some((key, ":" + vtail))
    requires ParseValue(vtail) == Some((v, tail))
    ensures ParseMember(w + ("\"" + (kt + ("\":" + vtail)))) == Some((Member(key, v), tail))
  {
    var x := "\"" + (kt + ("\":" + vtail));
    var r1 := ":" + vtail;
    assert x[0] == '"' && x[1..] == kt + ("\"" + r1);
    assert r1[0] == ':' && r1[1..] == vtail;
    ParseMemberAt(w, x, key, r1, v, tail);
  }

  /** `ParseMember` unfolded: white space, a quote, the key's string, a
      colon and the value. */
  lemma ParseMemberAt(w: string, x: string, key: string, r1: string, v: Json, tail: string)
    requires AllWs(w) && x != [] && x[0] == '"' && ParseString(x[1..]) == Some((key, r1))
    requires r1 != [] && r1[0] == ':' && ParseValue(r1[1..]) == Some((v, tail))
    ensures ParseMember(w + x) == Some((Member(key, v), tail))
  {
    SkipWsPrefix(w, x);
    assert SkipWs(x) == x && SkipWs(r1) == r1;
  }

  /** One member: white space, a quoted plain key, a colon and a value text. */
  lemma ParseMemberText(w: string, key: string, vtail: string, v: Json, tail: string)
    requires AllWs(w) && Plain(key)
    requires ParseValue(vtail) == Some((v, tail))
    ensures ParseMember(w + ("\"" + (key + ("\":" + vtail)))) == Some((Member(key, v), tail))
  {
    ParseStringPlain(key, ":" + vtail);
    ParseMemberQuoted(w, key, key, vtail, v, tail);
  }

  /** A parsed member followed by a comma continues the member list. */
  lemma ParseMembersComma(s: string, m: Member, r1: string, more: string)
    requires ParseMember(s) == Some((m, r1)) && SkipWs(r1) == "," + more
    ensures ParseMembers(s) == match ParseMembers(more)
                               case None => None
                               case Some((ms, r)) => Some(([m] + ms, r))
  {
    assert ("," + more)[1..] == more;
  }

  /** A parsed member followed by the closing brace ends the member list. */
  lemma ParseMembersClose(s: string, m: Member, r1: string, rest: string)
    requires ParseMember(s) == Some((m, r1)) && SkipWs(r1) == "}" + rest
    ensures ParseMembers(s) == Some(([m], rest))
  {
    assert ("}" + rest)[1..] == rest;
  }

  lemma ParseMembersWs(w: string, x: string)
    requires AllWs(w)
    ensures ParseMembers(w + x) == ParseMembers(x)
  {
    SkipWsPrefix(w, x);
    assert ParseMember(w + x) == ParseMember(x);
  }

  /** A parsed element followed by a comma continues the element list. */
  lemma ParseItemsComma(s: string, v: Json, r1: string, more: string)
    requires ParseValue(s) == Some((v, r1)) && SkipWs(r1) == "," + more
    ensures ParseItems(s) == match ParseItems(more)
                             case None => None
                             case Some((vs, r)) => Some(([v] + vs, r))
  {
    assert ("," + more)[1..] == more;
  }

  /** A parsed element followed by the closing bracket ends the list. */
  lemma ParseItemsClose(s: string, v: Json, r1: string, rest: string)
    requires ParseValue(s) == Some((v, r1)) && SkipWs(r1) == "]" + rest
    ensures ParseItems(s) == Some(([v], rest))
  {
    assert ("]" + rest)[1..] == rest;
  }

  lemma ParseItemsWs(w: string, x: string)
    requires AllWs(w)
    ensures ParseItems(w + x) == ParseItems(x)
  {
    ParseValueWs(w, x);
  }

  /** An object whose text does not start with a closing brace is read
      through its member list. */
  lemma ParseObjectMembers(x: string)
    requires SkipWs(x) != [] && SkipWs(x)[0] != '}'
    ensures ParseObject(x) == match ParseMembers(x)
                              case None => None
                              case Some((ms, r)) => Some((JObject(ms), r))
  {
  }

  // -------------------------------------------------- round-trip lemmas

  /** Whatever `cJSON_Print` produces parses back to the same value, and the
      parser stops exactly where the printed text ends. */
  lemma {:induction false} ParsePrintAt(j: Json, depth: nat, rest: string)
    requires Wf(j) && Ends(rest)
    ensures ParseValue(PrintAt(j, depth, rest)) == Some((j, rest))
    decreases j, 1
  {
    match j
    case JNull =>
      ParseValueNull(rest);
    case JBool(b) =>
      ParseValueBool(b, rest);
    case JNumber(m, e) =>
      ParseValueNumberText(m, e, rest);
    case JString(str) =>
      ParseValueEscaped(str, rest);
    case JArray(items) =>
      ParsePrintArray(items, depth, rest);
    case JObject(ms) =>
      ParsePrintObject(ms, depth, rest);
  }

  lemma {:induction false} ParsePrintArray(items: seq<Json>, depth: nat, rest: string)
    requires Wf(JArray(items))
    ensures ParseValue(PrintAt(JArray(items), depth, rest)) == Some((JArray(items), rest))
    decreases JArray(items), 0
  {
    var x := PrintItems(items, depth + 1, "]" + rest);
    assert PrintAt(JArray(items), depth, rest) == "[" + x;
    ParseValueBracket(x);
    if items == [] {
      assert x == "]" + rest && SkipWs(x) == x && x[1..] == rest;
    } else {
      assert SkipWs(x) == x && x[0] != ']';
      ParsePrintItems(items, depth + 1, rest);
    }
  }

  lemma {:induction false} ParsePrintItems(items: seq<Json>, depth: nat, rest: string)
    requires items != [] && forall i :: 0 <= i < |items| ==> Wf(items[i])
    ensures ParseItems(PrintItems(items, depth, "]" + rest)) == Some((items, rest))
    decreases items, 3
  {
    if |items| == 1 {
      ParseLastItem(items, depth, rest);
    } else {
      ParseItemsWs(" ", PrintItems(items[1..], depth, "]" + rest));
      ParsePrintItems(items[1..], depth, rest);
      ParseMoreItems(items, depth, rest);
    }
  }

  /** The first of several printed items, a comma, and the rest read back. */
  lemma {:induction false} ParseMoreItems(items: seq<Json>, depth: nat, rest: string)
    requires |items| > 1 && Wf(items[0])
    requires ParseItems(" " + PrintItems(items[1..], depth, "]" + rest)) == Some((items[1..], rest))
    ensures ParseItems(PrintItems(items, depth, "]" + rest)) == Some((items, rest))
    decreases items, 2
  {
    var more := PrintItems(items[1..], depth, "]" + rest);
    var text := PrintItems(items, depth, "]" + rest);
    assert text == PrintAt(items[0], depth, ", " + more);
    ParsePrintAt(items[0], depth, ", " + more);
    ParseItemsCons(text, items[0], more, items[1..], rest);
    assert [items[0]] + items[1..] == items;
  }

  /** A value, a comma and an item list make a longer item list. */
  lemma ParseItemsCons(text: string, v: Json, more: string, items: seq<Json>, rest: string)
    requires ParseValue(text) == Some((v, ", " + more))
    requires ParseItems(" " + more) == Some((items, rest))
    ensures ParseItems(text) == Some(([v] + items, rest))
  {
    assert SkipWs(", " + more) == "," + (" " + more);
    ParseItemsComma(text, v, ", " + more, " " + more);
  }

  lemma {:induction false} ParseLastItem(items: seq<Json>, depth: nat, rest: string)
    requires |items| == 1 && Wf(items[0])
    ensures ParseItems(PrintItems(items, depth, "]" + rest)) == Some((items, rest))
    decreases items, 1
  {
    var close := "]" + rest;
    var text := PrintItems(items, depth, close);
    assert text == PrintAt(items[0], depth, close) by {
      assert items[1..] == [];
      assert "" + PrintItems(items[1..], depth, close) == close;
    }
    ParsePrintAt(items[0], depth, close);
    assert SkipWs(close) == close;
    ParseItemsClose(text, items[0], close, rest);
    assert [items[0]] == items;
  }

  lemma {:induction false} ParsePrintObject(ms: seq<Member>, depth: nat, rest: string)
    requires Wf(JObject(ms))
    ensures ParseValue(PrintAt(JObject(ms), depth, rest)) == Some((JObject(ms), rest))
    decreases JObject(ms), 0
  {
    var close := Tabs(depth) + ("}" + rest);
    var pm := PrintMembers(ms, depth + 1, close);
    assert ParseValue(PrintAt(JObject(ms), depth, rest)) == ParseObject("\n" + pm) by {
      assert PrintAt(JObject(ms), depth, rest) == "{" + ("\n" + pm);
      ParseValueBrace("\n" + pm);
    }
    if ms == [] {
      ParseEmptyObject(depth, rest);
    } else {
      assert ParseMembers("\n" + pm) == Some((ms, rest)) by {
        ParseMembersWs("\n", pm);
        ParsePrintMembers(ms, depth + 1, depth, rest);
      }
      ParseObjectNotEmpty(ms, depth, close);
    }
  }

  lemma ParseEmptyObject(depth: nat, rest: string)
    ensures ParseObject("\n" + (Tabs(depth) + ("}" + rest))) == Some((JObject([]), rest))
  {
    var close := Tabs(depth) + ("}" + rest);
    assert SkipWs("\n" + close) == "}" + rest by {
      AllWsTabs(depth);
      SkipWsPrefix("\n", close);
      SkipWsPrefix(Tabs(depth), "}" + rest);
    }
    assert ("}" + rest)[1..] == rest;
  }

  /** Printed members do not start with a closing brace, so the object is
      read through its member list. */
  lemma ParseObjectNotEmpty(ms: seq<Member>, depth: nat, close: string)
    requires ms != []
    ensures ParseObject("\n" + PrintMembers(ms, depth + 1, close))
         == match ParseMembers("\n" + PrintMembers(ms, depth + 1, close))
            case None => None
            case Some((ms', r)) => Some((JObject(ms'), r))
  {
    var pm := PrintMembers(ms, depth + 1, close);
    var x := "\"" + (Escape(ms[0].key) + ("\":\t" +
      PrintAt(ms[0].val, depth + 1, (if |ms| > 1 then "," else "") + ("\n" + PrintMembers(ms[1..], depth + 1, close)))));
    assert SkipWs("\n" + pm) == x by {
      assert pm == Tabs(depth + 1) + x;
      AllWsTabs(depth + 1);
      SkipWsPrefix("\n", pm);
      SkipWsPrefix(Tabs(depth + 1), x);
    }
    assert x[0] == '"';
  }

  /** The first printed member is read back, leaving the separator and the
      remaining members. */
  lemma {:induction false} ParseFirstMember(ms: seq<Member>, depth: nat, close: string)
    requires ms != [] && NoNul(ms[0].key) && Wf(ms[0].val)
    ensures ParseMember(PrintMembers(ms, depth, close))
         == Some((ms[0], (if |ms| > 1 then "," else "") + ("\n" + PrintMembers(ms[1..], depth, close))))
    decreases ms, 0
  {
    var m := ms[0];
    var tail := (if |ms| > 1 then "," else "") + ("\n" + PrintMembers(ms[1..], depth, close));
    var pv := PrintAt(m.val, depth, tail);
    assert ParseValue(pv) == Some((m.val, tail)) by {
      assert Ends(tail);
      ParsePrintAt(m.val, depth, tail);
    }
    MemberLine(ms, depth, close, tail, pv);
  }

  /** The member line is tabs, the quoted key, a colon and the tab-prefixed value. */
  lemma MemberLine(ms: seq<Member>, depth: nat, close: string, tail: string, pv: string)
    requires ms != [] && NoNul(ms[0].key)
    requires tail == (if |ms| > 1 then "," else "") + ("\n" + PrintMembers(ms[1..], depth, close))
    requires pv == PrintAt(ms[0].val, depth, tail)
    requires ParseValue(pv) == Some((ms[0].val, tail))
    ensures ParseMember(PrintMembers(ms, depth, close)) == Some((ms[0], tail))
  {
    var kt := Escape(ms[0].key);
    var x := "\"" + (kt + ("\":" + ("\t" + pv)));
    assert PrintMembers(ms, depth, close) == Tabs(depth) + x by {
      assert "\":\t" + pv == "\":" + ("\t" + pv);
    }
    assert ParseValue("\t" + pv) == Some((ms[0].val, tail)) by {
      ParseValueWs("\t", pv);
    }
    AllWsTabs(depth);
    ParseStringEscaped(ms[0].key, ":" + ("\t" + pv));
    ParseMemberQuoted(Tabs(depth), kt, ms[0].key, "\t" + pv, ms[0].val, tail);
  }

  lemma {:induction false} ParseLastMember(ms: seq<Member>, depth: nat, closeDepth: nat, rest: string)
    requires |ms| == 1 && NoNul(ms[0].key) && Wf(ms[0].val)
    ensures ParseMembers(PrintMembers(ms, depth, Tabs(closeDepth) + ("}" + rest))) == Some((ms, rest))
    decreases ms, 1
  {
    var close := Tabs(closeDepth) + ("}" + rest);
    var tail := "\n" + close;
    assert ParseMember(PrintMembers(ms, depth, close)) == Some((ms[0], tail)) by {
      ParseFirstMember(ms, depth, close);
      assert ms[1..] == [];
      assert PrintMembers(ms[1..], depth, close) == close;
      assert "" + ("\n" + close) == tail;
    }
    assert SkipWs(tail) == "}" + rest by {
      AllWsTabs(closeDepth);
      SkipWsPrefix("\n", close);
      SkipWsPrefix(Tabs(closeDepth), "}" + rest);
    }
    ParseMembersClose(PrintMembers(ms, depth, close), ms[0], tail, rest);
    assert [ms[0]] == ms;
  }

  lemma {:induction false} ParsePrintMembers(ms: seq<Member>, depth: nat, closeDepth: nat, rest: string)
    requires ms != []
    requires forall i :: 0 <= i < |ms| ==> NoNul(ms[i].key) && Wf(ms[i].val)
    ensures ParseMembers(PrintMembers(ms, depth, Tabs(closeDepth) + ("}" + rest))) == Some((ms, rest))
    decreases ms, 3
  {
    var close := Tabs(closeDepth) + ("}" + rest);
    var pmTail := PrintMembers(ms[1..], depth, close);
    if |ms| == 1 {
      ParseLastMember(ms, depth, closeDepth, rest);
    } else {
      ParseMembersWs("\n", pmTail);
      ParsePrintMembers(ms[1..], depth, closeDepth, rest);
      ParseMoreMembers(ms, depth, close, rest);
    }
  }

  /** The first of several printed members, a comma, and the rest read back. */
  lemma {:induction false} ParseMoreMembers(ms: seq<Member>, depth: nat, close: string, rest: string)
    requires |ms| > 1
    requires forall i :: 0 <= i < |ms| ==> NoNul(ms[i].key) && Wf(ms[i].val)
    requires ParseMembers("\n" + PrintMembers(ms[1..], depth, close)) == Some((ms[1..], rest))
    ensures ParseMembers(PrintMembers(ms, depth, close)) == Some((ms, rest))
    decreases ms, 2
  {
    var more := "\n" + PrintMembers(ms[1..], depth, close);
    ParseFirstMember(ms, depth, close);
    ParseMembersCons(PrintMembers(ms, depth, close), ms[0], more, ms[1..], rest);
    assert [ms[0]] + ms[1..] == ms;
  }

  /** A member, a comma and a member list make a longer member list. */
  lemma ParseMembersCons(text: string, m: Member, more: string, ms: seq<Member>, rest: string)
    requires ParseMember(text) == Some((m, "," + more))
    requires ParseMembers(more) == Some((ms, rest))
    ensures ParseMembers(text) == Some(([m] + ms, rest))
  {
    assert SkipWs("," + more) == "," + more;
    ParseMembersComma(text, m, "," + more, more);
  }

  /** Printing into a continuation is printing followed by it. */
  lemma {:induction false} PrintAtAppend(j: Json, depth: nat, x: string, a: string)
    ensures PrintAt(j, depth, x + a) == PrintAt(j, depth, x) + a
    decreases j, 1
  {
    match j
    case JNull => Assoc("null", x, a);
    case JBool(b) => Assoc(if b then "true" else "false", x, a);
    case JNumber(m, e) => Assoc(NumberText(m, e), x, a);
    case JString(s) =>
      Assoc("\"", x, a);
      Assoc(Escape(s), "\"" + x, a);
      Assoc("\"", Escape(s) + ("\"" + x), a);
    case JArray(items) =>
      Assoc("]", x, a);
      PrintItemsAppend(items, depth + 1, "]" + x, a);
      Assoc("[", PrintItems(items, depth + 1, "]" + x), a);
    case JObject(ms) =>
      Assoc("}", x, a);
      Assoc(Tabs(depth), "}" + x, a);
      PrintMembersAppend(ms, depth + 1, Tabs(depth) + ("}" + x), a);
      Assoc("{\n", PrintMembers(ms, depth + 1, Tabs(depth) + ("}" + x)), a);
  }

  lemma {:induction false} PrintItemsAppend(items: seq<Json>, depth: nat, x: string, a: string)
    ensures PrintItems(items, depth, x + a) == PrintItems(items, depth, x) + a
    decreases items, 0
  {
    if items != [] {
      var sep := if |items| > 1 then ", " else "";
      var pi := PrintItems(items[1..], depth, x);
      PrintItemsAppend(items[1..], depth, x, a);
      Assoc(sep, pi, a);
      PrintAtAppend(items[0], depth, sep + pi, a);
    }
  }

  lemma {:induction false} PrintMembersAppend(ms: seq<Member>, depth: nat, x: string, a: string)
    ensures PrintMembers(ms, depth, x + a) == PrintMembers(ms, depth, x) + a
    decreases ms, 0
  {
    if ms != [] {
      var sep := if |ms| > 1 then "," else "";
      var pm := PrintMembers(ms[1..], depth, x);
      PrintMembersAppend(ms[1..], depth, x, a);
      Assoc("\n", pm, a);
      Assoc(sep, "\n" + pm, a);
      PrintAtAppend(ms[0].val, depth, sep + ("\n" + pm), a);
      var pv := PrintAt(ms[0].val, depth, sep + ("\n" + pm));
      var k := Escape(ms[0].key);
      Assoc("\":\t", pv, a);
      Assoc(k, "\":\t" + pv, a);
      Assoc("\"", k + ("\":\t" + pv), a);
      Assoc(Tabs(depth), "\"" + (k + ("\":\t" + pv)), a);
    }
  }

  /** The printed text of `j` followed by anything a number cannot continue
      with parses back to `j`, stopping where the print ends. */
  lemma ParsePrinted(j: Json, rest: string)
    requires Wf(j) && Ends(rest)
    ensures ParseValue(Print(j) + rest) == Some((j, rest))
  {
    PrintAtAppend(j, 0, "", rest);
    assert "" + rest == rest;
    ParsePrintAt(j, 0, rest);
  }

  /** `cJSON_Parse(cJSON_Print(j))` gives back `j`. */
  lemma ParsePrint(j: Json)
    requires Wf(j)
    ensures Parse(Print(j)) == Some(j)
  {
    ParsePrintAt(j, 0, "");
  }

  // ------------------------------------------------- integer members

  /** A member as the payload formats write one: a space, the quoted key, a
      colon and the decimal value; then `after`. */
  function IntField(key: string, n: int, after: string): string {
    " " + ("\"" + (key + ("\":" + (IntToString(n) + after))))
  }

  lemma IntFieldAppend(key: string, n: int, a: string, b: string)
    ensures IntField(key, n, a) + b == IntField(key, n, a + b)
  {
    Assoc(IntToString(n), a, b);
    Assoc("\":", IntToString(n) + a, b);
    Assoc(key, "\":" + (IntToString(n) + a), b);
    Assoc("\"", key + ("\":" + (IntToString(n) + a)), b);
    Assoc(" ", "\"" + (key + ("\":" + (IntToString(n) + a))), b);
  }

  lemma ParseIntField(key: string, n: int, after: string)
    requires Plain(key) && Ends(after)
    ensures ParseMember(IntField(key, n, after)) == Some((Member(key, JNumber(n, 0)), after))
  {
    ParseValueNumber(n, after);
    ParseMemberText(" ", key, IntToString(n) + after, JNumber(n, 0), after);
  }

  /** An integer member followed by a comma and more members. */
  lemma ParseIntFieldComma(key: string, n: int, more: string)
    requires Plain(key)
    ensures ParseMembers(IntField(key, n, "," + more))
         == match ParseMembers(more)
            case None => None
            case Some((ms, r)) => Some(([Member(key, JNumber(n, 0))] + ms, r))
  {
    var s, m := IntField(key, n, "," + more), Member(key, JNumber(n, 0));
    assert ParseMember(s) == Some((m, "," + more)) by {
      ParseIntField(key, n, "," + more);
    }
    ParseMembersComma(s, m, "," + more, more);
  }

  /** The last integer member, then a space and the closing brace. */
  lemma ParseIntFieldClose(key: string, n: int, rest: string)
    requires Plain(key)
    ensures ParseMembers(IntField(key, n, " }" + rest)) == Some(([Member(key, JNumber(n, 0))], rest))
  {
    ParseIntField(key, n, " }" + rest);
    SkipSpaceClose(rest);
    ParseMembersClose(IntField(key, n, " }" + rest), Member(key, JNumber(n, 0)), " }" + rest, rest);
  }

  lemma SkipSpaceClose(rest: string)
    ensures SkipWs(" }" + rest) == "}" + rest
  {
    assert " }" + rest == " " + ("}" + rest);
    SkipWsPrefix(" ", "}" + rest);
  }

  /** An object opened by a space and a brace whose first member is an
      integer member. */
  lemma ParseSpaceBrace(key: string, n: int, after: string)
    ensures ParseValue(" {" + IntField(key, n, after))
         == match ParseMembers(IntField(key, n, after))
            case None => None
            case Some((ms, r)) => Some((JObject(ms), r))
  {
    var y := IntField(key, n, after);
    assert " {" + y == " " + ("{" + y);
    ParseValueWs(" ", "{" + y);
    ParseValueBrace(y);
    assert SkipWs(y) == y[1..] by {
      assert y == " " + y[1..];
      SkipWsPrefix(" ", y[1..]);
    }
    assert y[1..][0] == '"';
    ParseObjectMembers(y);
  }
}
