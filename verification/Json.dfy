/** JSON as the two sides of the bridge write it (`push_json_string` and the object encoders of
    `rust/iroh-rn-core/src/hybrid_iroh.rs`, `JSON.stringify` in `src/endpoint.ts`), and a reader for all of JSON (RFC 8259) to judge it
    by. A `char` is a Unicode scalar value, as in Rust. */
module Json {
  import opened Base

  // ---------------------------------------------------------------- writing strings

  function HexDigit(d: nat): (c: char)
    requires d < 16
  {
    if d < 10 then ('0' as int + d) as char else ('a' as int + d - 10) as char
  }

  /** The native encoder, and `JSON.stringify` on the TypeScript side, which has short escapes for
      backspace and form feed as well. */
  datatype Writer = Native | Script

  /** One character of a string literal, escaped as section 7 of RFC 8259 demands. */
  function Escaped(w: Writer, c: char): string
  {
    if c == '"' then "\\\""
    else if c == '\\' then "\\\\"
    else if c == '\n' then "\\n"
    else if c == '\r' then "\\r"
    else if c == '\t' then "\\t"
    else if w.Script? && c == 8 as char then "\\b"
    else if w.Script? && c == 12 as char then "\\f"
    else if c < ' ' then "\\u00" + [HexDigit(c as int / 16), HexDigit(c as int % 16)]
    else [c]
  }

  function EscapeAll(w: Writer, value: string): string
  {
    if value == [] then [] else Escaped(w, value[0]) + EscapeAll(w, value[1..])
  }

  function Quoted(w: Writer, value: string): string
  {
    "\"" + EscapeAll(w, value) + "\""
  }

  lemma {:induction false} EscapeSnoc(w: Writer, value: string, c: char)
    ensures EscapeAll(w, value + [c]) == EscapeAll(w, value) + Escaped(w, c)
  {
    if value == [] {
      assert [c][1..] == [];
      assert [] + [c] == [c];
    } else {
      EscapeSnoc(w, value[1..], c);
      assert (value + [c])[1..] == value[1..] + [c];
    }
  }

  /** Appends a string literal to the output, one character after another. */
  method PushJsonString(out: string, value: string) returns (r: string)
    ensures r == out + Quoted(Native, value)
  {
    var body := "";
    for i := 0 to |value|
      invariant body == EscapeAll(Native, value[..i])
    {
      assert value[..i + 1] == value[..i] + [value[i]];
      EscapeSnoc(Native, value[..i], value[i]);
      body := body + Escaped(Native, value[i]);
    }
    assert value[..|value|] == value;
    r := out + ("\"" + body + "\"");
  }

  // ---------------------------------------------------------------- reading strings

  function HexValue(c: char): Option<nat>
  {
    if '0' <= c <= '9' then Some(c as int - '0' as int)
    else if 'a' <= c <= 'f' then Some(c as int - 'a' as int + 10)
    else if 'A' <= c <= 'F' then Some(c as int - 'A' as int + 10)
    else None
  }

  /** The UTF-16 code unit of `\uXXXX`, its four digits being the first four characters. */
  function CodeUnit(s: string): (u: Option<nat>)
    ensures u.Some? ==> |s| >= 4 && u.value < 0x10000
  {
    if |s| < 4 then None
    else
      match (HexValue(s[0]), HexValue(s[1]), HexValue(s[2]), HexValue(s[3]))
      case (Some(a), Some(b), Some(c), Some(d)) =>
        if a < 16 && b < 16 && c < 16 && d < 16 then Some(((a * 16 + b) * 16 + c) * 16 + d) else None
      case _ => None
  }

  /** The character an escape stands for and what follows it; `s` starts after the backslash. */
  function Unescape(s: string): (r: Option<(char, string)>)
    ensures r.Some? ==> |r.value.1| < |s|
  {
    if s == [] then None
    else if s[0] == '"' || s[0] == '\\' || s[0] == '/' then Some((s[0], s[1..]))
    else if s[0] == 'b' then Some((8 as char, s[1..]))
    else if s[0] == 'f' then Some((12 as char, s[1..]))
    else if s[0] == 'n' then Some(('\n', s[1..]))
    else if s[0] == 'r' then Some(('\r', s[1..]))
    else if s[0] == 't' then Some(('\t', s[1..]))
    else if s[0] == 'u' then
      var unit := CodeUnit(s[1..]);
      if unit.None? then None
      else if unit.value < 0xD800 || 0xE000 <= unit.value then Some((unit.value as char, s[5..]))
      else LowSurrogate(unit.value, s[5..])
    else None
  }

  /** The second half of a surrogate pair; a half on its own is no character. */
  function LowSurrogate(high: nat, s: string): (r: Option<(char, string)>)
    requires 0xD800 <= high < 0xE000
    ensures r.Some? ==> |r.value.1| < |s|
  {
    if high >= 0xDC00 || |s| < 2 || s[0] != '\\' || s[1] != 'u' then None
    else
      var low := CodeUnit(s[2..]);
      if low.None? || low.value < 0xDC00 || low.value >= 0xE000 then None
      else Some(((0x10000 + (high - 0xD800) * 0x400 + (low.value - 0xDC00)) as char, s[6..]))
  }

  /** The string up to its closing quote, and what follows it. */
  function ParseChars(s: string): (r: Option<(string, string)>)
    ensures r.Some? ==> |r.value.1| < |s|
    decreases |s|
  {
    if s == [] || s[0] < ' ' then None
    else if s[0] == '"' then Some(("", s[1..]))
    else if s[0] == '\\' then
      var c := Unescape(s[1..]);
      if c.None? then None else Prepend(c.value.0, ParseChars(c.value.1))
    else Prepend(s[0], ParseChars(s[1..]))
  }

  function Prepend(c: char, tail: Option<(string, string)>): Option<(string, string)>
  {
    if tail.None? then None else Some(([c] + tail.value.0, tail.value.1))
  }

  lemma EscapedIsRead(w: Writer, c: char, rest: string)
    ensures ParseChars(Escaped(w, c) + rest) == Prepend(c, ParseChars(rest))
  {
    var e := Escaped(w, c);
    var s := e + rest;
    if |e| == 1 {
      assert s[1..] == rest;
    } else if |e| == 2 {
      assert s[1..][1..] == rest;
      assert Unescape(s[1..]) == Some((c, rest));
    } else {
      ControlIsRead(w, c, rest);
    }
  }

  lemma HexRoundTrip(d: nat)
    requires d < 16
    ensures HexValue(HexDigit(d)) == Some(d)
  {
  }

  lemma ControlIsRead(w: Writer, c: char, rest: string)
    requires |Escaped(w, c)| == 6
    ensures ParseChars(Escaped(w, c) + rest) == Prepend(c, ParseChars(rest))
  {
    var s := Escaped(w, c) + rest;
    var hi, lo := c as int / 16, c as int % 16;
    HexRoundTrip(hi);
    HexRoundTrip(lo);
    var u := s[1..];
    assert u[0] == 'u' && u[1..][0] == '0' && u[1..][1] == '0' && u[1..][2] == HexDigit(hi) && u[1..][3] == HexDigit(lo);
    assert CodeUnit(u[1..]) == Some(c as int);
    assert u[5..] == rest;
  }

  /** A reader of JSON gets back exactly the string that was written, whatever it contains. */
  lemma {:induction false} StringRoundTrip(w: Writer, value: string, rest: string)
    ensures ParseChars(EscapeAll(w, value) + "\"" + rest) == Some((value, rest))
  {
    if value == [] {
      assert EscapeAll(w, value) + "\"" + rest == "\"" + rest;
      assert ("\"" + rest)[1..] == rest;
    } else {
      var tail := EscapeAll(w, value[1..]) + "\"" + rest;
      assert EscapeAll(w, value) + "\"" + rest == Escaped(w, value[0]) + tail;
      StringRoundTrip(w, value[1..], rest);
      EscapedIsRead(w, value[0], tail);
      assert [value[0]] + value[1..] == value;
    }
  }

  /** The two writers agree on every text without those two characters, so on every id, URL and
      socket address. */
  lemma {:induction false} WritersAgree(value: string)
    requires 8 as char !in value && 12 as char !in value
    ensures EscapeAll(Script, value) == EscapeAll(Native, value)
  {
    if value != [] {
      assert value[0] in value;
      WritersAgree(value[1..]);
    }
  }

  /** No control character, in particular no newline, is ever written raw. */
  ghost predicate Plain(s: string)
  {
    forall i :: 0 <= i < |s| ==> s[i] >= ' '
  }

  lemma {:induction false} EscapedIsPlain(w: Writer, value: string)
    ensures Plain(EscapeAll(w, value))
  {
    if value != [] {
      EscapedIsPlain(w, value[1..]);
    }
  }

  // ---------------------------------------------------------------- values

  /** A number keeps its literal. */
  datatype Value =
    | JNull
    | JBool(b: bool)
    | JNumber(literal: string)
    | JString(text: string)
    | JArray(elements: seq<Value>)
    | JObject(members: seq<Member>)

  datatype Member = Member(name: string, value: Value)

  function Print(w: Writer, v: Value): string
    decreases v
  {
    match v
    case JNull => "null"
    case JBool(b) => if b then "true" else "false"
    case JNumber(literal) => literal
    case JString(text) => Quoted(w, text)
    case JArray(elements) => "[" + PrintElements(w, elements) + "]"
    case JObject(members) => "{" + PrintMembers(w, members) + "}"
  }

  function PrintElements(w: Writer, vs: seq<Value>): string
    decreases vs
  {
    if vs == [] then ""
    else if |vs| == 1 then Print(w, vs[0])
    else Print(w, vs[0]) + "," + PrintElements(w, vs[1..])
  }

  function PrintMembers(w: Writer, ms: seq<Member>): string
    decreases ms
  {
    if ms == [] then ""
    else if |ms| == 1 then PrintMember(w, ms[0])
    else PrintMember(w, ms[0]) + "," + PrintMembers(w, ms[1..])
  }

  function PrintMember(w: Writer, m: Member): string
    decreases m
  {
    Quoted(w, m.name) + ":" + Print(w, m.value)
  }

  // ---------------------------------------------------------------- reading values

  function SkipBlanks(s: string): (r: string)
    ensures |r| <= |s|
  {
    if s != [] && (s[0] == ' ' || s[0] == '\t' || s[0] == '\n' || s[0] == '\r') then SkipBlanks(s[1..]) else s
  }

  predicate IsDigit(c: char)
  {
    '0' <= c <= '9'
  }

  /** How many digits `s` starts with. */
  function Digits(s: string): (n: nat)
    ensures n <= |s|
  {
    if s == [] || !IsDigit(s[0]) then 0 else 1 + Digits(s[1..])
  }

  /** The rest after the integer part of a number: no leading zero but zero itself. */
  function IntegerPart(s: string): Option<string>
  {
    if s == [] || !IsDigit(s[0]) then None
    else if s[0] == '0' then Some(s[1..])
    else Some(s[Digits(s)..])
  }

  function FractionPart(s: string): Option<string>
  {
    if s == [] || s[0] != '.' then Some(s)
    else if Digits(s[1..]) == 0 then None
    else Some(s[1..][Digits(s[1..])..])
  }

  function ExponentPart(s: string): Option<string>
  {
    if s == [] || (s[0] != 'e' && s[0] != 'E') then Some(s)
    else
      var t := if |s| > 1 && (s[1] == '+' || s[1] == '-') then s[2..] else s[1..];
      if Digits(t) == 0 then None else Some(t[Digits(t)..])
  }

  /** The grammar of numbers in section 6 of RFC 8259. */
  predicate IsNumber(s: string)
  {
    var afterSign := if s != [] && s[0] == '-' then s[1..] else s;
    var afterInteger := IntegerPart(afterSign);
    afterInteger.Some? &&
    var afterFraction := FractionPart(afterInteger.value);
    afterFraction.Some? && ExponentPart(afterFraction.value) == Some("")
  }

  predicate InNumber(c: char)
  {
    IsDigit(c) || c == '-' || c == '+' || c == '.' || c == 'e' || c == 'E'
  }

  function NumberLength(s: string): (n: nat)
    ensures n <= |s|
  {
    if s == [] || !InNumber(s[0]) then 0 else 1 + NumberLength(s[1..])
  }

  function ParseNumber(s: string): (r: Option<(Value, string)>)
    ensures r.Some? ==> |r.value.1| < |s|
  {
    var n := NumberLength(s);
    if n > 0 && IsNumber(s[..n]) then Some((JNumber(s[..n]), s[n..])) else None
  }

  function ParseWord(s: string, word: string, v: Value): (r: Option<(Value, string)>)
    requires word != []
    ensures r.Some? ==> |r.value.1| < |s|
  {
    if word <= s then Some((v, s[|word|..])) else None
  }

  function ParseValue(s: string): (r: Option<(Value, string)>)
    ensures r.Some? ==> |r.value.1| < |s|
    decreases |s|, 1
  {
    var t := SkipBlanks(s);
    if t == [] then None
    else if InNumber(t[0]) then ParseNumber(t)
    else if t[0] == '"' then
      var text := ParseChars(t[1..]);
      if text.None? then None else Some((JString(text.value.0), text.value.1))
    else if t[0] == '[' then
      var u := SkipBlanks(t[1..]);
      if u != [] && u[0] == ']' then Some((JArray([]), u[1..]))
      else
        var list := ParseElements(u);
        if list.None? then None else Some((JArray(list.value.0), list.value.1))
    else if t[0] == '{' then
      var u := SkipBlanks(t[1..]);
      if u != [] && u[0] == '}' then Some((JObject([]), u[1..]))
      else
        var list := ParseMembers(u);
        if list.None? then None else Some((JObject(list.value.0), list.value.1))
    else if t[0] == 't' then ParseWord(t, "true", JBool(true))
    else if t[0] == 'f' then ParseWord(t, "false", JBool(false))
    else if t[0] == 'n' then ParseWord(t, "null", JNull)
    else None
  }

  /** At least one element, then the closing bracket. */
  function ParseElements(s: string): (r: Option<(seq<Value>, string)>)
    ensures r.Some? ==> |r.value.1| < |s|
    decreases |s|, 2
  {
    var first := ParseValue(s);
    if first.None? then None
    else
      var t := SkipBlanks(first.value.1);
      if t != [] && t[0] == ']' then Some(([first.value.0], t[1..]))
      else if t != [] && t[0] == ',' then
        var more := ParseElements(t[1..]);
        if more.None? then None else Some(([first.value.0] + more.value.0, more.value.1))
      else None
  }

  function ParseMember(s: string): (r: Option<(Member, string)>)
    ensures r.Some? ==> |r.value.1| < |s|
    decreases |s|, 2
  {
    var t := SkipBlanks(s);
    if t == [] || t[0] != '"' then None
    else
      var name := ParseChars(t[1..]);
      if name.None? then None
      else
        var u := SkipBlanks(name.value.1);
        if u == [] || u[0] != ':' then None
        else
          var v := ParseValue(u[1..]);
          if v.None? then None else Some((Member(name.value.0, v.value.0), v.value.1))
  }

  function ParseMembers(s: string): (r: Option<(seq<Member>, string)>)
    ensures r.Some? ==> |r.value.1| < |s|
    decreases |s|, 3
  {
    var first := ParseMember(s);
    if first.None? then None
    else
      var t := SkipBlanks(first.value.1);
      if t != [] && t[0] == '}' then Some(([first.value.0], t[1..]))
      else if t != [] && t[0] == ',' then
        var more := ParseMembers(t[1..]);
        if more.None? then None else Some(([first.value.0] + more.value.0, more.value.1))
      else None
  }

  /** A whole document: one value, with nothing but blanks after it. */
  function Parse(s: string): Option<Value>
  {
    var v := ParseValue(s);
    if v.Some? && SkipBlanks(v.value.1) == [] then Some(v.value.0) else None
  }

  // ---------------------------------------------------------------- the round trip

  /** Every number literal in it is a number of JSON. */
  ghost predicate Printable(v: Value)
    decreases v
  {
    match v
    case JNumber(literal) => IsNumber(literal) && NumberLength(literal) == |literal|
    case JArray(elements) => forall i :: 0 <= i < |elements| ==> Printable(elements[i])
    case JObject(members) => forall i :: 0 <= i < |members| ==> Printable(members[i].value)
    case _ => true
  }

  /** What may follow a printed value: anything that cannot be taken for more of a number. */
  predicate Ends(rest: string)
  {
    rest == [] || !InNumber(rest[0])
  }

  lemma {:induction false} NumberEnds(literal: string, rest: string)
    requires NumberLength(literal) == |literal| && Ends(rest)
    ensures NumberLength(literal + rest) == |literal|
  {
    if literal == [] {
      assert literal + rest == rest;
    } else {
      NumberEnds(literal[1..], rest);
      assert (literal + rest)[1..] == literal[1..] + rest;
    }
  }

  lemma PrintStarts(w: Writer, v: Value)
    requires Printable(v)
    ensures Print(w, v) != []
    ensures Print(w, v)[0] > ' ' && Print(w, v)[0] != ']' && Print(w, v)[0] != '}' && Print(w, v)[0] != ','
  {
    if v.JNumber? {
      assert NumberLength(v.literal) == |v.literal|;
    }
  }

  lemma ReadNumber(s: string)
    requires s != [] && InNumber(s[0])
    ensures ParseValue(s) == ParseNumber(s)
  {
    assert SkipBlanks(s) == s;
  }

  lemma NumberRoundTrip(w: Writer, v: Value, rest: string)
    requires v.JNumber? && Printable(v) && Ends(rest)
    ensures ParseValue(Print(w, v) + rest) == Some((v, rest))
  {
    var s := v.literal + rest;
    assert v.literal != [] && InNumber(v.literal[0]);
    assert s[0] == v.literal[0];
    ReadNumber(s);
    NumberEnds(v.literal, rest);
    assert s[..|v.literal|] == v.literal && s[|v.literal|..] == rest;
  }

  lemma WordRoundTrip(w: Writer, v: Value, rest: string)
    requires v.JNull? || v.JBool?
    ensures ParseValue(Print(w, v) + rest) == Some((v, rest))
  {
    var s := Print(w, v) + rest;
    assert s[0] == Print(w, v)[0];
    assert s[|Print(w, v)|..] == rest;
  }

  lemma QuotedIsRead(w: Writer, text: string, rest: string)
    ensures var s := Quoted(w, text) + rest;
      s != [] && s[0] == '"' && ParseChars(s[1..]) == Some((text, rest))
  {
    var s := Quoted(w, text) + rest;
    assert s[1..] == EscapeAll(w, text) + "\"" + rest;
    StringRoundTrip(w, text, rest);
  }

  lemma ReadString(w: Writer, text: string, rest: string)
    ensures ParseValue(Quoted(w, text) + rest) == Some((JString(text), rest))
  {
    QuotedIsRead(w, text, rest);
  }

  lemma ReadArray(u: string, vs: seq<Value>, rest: string)
    requires u != [] && u[0] > ' ' && u[0] != ']' && ParseElements(u) == Some((vs, rest))
    ensures ParseValue("[" + u) == Some((JArray(vs), rest))
  {
    assert ("[" + u)[1..] == u;
  }

  lemma ReadEmptyArray(rest: string)
    ensures ParseValue("[" + ("]" + rest)) == Some((JArray([]), rest))
  {
    assert ("[" + ("]" + rest))[1..] == "]" + rest && ("]" + rest)[1..] == rest;
  }

  lemma ReadObject(u: string, ms: seq<Member>, rest: string)
    requires u != [] && u[0] == '"' && ParseMembers(u) == Some((ms, rest))
    ensures ParseValue("{" + u) == Some((JObject(ms), rest))
  {
    assert ("{" + u)[1..] == u;
  }

  lemma ReadEmptyObject(rest: string)
    ensures ParseValue("{" + ("}" + rest)) == Some((JObject([]), rest))
  {
    assert ("{" + ("}" + rest))[1..] == "}" + rest && ("}" + rest)[1..] == rest;
  }

  lemma ReadLastElement(s: string, v: Value, rest: string)
    requires ParseValue(s) == Some((v, "]" + rest))
    ensures ParseElements(s) == Some(([v], rest))
  {
    assert ("]" + rest)[1..] == rest;
  }

  lemma ReadElement(s: string, v: Value, more: string, vs: seq<Value>, rest: string)
    requires ParseValue(s) == Some((v, "," + more)) && ParseElements(more) == Some((vs, rest))
    ensures ParseElements(s) == Some(([v] + vs, rest))
  {
    assert ("," + more)[1..] == more;
  }

  lemma ReadMember(w: Writer, name: string, after: string, v: Value, rest: string)
    requires ParseValue(after) == Some((v, rest))
    ensures ParseMember(Quoted(w, name) + (":" + after)) == Some((Member(name, v), rest))
  {
    QuotedIsRead(w, name, ":" + after);
    assert (":" + after)[1..] == after;
  }

  lemma ReadLastMember(s: string, m: Member, rest: string)
    requires ParseMember(s) == Some((m, "}" + rest))
    ensures ParseMembers(s) == Some(([m], rest))
  {
    assert ("}" + rest)[1..] == rest;
  }

  lemma ReadMemberAndMore(s: string, m: Member, more: string, ms: seq<Member>, rest: string)
    requires ParseMember(s) == Some((m, "," + more)) && ParseMembers(more) == Some((ms, rest))
    ensures ParseMembers(s) == Some(([m] + ms, rest))
  {
    assert ("," + more)[1..] == more;
  }

  /** Reading what was printed gives the value back and stops exactly at its end, for every value
      and whatever follows it. */
  lemma {:induction false} ValueRoundTrip(w: Writer, v: Value, rest: string)
    requires Printable(v) && Ends(rest)
    ensures ParseValue(Print(w, v) + rest) == Some((v, rest))
    decreases v
  {
    match v {
      case JNumber(_) => NumberRoundTrip(w, v, rest);
      case JString(text) => ReadString(w, text, rest);
      case JArray(elements) => ArrayRoundTrip(w, elements, rest);
      case JObject(members) => ObjectRoundTrip(w, members, rest);
      case _ => WordRoundTrip(w, v, rest);
    }
  }

  lemma {:induction false} ArrayRoundTrip(w: Writer, vs: seq<Value>, rest: string)
    requires forall i :: 0 <= i < |vs| ==> Printable(vs[i])
    ensures ParseValue(Print(w, JArray(vs)) + rest) == Some((JArray(vs), rest))
    decreases vs, 1
  {
    var u := PrintElements(w, vs) + ("]" + rest);
    assert Print(w, JArray(vs)) + rest == "[" + u;
    if vs == [] {
      assert u == "]" + rest;
      ReadEmptyArray(rest);
    } else {
      ElementsStart(w, vs, "]" + rest);
      ElementsRoundTrip(w, vs, rest);
      ReadArray(u, vs, rest);
    }
  }

  lemma ElementsStart(w: Writer, vs: seq<Value>, after: string)
    requires vs != [] && Printable(vs[0])
    ensures var s := PrintElements(w, vs) + after; s != [] && s[0] > ' ' && s[0] != ']'
  {
    PrintStarts(w, vs[0]);
    assert PrintElements(w, vs)[0] == Print(w, vs[0])[0];
  }

  lemma MoreElements(w: Writer, vs: seq<Value>, rest: string)
    requires |vs| > 1
    requires var more := PrintElements(w, vs[1..]) + ("]" + rest);
      && ParseValue(Print(w, vs[0]) + ("," + more)) == Some((vs[0], "," + more))
      && ParseElements(more) == Some((vs[1..], rest))
    ensures ParseElements(PrintElements(w, vs) + ("]" + rest)) == Some((vs, rest))
  {
    var more := PrintElements(w, vs[1..]) + ("]" + rest);
    Regroup(Print(w, vs[0]), ",", PrintElements(w, vs[1..]), "]" + rest);
    ReadElement(Print(w, vs[0]) + ("," + more), vs[0], more, vs[1..], rest);
    assert [vs[0]] + vs[1..] == vs;
  }

  lemma {:induction false} ElementsRoundTrip(w: Writer, vs: seq<Value>, rest: string)
    requires vs != [] && forall i :: 0 <= i < |vs| ==> Printable(vs[i])
    ensures ParseElements(PrintElements(w, vs) + ("]" + rest)) == Some((vs, rest))
    decreases vs, 0
  {
    if |vs| == 1 {
      ValueRoundTrip(w, vs[0], "]" + rest);
      ReadLastElement(PrintElements(w, vs) + ("]" + rest), vs[0], rest);
      assert [vs[0]] == vs;
    } else {
      ValueRoundTrip(w, vs[0], "," + (PrintElements(w, vs[1..]) + ("]" + rest)));
      ElementsRoundTrip(w, vs[1..], rest);
      MoreElements(w, vs, rest);
    }
  }

  lemma {:induction false} ObjectRoundTrip(w: Writer, ms: seq<Member>, rest: string)
    requires forall i :: 0 <= i < |ms| ==> Printable(ms[i].value)
    ensures ParseValue(Print(w, JObject(ms)) + rest) == Some((JObject(ms), rest))
    decreases ms, 1
  {
    var u := PrintMembers(w, ms) + ("}" + rest);
    assert Print(w, JObject(ms)) + rest == "{" + u;
    if ms == [] {
      assert u == "}" + rest;
      ReadEmptyObject(rest);
    } else {
      MembersStart(w, ms, "}" + rest);
      MembersRoundTrip(w, ms, rest);
      ReadObject(u, ms, rest);
    }
  }

  lemma MembersStart(w: Writer, ms: seq<Member>, after: string)
    requires ms != []
    ensures var s := PrintMembers(w, ms) + after; s != [] && s[0] == '"'
  {
    assert PrintMember(w, ms[0]) != [] && PrintMember(w, ms[0])[0] == '"';
  }

  lemma Regroup(a: string, b: string, c: string, d: string)
    ensures a + b + c + d == a + (b + (c + d))
  {
  }

  lemma {:induction false} MemberRoundTrip(w: Writer, m: Member, rest: string)
    requires Printable(m.value) && Ends(rest)
    ensures ParseMember(PrintMember(w, m) + rest) == Some((m, rest))
    decreases m, 0
  {
    var name, value := Quoted(w, m.name), Print(w, m.value);
    ValueRoundTrip(w, m.value, rest);
    ReadMember(w, m.name, value + rest, m.value, rest);
    assert PrintMember(w, m) + rest == name + (":" + (value + rest)) by { Regroup(name, ":", value, rest); }
  }

  lemma MoreMembers(w: Writer, ms: seq<Member>, rest: string)
    requires |ms| > 1
    requires var more := PrintMembers(w, ms[1..]) + ("}" + rest);
      && ParseMember(PrintMember(w, ms[0]) + ("," + more)) == Some((ms[0], "," + more))
      && ParseMembers(more) == Some((ms[1..], rest))
    ensures ParseMembers(PrintMembers(w, ms) + ("}" + rest)) == Some((ms, rest))
  {
    var more := PrintMembers(w, ms[1..]) + ("}" + rest);
    Regroup(PrintMember(w, ms[0]), ",", PrintMembers(w, ms[1..]), "}" + rest);
    ReadMemberAndMore(PrintMember(w, ms[0]) + ("," + more), ms[0], more, ms[1..], rest);
    assert [ms[0]] + ms[1..] == ms;
  }

  lemma {:induction false} MembersRoundTrip(w: Writer, ms: seq<Member>, rest: string)
    requires ms != [] && forall i :: 0 <= i < |ms| ==> Printable(ms[i].value)
    ensures ParseMembers(PrintMembers(w, ms) + ("}" + rest)) == Some((ms, rest))
    decreases ms, 0
  {
    if |ms| == 1 {
      MemberRoundTrip(w, ms[0], "}" + rest);
      ReadLastMember(PrintMembers(w, ms) + ("}" + rest), ms[0], rest);
      assert [ms[0]] == ms;
    } else {
      MemberRoundTrip(w, ms[0], "," + (PrintMembers(w, ms[1..]) + ("}" + rest)));
      MembersRoundTrip(w, ms[1..], rest);
      MoreMembers(w, ms, rest);
    }
  }

  /** `JSON.parse` of a printed document is the document. */
  lemma DocumentRoundTrip(w: Writer, v: Value)
    requires Printable(v)
    ensures Parse(Print(w, v)) == Some(v)
  {
    ValueRoundTrip(w, v, "");
    assert Print(w, v) + "" == Print(w, v);
  }

  // ---------------------------------------------------------------- no raw control characters

  lemma {:induction false} NumberIsPlain(s: string)
    requires NumberLength(s) == |s|
    ensures Plain(s)
  {
    if s != [] {
      NumberIsPlain(s[1..]);
    }
  }

  lemma QuotedIsPlain(w: Writer, value: string)
    ensures Plain(Quoted(w, value))
  {
    EscapedIsPlain(w, value);
  }

  /** A printed value is one line: it contains no newline, nor any other control character. */
  lemma {:induction false} PrintIsPlain(w: Writer, v: Value)
    requires Printable(v)
    ensures Plain(Print(w, v))
    decreases v
  {
    match v {
      case JNumber(literal) => NumberIsPlain(literal);
      case JString(text) => QuotedIsPlain(w, text);
      case JArray(elements) => ElementsArePlain(w, elements);
      case JObject(members) => MembersArePlain(w, members);
      case _ =>
    }
  }

  lemma {:induction false} ElementsArePlain(w: Writer, vs: seq<Value>)
    requires forall i :: 0 <= i < |vs| ==> Printable(vs[i])
    ensures Plain(PrintElements(w, vs))
    decreases vs
  {
    if vs != [] {
      PrintIsPlain(w, vs[0]);
      ElementsArePlain(w, vs[1..]);
    }
  }

  lemma {:induction false} MembersArePlain(w: Writer, ms: seq<Member>)
    requires forall i :: 0 <= i < |ms| ==> Printable(ms[i].value)
    ensures Plain(PrintMembers(w, ms))
    decreases ms
  {
    if ms != [] {
      QuotedIsPlain(w, ms[0].name);
      PrintIsPlain(w, ms[0].value);
      assert Plain(PrintMember(w, ms[0]));
      MembersArePlain(w, ms[1..]);
    }
  }
}
