/** JSON values as JavaScript's `JSON.stringify` writes them and `JSON.parse`
    reads them back, and property access on a parsed value. Numbers are
    integers here; see README for what that leaves out. */
module Json {
  import opened Wrappers
  import opened JsStrings

  datatype Json =
    | Null
    | Bool(b: bool)
    | Num(n: int)
    | Str(s: string)
    | Arr(items: seq<Json>)
    | Obj(fields: seq<Field>)

  /** One member of an object, in the order the object was written. */
  datatype Field = Field(key: string, value: Json)

  // ---------------------------------------------------------------------
  // Property access
  // ---------------------------------------------------------------------

  /** `o[key]` on an object read by `JSON.parse`: the value of the LAST
      member with that key (a later duplicate overwrites an earlier one), or
      `undefined` when no member has it. */
  function Get(fields: seq<Field>, key: string): (r: Option<Json>)
    ensures r.None? <==> forall i :: 0 <= i < |fields| ==> fields[i].key != key
    ensures r.Some? ==> exists i :: 0 <= i < |fields| && fields[i] == Field(key, r.value) &&
                                    forall j :: i < j < |fields| ==> fields[j].key != key
  {
    if |fields| == 0 then None
    else if fields[|fields| - 1].key == key then Some(fields[|fields| - 1].value)
    else
      var init := fields[..|fields| - 1];
      var r := Get(init, key);
      GetExtends(fields, key, r);
      r
  }

  /** A member found before the last one is still the last with its key
      when the last member has another key. */
  lemma GetExtends(fields: seq<Field>, key: string, r: Option<Json>)
    requires |fields| > 0 && fields[|fields| - 1].key != key
    requires var init := fields[..|fields| - 1];
      && (r.None? <==> forall i :: 0 <= i < |init| ==> init[i].key != key)
      && (r.Some? ==> exists i :: 0 <= i < |init| && init[i] == Field(key, r.value) &&
                                  forall j :: i < j < |init| ==> init[j].key != key)
    ensures r.None? <==> forall i :: 0 <= i < |fields| ==> fields[i].key != key
    ensures r.Some? ==> exists i :: 0 <= i < |fields| && fields[i] == Field(key, r.value) &&
                                    forall j :: i < j < |fields| ==> fields[j].key != key
  {
    var init := fields[..|fields| - 1];
    assert forall i :: 0 <= i < |init| ==> init[i] == fields[i];
    if r.Some? {
      var i :| 0 <= i < |init| && init[i] == Field(key, r.value) &&
               forall j :: i < j < |init| ==> init[j].key != key;
      assert fields[i] == Field(key, r.value);
      assert forall j :: i < j < |fields| ==> fields[j].key != key;
    }
  }

  /** Reading a property of `undefined` or `null` throws a TypeError. */
  datatype PropError = CannotReadProperty(key: string)

  /** `v[key]` as JavaScript evaluates it for the keys the modelled code
      reads (`action`, `observation`, `name`, `args` and `length`), `None`
      standing for `undefined`: an object gives its own member, a string or
      an array answers `length`, none of these keys is a property of a
      number or boolean, and `undefined` or `null` throws. Index keys and
      inherited members such as `toString` are outside this model. */
  function Prop(v: Option<Json>, key: string): (r: Result<Option<Json>, PropError>)
    ensures r.Err? <==> v.None? || v.value.Null?
    ensures r.Err? ==> r.error == CannotReadProperty(key)
    ensures v.Some? && v.value.Obj? ==> r == Ok(Get(v.value.fields, key))
  {
    match v
    case None => Err(CannotReadProperty(key))
    case Some(Null) => Err(CannotReadProperty(key))
    case Some(Obj(fields)) => Ok(Get(fields, key))
    case Some(Str(s)) => Ok(if key == "length" then Some(Num(|s|)) else None)
    case Some(Arr(items)) => Ok(if key == "length" then Some(Num(|items|)) else None)
    case Some(_) => Ok(None)
  }

  /** JavaScript truthiness of a defined JSON value. */
  predicate Truthy(v: Json) {
    match v
    case Null => false
    case Bool(b) => b
    case Num(n) => n != 0
    case Str(s) => s != ""
    case Arr(_) => true
    case Obj(_) => true
  }

  // ---------------------------------------------------------------------
  // JSON.stringify(value, null, space)
  // ---------------------------------------------------------------------

  function Spaces(n: nat): (r: string)
    ensures |r| == n && forall i :: 0 <= i < n ==> r[i] == ' '
  {
    if n == 0 then "" else " " + Spaces(n - 1)
  }

  /** `JSON.stringify(v, null, space)`: compact when `space` is 0, otherwise
      every array element and object member on its own line, indented by
      `space` more spaces per level (at most 10, as the standard clamps it). */
  function Stringify(v: Json, space: nat): string {
    Ser(v, Spaces(if space > 10 then 10 else space), "")
  }

  /** Line break before an element when a gap is in use. */
  function Break(gap: string, indent: string): string {
    if gap == "" then "" else "\n" + indent
  }

  function Ser(v: Json, gap: string, indent: string): string
    decreases v
  {
    match v
    case Null => "null"
    case Bool(b) => if b then "true" else "false"
    case Num(n) => IntToString(n)
    case Str(s) => Quote(s)
    case Arr(items) =>
      if |items| == 0 then "[]"
      else "[" + Break(gap, indent + gap) + SerItems(items, gap, indent + gap) + Break(gap, indent) + "]"
    case Obj(fields) =>
      if |fields| == 0 then "{}"
      else "{" + Break(gap, indent + gap) + SerFields(fields, gap, indent + gap) + Break(gap, indent) + "}"
  }

  function SerItems(items: seq<Json>, gap: string, indent: string): string
    requires |items| > 0
    decreases items
  {
    Ser(items[0], gap, indent) +
      (if |items| == 1 then "" else "," + Break(gap, indent) + SerItems(items[1..], gap, indent))
  }

  function SerFields(fields: seq<Field>, gap: string, indent: string): string
    requires |fields| > 0
    decreases fields
  {
    SerField(fields[0], gap, indent) +
      (if |fields| == 1 then "" else "," + Break(gap, indent) + SerFields(fields[1..], gap, indent))
  }

  function SerField(f: Field, gap: string, indent: string): string
    decreases f
  {
    Quote(f.key) + ":" + (if gap == "" then "" else " ") + Ser(f.value, gap, indent)
  }

  function HexDigit(d: nat): char
    requires d < 16
  {
    "0123456789abcdef"[d]
  }

  /** How `JSON.stringify` writes one character inside a string literal:
      quote and backslash escaped, the five short control escapes, any other
      control character as a lower-case `\u00XX`, everything else as is. */
  function EscapeChar(c: char): string {
    if c == '"' then "\\\""
    else if c == '\\' then "\\\\"
    else if c == '\U{8}' then "\\b"
    else if c == '\U{C}' then "\\f"
    else if c == '\n' then "\\n"
    else if c == '\r' then "\\r"
    else if c == '\t' then "\\t"
    else if c < ' ' then "\\u00" + [HexDigit(c as int / 16), HexDigit(c as int % 16)]
    else [c]
  }

  function Escape(s: string): string {
    if s == [] then "" else EscapeChar(s[0]) + Escape(s[1..])
  }

  function Quote(s: string): string {
    "\"" + Escape(s) + "\""
  }

  // ---------------------------------------------------------------------
  // JSON.parse(text); None is the SyntaxError it throws
  // ---------------------------------------------------------------------

  predicate IsJsonWs(c: char) {
    c == ' ' || c == '\t' || c == '\n' || c == '\r'
  }

  predicate AllJsonWs(s: string) {
    forall i :: 0 <= i < |s| ==> IsJsonWs(s[i])
  }

  function SkipWs(s: string): (r: string)
    ensures |r| <= |s|
    ensures r == [] || !IsJsonWs(r[0])
  {
    if |s| > 0 && IsJsonWs(s[0]) then SkipWs(s[1..]) else s
  }

  /** `JSON.parse(text)`: the value the whole text denotes, surrounding
      whitespace allowed; `None` when the text is not JSON. */
  function Parse(text: string): Option<Json> {
    match ParseValue(text)
    case Some((v, rest)) => if SkipWs(rest) == [] then Some(v) else None
    case None => None
  }

  function Literal(t: string, word: string, v: Json): (r: Option<(Json, string)>)
    requires |word| > 0
    ensures r.Some? ==> |r.value.1| < |t|
  {
    if |t| >= |word| && t[..|word|] == word then Some((v, t[|word|..])) else None
  }

  /** The leading value of `s` and the text after it. */
  function ParseValue(s: string): (r: Option<(Json, string)>)
    ensures r.Some? ==> |r.value.1| < |s|
    decreases |s|, 0
  {
    var t := SkipWs(s);
    if |t| == 0 then None
    else if t[0] == 'n' then Literal(t, "null", Null)
    else if t[0] == 't' then Literal(t, "true", Bool(true))
    else if t[0] == 'f' then Literal(t, "false", Bool(false))
    else if t[0] == '"' then
      match ParseStringBody(t[1..])
      case Some((str, rest)) => Some((Str(str), rest))
      case None => None
    else if t[0] == '[' then ParseArray(t[1..])
    else if t[0] == '{' then ParseObject(t[1..])
    else if t[0] == '-' || IsDigit(t[0]) then ParseNumber(t)
    else None
  }

  /** The text after an opening bracket. */
  function ParseArray(s: string): (r: Option<(Json, string)>)
    ensures r.Some? ==> |r.value.1| < |s|
    decreases |s|, 2
  {
    var t := SkipWs(s);
    if |t| > 0 && t[0] == ']' then Some((Arr([]), t[1..]))
    else
      match ParseItems(t)
      case Some((items, rest)) => Some((Arr(items), rest))
      case None => None
  }

  /** One or more comma-separated values and the closing bracket. */
  function ParseItems(s: string): (r: Option<(seq<Json>, string)>)
    ensures r.Some? ==> |r.value.1| < |s|
    decreases |s|, 1
  {
    match ParseValue(s)
    case None => None
    case Some((v, rest)) =>
      var t := SkipWs(rest);
      if |t| == 0 then None
      else if t[0] == ']' then Some(([v], t[1..]))
      else if t[0] == ',' then
        match ParseItems(t[1..])
        case Some((vs, after)) => Some(([v] + vs, after))
        case None => None
      else None
  }

  /** The text after an opening brace. */
  function ParseObject(s: string): (r: Option<(Json, string)>)
    ensures r.Some? ==> |r.value.1| < |s|
    decreases |s|, 2
  {
    var t := SkipWs(s);
    if |t| > 0 && t[0] == '}' then Some((Obj([]), t[1..]))
    else
      match ParseFields(t)
      case Some((fields, rest)) => Some((Obj(fields), rest))
      case None => None
  }

  /** One member: a string key, a colon and a value. */
  function ParseMember(s: string): (r: Option<(Field, string)>)
    ensures r.Some? ==> |r.value.1| < |s|
    decreases |s|, 0
  {
    var t := SkipWs(s);
    if |t| == 0 || t[0] != '"' then None
    else
      match ParseStringBody(t[1..])
      case None => None
      case Some((key, r1)) =>
        var u := SkipWs(r1);
        if |u| == 0 || u[0] != ':' then None
        else
          match ParseValue(u[1..])
          case None => None
          case Some((v, r2)) => Some((Field(key, v), r2))
  }

  /** One or more comma-separated members and the closing brace. */
  function ParseFields(s: string): (r: Option<(seq<Field>, string)>)
    ensures r.Some? ==> |r.value.1| < |s|
    decreases |s|, 1
  {
    match ParseMember(s)
    case None => None
    case Some((f, rest)) =>
      var t := SkipWs(rest);
      if |t| == 0 then None
      else if t[0] == '}' then Some(([f], t[1..]))
      else if t[0] == ',' then
        match ParseFields(t[1..])
        case Some((fs, after)) => Some(([f] + fs, after))
        case None => None
      else None
  }

  /** The length of the run of decimal digits `s` starts with. */
  function DigitRun(s: string): (n: nat)
    ensures n <= |s|
  {
    if |s| > 0 && IsDigit(s[0]) then 1 + DigitRun(s[1..]) else 0
  }

  lemma DigitRunDigits(s: string)
    ensures AllDigits(s[..DigitRun(s)])
  {
    if |s| > 0 && IsDigit(s[0]) {
      DigitRunDigits(s[1..]);
      assert s[..DigitRun(s)] == [s[0]] + s[1..][..DigitRun(s[1..])];
    }
  }

  /** An optional minus sign and an integer without leading zeros. */
  function ParseNumber(s: string): (r: Option<(Json, string)>)
    ensures r.Some? ==> |r.value.1| < |s|
  {
    var neg := |s| > 0 && s[0] == '-';
    var u := if neg then s[1..] else s;
    var n := DigitRun(u);
    if n == 0 || (n > 1 && u[0] == '0') then None
    else
      DigitRunDigits(u);
      var m: int := DigitsValue(u[..n]);
      Some((Num(if neg then -m else m), u[n..]))
  }

  function HexValue(c: char): Option<nat> {
    if '0' <= c <= '9' then Some(c as int - '0' as int)
    else if 'a' <= c <= 'f' then Some(c as int - 'a' as int + 10)
    else if 'A' <= c <= 'F' then Some(c as int - 'A' as int + 10)
    else None
  }

  function Hex4(h: string): (r: Option<nat>)
    requires |h| == 4
    ensures r.Some? ==> r.value < 0x10000
  {
    match (HexValue(h[0]), HexValue(h[1]), HexValue(h[2]), HexValue(h[3]))
    case (Some(a), Some(b), Some(c), Some(d)) =>
      if a < 16 && b < 16 && c < 16 && d < 16 then Some(((a * 16 + b) * 16 + c) * 16 + d) else None
    case _ => None
  }

  /** One character of a string literal, escaped or not. Escapes of UTF-16
      surrogate halves are refused (characters here are Unicode scalar
      values), and so are raw control characters, as `JSON.parse` does. */
  function ParseChar(s: string): (r: Option<(char, string)>)
    requires |s| > 0
    ensures r.Some? ==> |r.value.1| < |s|
  {
    if s[0] == '\\' then
      if |s| < 2 then None
      else if s[1] == '"' then Some(('"', s[2..]))
      else if s[1] == '\\' then Some(('\\', s[2..]))
      else if s[1] == '/' then Some(('/', s[2..]))
      else if s[1] == 'b' then Some(('\U{8}', s[2..]))
      else if s[1] == 'f' then Some(('\U{C}', s[2..]))
      else if s[1] == 'n' then Some(('\n', s[2..]))
      else if s[1] == 'r' then Some(('\r', s[2..]))
      else if s[1] == 't' then Some(('\t', s[2..]))
      else if s[1] == 'u' && |s| >= 6 then
        match Hex4(s[2..6])
        case Some(code) =>
          if 0xD800 <= code < 0xE000 then None else Some((code as char, s[6..]))
        case None => None
      else None
    else if s[0] < ' ' then None
    else Some((s[0], s[1..]))
  }

  /** The characters of a string literal up to its closing quote, and the
      text after that quote. */
  function ParseStringBody(s: string): (r: Option<(string, string)>)
    ensures r.Some? ==> |r.value.1| < |s|
    decreases |s|
  {
    if |s| == 0 then None
    else if s[0] == '"' then Some(("", s[1..]))
    else
      match ParseChar(s)
      case None => None
      case Some((c, rest)) =>
        match ParseStringBody(rest)
        case None => None
        case Some((body, after)) => Some(([c] + body, after))
  }

  // ---------------------------------------------------------------------
  // JSON.parse(JSON.stringify(v, null, space)) == v
  // ---------------------------------------------------------------------

  lemma {:induction false} SkipWsPrefix(w: string, t: string)
    requires AllJsonWs(w)
    ensures SkipWs(w + t) == SkipWs(t)
  {
    if |w| > 0 {
      assert (w + t)[0] == w[0];
      assert (w + t)[1..] == w[1..] + t;
      SkipWsPrefix(w[1..], t);
    } else {
      assert w + t == t;
    }
  }

  lemma ParseValueSkipsWs(w: string, t: string)
    requires AllJsonWs(w)
    ensures ParseValue(w + t) == ParseValue(t)
  {
    SkipWsPrefix(w, t);
  }

  lemma BreakIsWs(gap: string, indent: string)
    requires AllJsonWs(indent)
    ensures AllJsonWs(Break(gap, indent))
  {
  }

  lemma {:induction false} DigitRunOf(p: string, rest: string)
    requires AllDigits(p)
    requires rest == [] || !IsDigit(rest[0])
    ensures DigitRun(p + rest) == |p|
  {
    if |p| > 0 {
      assert (p + rest)[1..] == p[1..] + rest;
      DigitRunOf(p[1..], rest);
    }
  }

  lemma ParseNumberOf(n: int, rest: string)
    requires rest == [] || !IsDigit(rest[0])
    ensures ParseNumber(IntToString(n) + rest) == Some((Num(n), rest))
  {
    if n < 0 {
      NegativeNumberOf(-n, rest);
    } else {
      NaturalNumberOf(n, rest);
    }
  }

  lemma NaturalNumberOf(m: nat, rest: string)
    requires rest == [] || !IsDigit(rest[0])
    ensures ParseNumber(NatToString(m) + rest) == Some((Num(m), rest))
  {
    var u := NatToString(m) + rest;
    ParseDigitsOf(m, rest);
    NumberSteps(u, u, false, |NatToString(m)|, m, rest);
  }

  lemma NegativeNumberOf(m: nat, rest: string)
    requires rest == [] || !IsDigit(rest[0])
    ensures ParseNumber("-" + NatToString(m) + rest) == Some((Num(-(m as int)), rest))
  {
    var s := "-" + NatToString(m) + rest;
    var u := NatToString(m) + rest;
    assert s[0] == '-' && s[1..] == u;
    ParseDigitsOf(m, rest);
    NumberSteps(s, u, true, |NatToString(m)|, m, rest);
  }

  /** The number parser on text laid out as an optional sign, a run of `k`
      digits worth `m`, and the rest. */
  lemma NumberSteps(s: string, u: string, neg: bool, k: nat, m: nat, rest: string)
    requires neg ==> |s| > 0 && s[0] == '-' && s[1..] == u
    requires !neg ==> s == u && (|u| > 0 ==> u[0] != '-')
    requires 0 < k <= |u| && DigitRun(u) == k && (k > 1 ==> u[0] != '0')
    requires AllDigits(u[..k]) && DigitsValue(u[..k]) == m && u[k..] == rest
    ensures ParseNumber(s) == Some((Num(if neg then -(m as int) else m as int), rest))
  {
  }

  /** The digits of a natural number are read back in full, whatever
      non-digit text follows. */
  lemma ParseDigitsOf(m: nat, rest: string)
    requires rest == [] || !IsDigit(rest[0])
    ensures var u := NatToString(m) + rest;
      && DigitRun(u) == |NatToString(m)|
      && u[..|NatToString(m)|] == NatToString(m) && u[|NatToString(m)|..] == rest
      && DigitsValue(NatToString(m)) == m
      && (|NatToString(m)| > 1 ==> u[0] != '0')
      && (|u| > 0 ==> u[0] != '-')
  {
    var p := NatToString(m);
    DigitRunOf(p, rest);
    NatToStringRoundTrip(m);
    assert (p + rest)[0] == p[0];
  }

  lemma HexDigitValue(d: nat)
    requires d < 16
    ensures HexValue(HexDigit(d)) == Some(d)
  {
  }

  lemma {:induction false} ParseEscapedChar(c: char, t: string)
    ensures |EscapeChar(c)| > 0 && EscapeChar(c)[0] != '"'
    ensures ParseChar(EscapeChar(c) + t) == Some((c, t))
  {
    var e := EscapeChar(c);
    var s := e + t;
    if c == '"' || c == '\\' || c == '\U{8}' || c == '\U{C}' || c == '\n' || c == '\r' || c == '\t' {
      assert |e| == 2 && s[0] == e[0] && s[1] == e[1] && s[2..] == t;
    } else if c < ' ' {
      var hi, lo := c as int / 16, c as int % 16;
      HexDigitValue(hi);
      HexDigitValue(lo);
      assert |e| == 6 && s[0] == '\\' && s[1] == 'u' && s[6..] == t;
      assert s[2..6] == ['0', '0', HexDigit(hi), HexDigit(lo)];
    } else {
      assert e == [c] && s[1..] == t;
    }
  }

  lemma {:induction false} ParseQuoted(str: string, rest: string)
    ensures ParseStringBody(Escape(str) + "\"" + rest) == Some((str, rest))
  {
    if str == [] {
      var s := "\"" + rest;
      assert Escape(str) + "\"" + rest == s;
      assert s[0] == '"' && s[1..] == rest;
    } else {
      var tail := Escape(str[1..]) + "\"" + rest;
      EscapeLayout(str, rest);
      ParseEscapedChar(str[0], tail);
      ParseQuoted(str[1..], rest);
      StringBodyStep(EscapeChar(str[0]) + tail, str[0], tail, str[1..], rest);
      assert [str[0]] + str[1..] == str;
    }
  }

  lemma EscapeLayout(str: string, rest: string)
    requires str != []
    ensures Escape(str) + "\"" + rest == EscapeChar(str[0]) + (Escape(str[1..]) + "\"" + rest)
  {
  }

  /** One character of a string literal, then the rest of it. */
  lemma StringBodyStep(s: string, c: char, tail: string, body: string, after: string)
    requires |s| > 0 && s[0] != '"' && ParseChar(s) == Some((c, tail))
    requires ParseStringBody(tail) == Some((body, after))
    ensures ParseStringBody(s) == Some(([c] + body, after))
  {
  }

  /** The first character of a written value: never whitespace, a comma or
      a closing bracket or brace. */
  predicate Opens(c: char) {
    c == 'n' || c == 't' || c == 'f' || c == '"' || c == '[' || c == '{' || c == '-' || IsDigit(c)
  }

  lemma SerOpens(v: Json, gap: string, indent: string)
    ensures |Ser(v, gap, indent)| > 0 && Opens(Ser(v, gap, indent)[0])
  {
    match v
    case Num(n) =>
      if n < 0 {
        assert IntToString(n)[0] == '-';
      }
    case _ =>
  }

  lemma SerItemsOpens(items: seq<Json>, gap: string, indent: string)
    requires |items| > 0
    ensures |SerItems(items, gap, indent)| > 0 && Opens(SerItems(items, gap, indent)[0])
  {
    SerOpens(items[0], gap, indent);
  }

  lemma SerFieldsOpens(fields: seq<Field>, gap: string, indent: string)
    requires |fields| > 0
    ensures |SerFields(fields, gap, indent)| > 0 && SerFields(fields, gap, indent)[0] == '"'
  {
    var q := Quote(fields[0].key);
    assert q[0] == '"';
    assert SerField(fields[0], gap, indent)[0] == q[0];
    assert SerFields(fields, gap, indent)[0] == SerField(fields[0], gap, indent)[0];
  }

  /** Parsing a written value gives it back, with the text that followed it
      untouched (a digit may not follow, or it would extend a number). */
  lemma {:induction false} ParseSer(v: Json, gap: string, indent: string, rest: string)
    requires AllJsonWs(gap) && AllJsonWs(indent)
    requires rest == [] || !IsDigit(rest[0])
    ensures ParseValue(Ser(v, gap, indent) + rest) == Some((v, rest))
    decreases v
  {
    match v
    case Arr(items) =>
      if |items| == 0 {
        ParseEmpty('[', ']', v, rest);
      } else {
        var body := SerItems(items, gap, indent + gap) + Break(gap, indent) + "]" + rest;
        ParseSerItems(items, gap, indent + gap, Break(gap, indent), rest);
        SerArrShape(items, gap, indent, rest);
        BreakIsWs(gap, indent + gap);
        ParseBracketed(Break(gap, indent + gap), body, items, rest);
      }
    case Obj(fields) =>
      if |fields| == 0 {
        ParseEmpty('{', '}', v, rest);
      } else {
        var body := SerFields(fields, gap, indent + gap) + Break(gap, indent) + "}" + rest;
        ParseSerFields(fields, gap, indent + gap, Break(gap, indent), rest);
        SerObjShape(fields, gap, indent, rest);
        BreakIsWs(gap, indent + gap);
        ParseBraced(Break(gap, indent + gap), body, fields, rest);
      }
    case _ =>
      ParseSerScalar(v, gap, indent, rest);
  }

  lemma ParseSerScalar(v: Json, gap: string, indent: string, rest: string)
    requires !v.Arr? && !v.Obj?
    requires rest == [] || !IsDigit(rest[0])
    ensures ParseValue(Ser(v, gap, indent) + rest) == Some((v, rest))
  {
    match v
    case Null => ParseWord("null", Null, rest);
    case Bool(b) => if b { ParseWord("true", v, rest); } else { ParseWord("false", v, rest); }
    case Num(n) => ParseNum(n, rest);
    case Str(str) => ParseStr(str, rest);
  }

  lemma ParseWord(word: string, v: Json, rest: string)
    requires (word == "null" && v == Null) || (word == "true" && v == Bool(true)) || (word == "false" && v == Bool(false))
    ensures ParseValue(word + rest) == Some((v, rest))
  {
    var s := word + rest;
    assert SkipWs(s) == s;
    assert s[..|word|] == word && s[|word|..] == rest;
  }

  lemma ParseStr(str: string, rest: string)
    ensures ParseValue(Quote(str) + rest) == Some((Str(str), rest))
  {
    var s := Quote(str) + rest;
    assert s[0] == '"';
    assert SkipWs(s) == s;
    assert s[1..] == Escape(str) + "\"" + rest;
    ParseQuoted(str, rest);
  }

  lemma ParseNum(n: int, rest: string)
    requires rest == [] || !IsDigit(rest[0])
    ensures ParseValue(IntToString(n) + rest) == Some((Num(n), rest))
  {
    var s := IntToString(n) + rest;
    if n < 0 {
      assert s[0] == '-';
    } else {
      assert s[0] == NatToString(n)[0];
    }
    assert SkipWs(s) == s;
    NumberStarts(s);
    ParseNumberOf(n, rest);
  }

  /** Text starting with a minus sign or a digit is read as a number. */
  lemma NumberStarts(s: string)
    requires |s| > 0 && (s[0] == '-' || IsDigit(s[0])) && SkipWs(s) == s
    ensures ParseValue(s) == ParseNumber(s)
  {
    var c := s[0];
    assert c != 'n' && c != 't' && c != 'f' && c != '"' && c != '[' && c != '{';
  }

  lemma OpenArray(x: string)
    ensures ParseValue("[" + x) == ParseArray(x)
  {
    var a := "[" + x;
    assert a[0] == '[' && a[1..] == x;
    assert SkipWs(a) == a;
    var c := a[0];
    assert c != 'n' && c != 't' && c != 'f' && c != '"';
  }

  lemma OpenObject(x: string)
    ensures ParseValue("{" + x) == ParseObject(x)
  {
    var o := "{" + x;
    assert o[0] == '{' && o[1..] == x;
    assert SkipWs(o) == o;
    var c := o[0];
    assert c != 'n' && c != 't' && c != 'f' && c != '"' && c != '[';
  }

  lemma ClosingAfterWs(w: string, close: char, rest: string)
    requires AllJsonWs(w) && !IsJsonWs(close)
    ensures SkipWs(w + [close] + rest) == [close] + rest
    ensures ([close] + rest)[0] == close && ([close] + rest)[1..] == rest
  {
    SkipWsPrefix(w, [close] + rest);
    assert w + [close] + rest == w + ([close] + rest);
  }

  /** An opening bracket, whitespace, then a list the item parser accepts. */
  lemma ParseBracketed(b: string, body: string, items: seq<Json>, rest: string)
    requires AllJsonWs(b) && |body| > 0 && Opens(body[0])
    requires ParseItems(body) == Some((items, rest))
    ensures ParseValue("[" + b + body) == Some((Arr(items), rest))
  {
    assert "[" + b + body == "[" + (b + body);
    OpenArray(b + body);
    SkipWsPrefix(b, body);
    assert SkipWs(body) == body;
    ArraySteps(b + body, body, items, rest);
  }

  lemma ArraySteps(x: string, body: string, items: seq<Json>, rest: string)
    requires SkipWs(x) == body && |body| > 0 && body[0] != ']'
    requires ParseItems(body) == Some((items, rest))
    ensures ParseArray(x) == Some((Arr(items), rest))
  {
  }

  /** An opening brace, whitespace, then members the member parser accepts. */
  lemma ParseBraced(b: string, body: string, fields: seq<Field>, rest: string)
    requires AllJsonWs(b) && |body| > 0 && body[0] == '"'
    requires ParseFields(body) == Some((fields, rest))
    ensures ParseValue("{" + b + body) == Some((Obj(fields), rest))
  {
    assert "{" + b + body == "{" + (b + body);
    OpenObject(b + body);
    SkipWsPrefix(b, body);
    assert SkipWs(body) == body;
    ObjectSteps(b + body, body, fields, rest);
  }

  lemma ObjectSteps(x: string, body: string, fields: seq<Field>, rest: string)
    requires SkipWs(x) == body && |body| > 0 && body[0] != '}'
    requires ParseFields(body) == Some((fields, rest))
    ensures ParseObject(x) == Some((Obj(fields), rest))
  {
  }

  lemma ParseEmpty(open: char, close: char, v: Json, rest: string)
    requires (open == '[' && close == ']' && v == Arr([])) || (open == '{' && close == '}' && v == Obj([]))
    ensures ParseValue([open, close] + rest) == Some((v, rest))
  {
    var x := [close] + rest;
    assert [open, close] + rest == [open] + x;
    ClosingAfterWs("", close, rest);
    assert "" + [close] + rest == x;
    if open == '[' {
      OpenArray(x);
    } else {
      OpenObject(x);
    }
  }

  /** How a non-empty array is laid out: bracket, break, items, break, bracket. */
  lemma SerArrShape(items: seq<Json>, gap: string, indent: string, rest: string)
    requires |items| > 0
    ensures var body := SerItems(items, gap, indent + gap) + Break(gap, indent) + "]" + rest;
      && Ser(Arr(items), gap, indent) + rest == "[" + Break(gap, indent + gap) + body
      && |body| > 0 && Opens(body[0])
  {
    var items' := SerItems(items, gap, indent + gap);
    SerItemsOpens(items, gap, indent + gap);
    assert (items' + Break(gap, indent) + "]" + rest)[0] == items'[0];
  }

  lemma SerObjShape(fields: seq<Field>, gap: string, indent: string, rest: string)
    requires |fields| > 0
    ensures var body := SerFields(fields, gap, indent + gap) + Break(gap, indent) + "}" + rest;
      && Ser(Obj(fields), gap, indent) + rest == "{" + Break(gap, indent + gap) + body
      && |body| > 0 && body[0] == '"'
  {
    var fields' := SerFields(fields, gap, indent + gap);
    SerFieldsOpens(fields, gap, indent + gap);
    assert (fields' + Break(gap, indent) + "}" + rest)[0] == fields'[0];
  }

  /** The item parser after one value: a closing bracket ends the list. */
  lemma ItemsEnd(s: string, v: Json, w: string, rest: string)
    requires AllJsonWs(w) && ParseValue(s) == Some((v, w + "]" + rest))
    ensures ParseItems(s) == Some(([v], rest))
  {
    ClosingAfterWs(w, ']', rest);
  }

  /** The item parser after one value: a comma, whitespace and more items. */
  lemma ItemsMore(s: string, v: Json, b: string, more: string, vs: seq<Json>, rest: string)
    requires AllJsonWs(b) && ParseValue(s) == Some((v, "," + b + more))
    requires ParseItems(more) == Some((vs, rest))
    ensures ParseItems(s) == Some(([v] + vs, rest))
  {
    CommaThen(b, more);
    ParseItemsSkipsWs(b, more);
  }

  lemma ParseItemsSkipsWs(w: string, t: string)
    requires AllJsonWs(w)
    ensures ParseItems(w + t) == ParseItems(t)
  {
    ParseValueSkipsWs(w, t);
  }

  lemma CommaThen(sp: string, t: string)
    ensures var c := "," + sp + t;
      SkipWs(c) == c && |c| > 0 && c[0] == ',' && c[1..] == sp + t
  {
  }

  /** The member parser after one member: a closing brace ends the object. */
  lemma FieldsEnd(s: string, f: Field, w: string, rest: string)
    requires AllJsonWs(w) && ParseMember(s) == Some((f, w + "}" + rest))
    ensures ParseFields(s) == Some(([f], rest))
  {
    ClosingAfterWs(w, '}', rest);
  }

  lemma FieldsMore(s: string, f: Field, b: string, more: string, fs: seq<Field>, rest: string)
    requires AllJsonWs(b) && ParseMember(s) == Some((f, "," + b + more))
    requires ParseFields(more) == Some((fs, rest))
    ensures ParseFields(s) == Some(([f] + fs, rest))
  {
    CommaThen(b, more);
    ParseFieldsSkipsWs(b, more);
  }

  lemma ParseFieldsSkipsWs(w: string, t: string)
    requires AllJsonWs(w)
    ensures ParseFields(w + t) == ParseFields(t)
  {
    SkipWsPrefix(w, t);
    assert ParseMember(w + t) == ParseMember(t);
  }

  /** How a list of two or more items is laid out. */
  lemma SerItemsShape(items: seq<Json>, gap: string, indent: string, w: string, rest: string)
    requires |items| > 1
    ensures SerItems(items, gap, indent) + w + "]" + rest ==
      Ser(items[0], gap, indent) + ("," + Break(gap, indent) + (SerItems(items[1..], gap, indent) + w + "]" + rest))
  {
  }

  lemma SerFieldsShape(fields: seq<Field>, gap: string, indent: string, w: string, rest: string)
    requires |fields| > 1
    ensures SerFields(fields, gap, indent) + w + "}" + rest ==
      SerField(fields[0], gap, indent) + ("," + Break(gap, indent) + (SerFields(fields[1..], gap, indent) + w + "}" + rest))
  {
  }

  lemma {:induction false} ParseSerItems(items: seq<Json>, gap: string, indent: string, w: string, rest: string)
    requires |items| > 0
    requires AllJsonWs(gap) && AllJsonWs(indent) && AllJsonWs(w)
    ensures ParseItems(SerItems(items, gap, indent) + w + "]" + rest) == Some((items, rest))
    decreases items
  {
    var s := SerItems(items, gap, indent) + w + "]" + rest;
    var first := Ser(items[0], gap, indent);
    if |items| == 1 {
      var closing := w + "]" + rest;
      assert s == first + closing;
      ParseSer(items[0], gap, indent, closing);
      ItemsEnd(s, items[0], w, rest);
      assert [items[0]] == items;
    } else {
      var b := Break(gap, indent);
      var more := SerItems(items[1..], gap, indent) + w + "]" + rest;
      SerItemsShape(items, gap, indent, w, rest);
      ParseSer(items[0], gap, indent, "," + b + more);
      ParseSerItems(items[1..], gap, indent, w, rest);
      SerItemsOpens(items[1..], gap, indent);
      assert more[0] == SerItems(items[1..], gap, indent)[0];
      BreakIsWs(gap, indent);
      ItemsMore(s, items[0], b, more, items[1..], rest);
      assert [items[0]] + items[1..] == items;
    }
  }

  /** A quoted key, a colon, whitespace and a value the value parser accepts. */
  lemma ParseMemberOf(key: string, sp: string, t: string, v: Json, after: string)
    requires AllJsonWs(sp) && ParseValue(t) == Some((v, after))
    ensures ParseMember(Quote(key) + ":" + sp + t) == Some((Field(key, v), after))
  {
    var colon := ":" + sp + t;
    var s := Quote(key) + ":" + sp + t;
    assert s == Quote(key) + colon;
    QuotedThen(key, colon);
    ColonThen(sp, t);
    ParseValueSkipsWs(sp, t);
    MemberSteps(s, key, colon, v, after);
  }

  /** The member parser on a key, a colon and a value, with no whitespace
      before the key or the colon. */
  lemma MemberSteps(s: string, key: string, r1: string, v: Json, after: string)
    requires |s| > 0 && SkipWs(s) == s && s[0] == '"' && ParseStringBody(s[1..]) == Some((key, r1))
    requires |r1| > 0 && SkipWs(r1) == r1 && r1[0] == ':' && ParseValue(r1[1..]) == Some((v, after))
    ensures ParseMember(s) == Some((Field(key, v), after))
  {
  }

  lemma QuotedThen(key: string, x: string)
    ensures var s := Quote(key) + x;
      SkipWs(s) == s && s[0] == '"' && ParseStringBody(s[1..]) == Some((key, x))
  {
    var s := Quote(key) + x;
    assert s == "\"" + (Escape(key) + "\"" + x);
    assert s[1..] == Escape(key) + "\"" + x;
    ParseQuoted(key, x);
  }

  lemma ColonThen(sp: string, t: string)
    ensures var c := ":" + sp + t;
      SkipWs(c) == c && |c| > 0 && c[0] == ':' && c[1..] == sp + t
  {
  }

  /** Parsing a written member gives it back. */
  lemma ParseSerMember(f: Field, gap: string, indent: string, after: string)
    requires AllJsonWs(gap) && AllJsonWs(indent)
    requires after == [] || !IsDigit(after[0])
    ensures ParseMember(SerField(f, gap, indent) + after) == Some((f, after))
  {
    var sp := if gap == "" then "" else " ";
    var t := Ser(f.value, gap, indent) + after;
    SerFieldLayout(f, gap, indent, after);
    ParseSer(f.value, gap, indent, after);
    ParseMemberOf(f.key, sp, t, f.value, after);
  }

  /** A written member is its quoted key, a colon, a space when indenting,
      and its written value. */
  lemma SerFieldLayout(f: Field, gap: string, indent: string, after: string)
    ensures SerField(f, gap, indent) + after ==
      Quote(f.key) + ":" + (if gap == "" then "" else " ") + (Ser(f.value, gap, indent) + after)
  {
  }

  lemma {:induction false} ParseSerFields(fields: seq<Field>, gap: string, indent: string, w: string, rest: string)
    requires |fields| > 0
    requires AllJsonWs(gap) && AllJsonWs(indent) && AllJsonWs(w)
    ensures ParseFields(SerFields(fields, gap, indent) + w + "}" + rest) == Some((fields, rest))
    decreases fields
  {
    var s := SerFields(fields, gap, indent) + w + "}" + rest;
    var first := SerField(fields[0], gap, indent);
    if |fields| == 1 {
      var closing := w + "}" + rest;
      assert s == first + closing;
      ParseSerMember(fields[0], gap, indent, closing);
      FieldsEnd(s, fields[0], w, rest);
      assert [fields[0]] == fields;
    } else {
      var b := Break(gap, indent);
      var more := SerFields(fields[1..], gap, indent) + w + "}" + rest;
      SerFieldsShape(fields, gap, indent, w, rest);
      ParseSerMember(fields[0], gap, indent, "," + b + more);
      ParseSerFields(fields[1..], gap, indent, w, rest);
      SerFieldsOpens(fields[1..], gap, indent);
      assert more[0] == SerFields(fields[1..], gap, indent)[0];
      BreakIsWs(gap, indent);
      FieldsMore(s, fields[0], b, more, fields[1..], rest);
      assert [fields[0]] + fields[1..] == fields;
    }
  }

  /** `JSON.parse(JSON.stringify(v, null, space))` gives `v` back, for every
      indentation. */
  lemma ParseStringify(v: Json, space: nat)
    ensures Parse(Stringify(v, space)) == Some(v)
  {
    var gap := Spaces(if space > 10 then 10 else space);
    ParseSer(v, gap, "", []);
    assert Ser(v, gap, "") + [] == Ser(v, gap, "");
  }
}
