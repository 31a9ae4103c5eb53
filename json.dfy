/**
 * JSON values as the client sees them after `response.json()`: JavaScript
 * values built from null, booleans, numbers, strings, arrays and plain
 * objects. Numbers are integers here. An object is its member list in
 * insertion order; objects coming out of `JSON.parse` have distinct keys.
 */
module Json {
  import opened Results

  datatype Json =
    | JNull
    | JBool(b: bool)
    | JNum(n: int)
    | JStr(s: string)
    | JArr(items: seq<Json>)
    | JObj(members: seq<(string, Json)>)

  /** `value.key` on a plain object: the member named `key`, or `undefined` (None). */
  function Get(members: seq<(string, Json)>, key: string): (r: Option<Json>)
    ensures r.Some? <==> exists i :: 0 <= i < |members| && members[i].0 == key
    ensures r.Some? ==> exists i :: 0 <= i < |members| && members[i] == (key, r.value)
  {
    if members == [] then None
    else if members[0].0 == key then Some(members[0].1)
    else
      var r := Get(members[1..], key);
      assert forall i :: 1 <= i < |members| ==> members[i] == members[1..][i - 1];
      r
  }

  /**
   * `{...members, [key]: v}`: an existing member keeps its place and takes the
   * new value; otherwise the member is added at the end.
   */
  function Put(members: seq<(string, Json)>, key: string, v: Json): (r: seq<(string, Json)>)
    ensures Get(r, key) == Some(v)
    ensures forall k :: k != key ==> Get(r, k) == Get(members, k)
  {
    if members == [] then [(key, v)]
    else if members[0].0 == key then [(key, v)] + members[1..]
    else [members[0]] + Put(members[1..], key, v)
  }

  /** JavaScript truthiness of a property read; `undefined` (None) is falsy. */
  predicate Truthy(v: Option<Json>) {
    match v
    case None => false
    case Some(JNull) => false
    case Some(JBool(b)) => b
    case Some(JNum(n)) => n != 0
    case Some(JStr(s)) => s != ""
    case Some(JArr(_)) => true
    case Some(JObj(_)) => true
  }

  // ---------------------------------------------------------------------------
  // JSON.stringify(value, null, 2)
  // ---------------------------------------------------------------------------

  function Digit(d: nat): char
    requires d < 10
  {
    "0123456789"[d]
  }

  function NatToString(n: nat): (r: string)
    ensures r != []
  {
    if n < 10 then [Digit(n)] else NatToString(n / 10) + [Digit(n % 10)]
  }

  function IntToString(n: int): string {
    if n < 0 then "-" + NatToString(-n) else NatToString(n)
  }

  function HexDigit(d: nat): char
    requires d < 16
  {
    "0123456789abcdef"[d]
  }

  /** The escape JSON.stringify writes for one character of a string. */
  function EscapeChar(c: char): string {
    if c == '"' then "\\\""
    else if c == '\\' then "\\\\"
    else if c as int == 0x08 then "\\b"
    else if c as int == 0x0C then "\\f"
    else if c == '\n' then "\\n"
    else if c == '\r' then "\\r"
    else if c == '\t' then "\\t"
    else if c as int < 0x20 then "\\u00" + [HexDigit(c as int / 16), HexDigit(c as int % 16)]
    else [c]
  }

  function Escape(s: string): string {
    if s == [] then [] else EscapeChar(s[0]) + Escape(s[1..])
  }

  function Quote(s: string): string {
    "\"" + Escape(s) + "\""
  }

  function Join(parts: seq<string>, sep: string): string {
    if parts == [] then []
    else if |parts| == 1 then parts[0]
    else parts[0] + sep + Join(parts[1..], sep)
  }

  /** The pretty-printed text of `j`, written at nesting `indent` (two spaces per level). */
  function Pretty(j: Json, indent: string): string
    decreases j
  {
    match j
    case JNull => "null"
    case JBool(b) => if b then "true" else "false"
    case JNum(n) => IntToString(n)
    case JStr(s) => Quote(s)
    case JArr(items) =>
      if items == [] then "[]"
      else
        var inner := indent + "  ";
        var parts := seq(|items|, i requires 0 <= i < |items| => inner + Pretty(items[i], inner));
        "[\n" + Join(parts, ",\n") + "\n" + indent + "]"
    case JObj(members) =>
      if members == [] then "{}"
      else
        var inner := indent + "  ";
        var parts := seq(|members|, i requires 0 <= i < |members| =>
          inner + Quote(members[i].0) + ": " + Pretty(members[i].1, inner));
        "{\n" + Join(parts, ",\n") + "\n" + indent + "}"
  }

  /** A character JSON prints as itself inside a string. */
  predicate IsPlain(c: char) { c != '"' && c != '\\' && c as int >= 0x20 }

  /** A string of plain characters is printed unchanged between its quotes. */
  lemma {:induction false} EscapePlain(s: string)
    requires forall i :: 0 <= i < |s| ==> IsPlain(s[i])
    ensures Escape(s) == s
    ensures Quote(s) == "\"" + s + "\""
    decreases |s|
  {
    if s != [] {
      EscapePlain(s[1..]);
      assert [s[0]] + s[1..] == s;
    }
  }

  // ---------------------------------------------------------------------------
  // Reading printed text back, as JSON.parse does
  // ---------------------------------------------------------------------------

  predicate IsDigit(c: char) { '0' <= c <= '9' }

  function DigitValue(c: char): nat
    requires IsDigit(c)
  {
    c as int - '0' as int
  }

  /** The number a run of decimal digits spells. */
  function ParseNat(s: string): nat
    requires forall i :: 0 <= i < |s| ==> IsDigit(s[i])
    decreases |s|
  {
    if s == [] then 0 else ParseNat(s[..|s| - 1]) * 10 + DigitValue(s[|s| - 1])
  }

  /** Printed numbers are digit runs that read back as the number printed. */
  lemma {:induction false} NatToStringRoundTrip(n: nat)
    ensures forall i :: 0 <= i < |NatToString(n)| ==> IsDigit(NatToString(n)[i])
    ensures ParseNat(NatToString(n)) == n
  {
    if n >= 10 {
      NatToStringRoundTrip(n / 10);
      var r := NatToString(n);
      assert r[..|r| - 1] == NatToString(n / 10);
    }
  }

  function HexValue(c: char): nat {
    if '0' <= c <= '9' then c as int - '0' as int
    else if 'a' <= c <= 'f' then c as int - 'a' as int + 10
    else 0
  }

  lemma HexDigitValue(d: nat)
    requires d < 16
    ensures HexValue(HexDigit(d)) == d
  {
  }

  function HexQuad(h: string): nat
    requires |h| == 4
  {
    HexValue(h[0]) * 4096 + HexValue(h[1]) * 256 + HexValue(h[2]) * 16 + HexValue(h[3])
  }

  /** A `\\u` value that is a character here: lone surrogate halves are not Dafny characters. */
  predicate IsCodeUnit(v: nat) { v < 0xD800 || 0xE000 <= v < 0x11_0000 }

  /** Reads one JSON string escape, or one plain character, off the front of `t`. */
  function UnescapeOne(t: string): (r: (char, nat))
    requires t != []
    ensures 1 <= r.1 <= |t|
  {
    if t[0] != '\\' || |t| == 1 then (t[0], 1)
    else if t[1] == '"' then ('"', 2)
    else if t[1] == '\\' then ('\\', 2)
    else if t[1] == 'b' then (0x08 as char, 2)
    else if t[1] == 'f' then (0x0C as char, 2)
    else if t[1] == 'n' then ('\n', 2)
    else if t[1] == 'r' then ('\r', 2)
    else if t[1] == 't' then ('\t', 2)
    else if t[1] == 'u' && |t| >= 6 && IsCodeUnit(HexQuad(t[2..6])) then (HexQuad(t[2..6]) as char, 6)
    else (t[0], 1)
  }

  /** The string a JSON string literal's body denotes. */
  function Unescape(t: string): string
    decreases |t|
  {
    if t == [] then []
    else
      var (c, n) := UnescapeOne(t);
      [c] + Unescape(t[n..])
  }

  lemma EscapeCharReadsBack(c: char, rest: string)
    ensures EscapeChar(c) != [] && UnescapeOne(EscapeChar(c) + rest) == (c, |EscapeChar(c)|)
  {
    var e := EscapeChar(c);
    if c != '"' && c != '\\' && c as int != 0x08 && c as int != 0x0C && c != '\n' && c != '\r' && c != '\t'
       && c as int < 0x20 {
      HexDigitValue(c as int / 16);
      HexDigitValue(c as int % 16);
      assert (e + rest)[2] == '0' && (e + rest)[3] == '0';
      assert (e + rest)[4] == HexDigit(c as int / 16) && (e + rest)[5] == HexDigit(c as int % 16);
    }
  }

  /** Reading an escaped string back gives the original string: `JSON.parse(JSON.stringify(s)) == s`. */
  lemma {:induction false} EscapeRoundTrip(s: string)
    ensures Unescape(Escape(s)) == s
    decreases |s|
  {
    if s != [] {
      var e := EscapeChar(s[0]);
      EscapeCharReadsBack(s[0], Escape(s[1..]));
      assert (e + Escape(s[1..]))[|e|..] == Escape(s[1..]);
      EscapeRoundTrip(s[1..]);
    }
  }

  /** `JSON.stringify(j, null, 2)` */
  function Stringify(j: Json): string {
    Pretty(j, "")
  }
}
