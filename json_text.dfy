/**
 * The JSON text Jackson writes for strings, flat objects and arrays. Strings are escaped the way
 * Jackson's default escaping does it: quote and backslash get a backslash, the control characters
 * backspace, tab, newline, form feed and carriage return get their short escapes, every other
 * control character below 0x20 gets a six-character "\u00XX" escape with upper-case hex, and every
 * other character is written as it is. `Unescape` is the reading a JSON parser makes of such text.
 */
module JsonText {
  import opened Entries

  function HexDigit(d: nat): char
    requires d < 16
  {
    if d < 10 then ('0' as int + d) as char else ('A' as int + d - 10) as char
  }

  predicate IsHex(c: char) {
    '0' <= c <= '9' || 'A' <= c <= 'F' || 'a' <= c <= 'f'
  }

  function HexValue(c: char): (v: nat)
    requires IsHex(c)
    ensures v < 16
  {
    if '0' <= c <= '9' then c as int - '0' as int
    else if 'A' <= c <= 'F' then c as int - 'A' as int + 10
    else c as int - 'a' as int + 10
  }

  /** The JSON text of one character inside a string literal. */
  function EscapeChar(c: char): string {
    if IsPlain(c) then [c]
    else if c == '"' then "\\\""
    else if c == '\\' then "\\\\"
    else if c as int == 0x08 then "\\b"
    else if c as int == 0x09 then "\\t"
    else if c as int == 0x0A then "\\n"
    else if c as int == 0x0C then "\\f"
    else if c as int == 0x0D then "\\r"
    else "\\u00" + [HexDigit(c as int / 16), HexDigit(c as int % 16)]
  }

  function Escape(s: string): string
    decreases |s|
  {
    if s == [] then [] else EscapeChar(s[0]) + Escape(s[1..])
  }

  /** Reads the body of a JSON string literal back, undoing every escape JSON defines. */
  function Unescape(s: string): string
    decreases |s|
  {
    if s == [] then []
    else if s[0] != '\\' || |s| == 1 then [s[0]] + Unescape(s[1..])
    else
      var c := s[1];
      if c == '"' || c == '\\' || c == '/' then [c] + Unescape(s[2..])
      else if c == 'b' then [0x08 as char] + Unescape(s[2..])
      else if c == 't' then [0x09 as char] + Unescape(s[2..])
      else if c == 'n' then [0x0A as char] + Unescape(s[2..])
      else if c == 'f' then [0x0C as char] + Unescape(s[2..])
      else if c == 'r' then [0x0D as char] + Unescape(s[2..])
      else if c == 'u' && |s| >= 6 && IsHex(s[2]) && IsHex(s[3]) && IsHex(s[4]) && IsHex(s[5]) then
        var v := 4096 * HexValue(s[2]) + 256 * HexValue(s[3]) + 16 * HexValue(s[4]) + HexValue(s[5]);
        if v < 0xD800 || 0xE000 <= v then [v as char] + Unescape(s[6..]) else [s[0]] + Unescape(s[1..])
      else [s[0]] + Unescape(s[1..])
  }

  /** Reading back the escape of one character gives that character, whatever follows it. */
  lemma UnescapeChar(c: char, t: string)
    ensures Unescape(EscapeChar(c) + t) == [c] + Unescape(t)
  {
    var e := EscapeChar(c);
    var s := e + t;
    if |e| == 1 {
      assert s[1..] == t;
    } else if |e| == 2 {
      assert s[2..] == t;
    } else {
      var n := c as int;
      assert s[2..6] == "00" + [HexDigit(n / 16), HexDigit(n % 16)];
      assert HexValue(s[4]) == n / 16 && HexValue(s[5]) == n % 16;
      assert s[6..] == t;
    }
  }

  /** Jackson's escaping loses nothing: a JSON parser reads back exactly the original string. */
  lemma {:induction false} UnescapeEscape(s: string)
    ensures Unescape(Escape(s)) == s
    decreases |s|
  {
    if s != [] {
      assert Escape(s) == EscapeChar(s[0]) + Escape(s[1..]);
      UnescapeChar(s[0], Escape(s[1..]));
      UnescapeEscape(s[1..]);
    }
  }

  /** A character that needs no escape. */
  predicate IsPlain(c: char) {
    c != '"' && c != '\\' && c as int >= 0x20
  }

  /** Every character is plain. */
  predicate Plain(s: string) {
    forall i :: 0 <= i < |s| ==> IsPlain(s[i])
  }

  /** A string of plain characters is written as it is. */
  lemma {:induction false} EscapePlain(s: string)
    requires Plain(s)
    ensures Escape(s) == s
    decreases |s|
  {
    if s != [] {
      EscapePlain(s[1..]);
    }
  }

  /** A JSON string literal. */
  function Quote(s: string): string {
    "\"" + Escape(s) + "\""
  }

  /** Elements separated by commas. */
  function JoinComma(parts: seq<string>): string
    decreases |parts|
  {
    if parts == [] then "" else if |parts| == 1 then parts[0] else parts[0] + "," + JoinComma(parts[1..])
  }

  /** The `"name":"value"` member of an object for one string property. */
  function Member(p: Pair): string {
    Quote(p.key) + ":" + Quote(p.value)
  }

  /** The members of an object whose values are all strings. */
  function Members(ps: seq<Pair>): seq<string>
    decreases |ps|
  {
    if ps == [] then [] else [Member(ps[0])] + Members(ps[1..])
  }

  /** A JSON object of string members, in the given order. */
  function ObjectJson(ps: seq<Pair>): string {
    "{" + JoinComma(Members(ps)) + "}"
  }

  /** A JSON array of already-written elements, in the given order. */
  function ArrayJson(elements: seq<string>): string {
    "[" + JoinComma(elements) + "]"
  }

  /** A string of plain characters is quoted without escapes. */
  lemma QuotePlain(s: string)
    requires Plain(s)
    ensures Quote(s) == "\"" + s + "\""
  {
    EscapePlain(s);
  }

  /** A member whose name and value need no escape. */
  lemma MemberPlain(k: string, v: string)
    requires Plain(k) && Plain(v)
    ensures Member(Pair(k, v)) == "\"" + k + "\":\"" + v + "\""
  {
    QuotePlain(k);
    QuotePlain(v);
    assert "\"" + ":" + "\"" == "\":\"";
  }

  /** An object of two members. */
  lemma ObjectOfTwo(a: Pair, b: Pair)
    ensures ObjectJson([a, b]) == "{" + Member(a) + "," + Member(b) + "}"
  {
    assert [a, b][1..] == [b];
    assert Members([b]) == [Member(b)] + Members([]);
    var ms := Members([a, b]);
    assert ms == [Member(a), Member(b)];
    assert ms[1..] == [Member(b)];
    assert JoinComma(ms) == Member(a) + "," + JoinComma(ms[1..]);
    assert JoinComma(ms[1..]) == Member(b);
  }

  /** An object of three members. */
  lemma ObjectOfThree(a: Pair, b: Pair, c: Pair)
    ensures ObjectJson([a, b, c]) == "{" + Member(a) + "," + Member(b) + "," + Member(c) + "}"
  {
    MembersOfThree(a, b, c);
    JoinOfThree(Member(a), Member(b), Member(c));
  }

  lemma MembersOfThree(a: Pair, b: Pair, c: Pair)
    ensures Members([a, b, c]) == [Member(a), Member(b), Member(c)]
  {
    assert [a, b, c][1..] == [b, c];
    assert [b, c][1..] == [c];
    assert Members([c]) == [Member(c)] + Members([]);
    assert Members([b, c]) == [Member(b)] + Members([c]);
  }

  lemma JoinOfThree(x: string, y: string, z: string)
    ensures JoinComma([x, y, z]) == x + "," + y + "," + z
  {
    assert [x, y, z][1..] == [y, z];
    assert [y, z][1..] == [z];
    assert JoinComma([y, z]) == y + "," + JoinComma([z]);
  }

  /** An array of two elements. */
  lemma ArrayOfTwo(x: string, y: string)
    ensures ArrayJson([x, y]) == "[" + x + "," + y + "]"
  {
    assert [x, y][1..] == [y];
    assert JoinComma([x, y]) == x + "," + JoinComma([y]);
  }
}
