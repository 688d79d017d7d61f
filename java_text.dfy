/** The pieces of Java's standard text and hashing behaviour the model relies on. */
module JavaText {
  import opened Wrappers

  /** Java's `int`. */
  newtype int32 = x: int | -0x8000_0000 <= x < 0x8000_0000

  /** Java's `long`. */
  newtype int64 = x: int | -0x8000_0000_0000_0000 <= x < 0x8000_0000_0000_0000

  /** How Java renders a possibly-null string in a concatenation or a `String.format`: null becomes "null". */
  function NullableText(s: Option<string>): string {
    if s.Some? then s.value else "null"
  }

  /** `String.valueOf(boolean)`. */
  function BoolText(b: bool): string {
    if b then "true" else "false"
  }

  predicate IsDigit(c: char) {
    '0' <= c <= '9'
  }

  function DigitValue(c: char): nat
    requires IsDigit(c)
  {
    c as int - '0' as int
  }

  function DigitChar(d: nat): (c: char)
    requires d < 10
    ensures IsDigit(c) && DigitValue(c) == d
  {
    ('0' as int + d) as char
  }

  /** The decimal digits of `n`, most significant first, with no leading zero. */
  function NatText(n: nat): (s: string)
    ensures |s| >= 1
    ensures forall i :: 0 <= i < |s| ==> IsDigit(s[i])
    ensures |s| > 1 ==> s[0] != '0'
    decreases n
  {
    if n < 10 then [DigitChar(n)] else NatText(n / 10) + [DigitChar(n % 10)]
  }

  /** Reads a string of decimal digits back as a number. */
  function ParseNat(s: string): nat
    requires forall i :: 0 <= i < |s| ==> IsDigit(s[i])
    decreases |s|
  {
    if s == [] then 0 else ParseNat(s[..|s| - 1]) * 10 + DigitValue(s[|s| - 1])
  }

  lemma {:induction false} ParseNatText(n: nat)
    ensures ParseNat(NatText(n)) == n
    decreases n
  {
    if n >= 10 {
      var s := NatText(n);
      assert s[..|s| - 1] == NatText(n / 10);
      ParseNatText(n / 10);
    }
  }

  /** `Long.toString(long)`, which is what `StringBuilder.append(long)` appends. */
  function LongText(n: int64): (s: string)
    ensures IsDecimal(s)
  {
    if n < 0 then "-" + NatText(-(n as int)) else NatText(n as int)
  }

  /** An optional minus sign followed by at least one decimal digit. */
  predicate IsDecimal(s: string) {
    if |s| > 0 && s[0] == '-' then |s| > 1 && forall i :: 1 <= i < |s| ==> IsDigit(s[i])
    else |s| > 0 && forall i :: 0 <= i < |s| ==> IsDigit(s[i])
  }

  /** `Long.parseLong` on the texts `LongText` produces. */
  function ParseLong(s: string): int
    requires IsDecimal(s)
  {
    if s[0] == '-' then 0 - ParseNat(s[1..]) as int else ParseNat(s)
  }

  /** The decimal form of a long reads back as the same long: `LongText` loses nothing. */
  lemma LongTextRoundTrip(n: int64)
    ensures ParseLong(LongText(n)) == n as int
  {
    if n < 0 {
      assert LongText(n)[1..] == NatText(-(n as int));
      ParseNatText(-(n as int));
    } else {
      ParseNatText(n as int);
    }
  }

  /** A decimal text holds neither of the separators of a form body. */
  lemma DecimalHasNoSeparators(s: string)
    requires IsDecimal(s)
    ensures '&' !in s && '=' !in s
  {
  }

  /** Reduces a mathematical integer to Java's 32-bit two's complement `int`. */
  function Wrap32(x: int): int32 {
    ((x + 0x8000_0000) % 0x1_0000_0000 - 0x8000_0000) as int32
  }

  /**
   * The UTF-16 code units Java stores for one character: the character itself when it lies in the
   * Basic Multilingual Plane, otherwise a high and a low surrogate that together encode it.
   */
  function Utf16(c: char): (units: seq<int>)
    ensures 1 <= |units| <= 2
    ensures forall i :: 0 <= i < |units| ==> 0 <= units[i] < 0x1_0000
    ensures |units| == 1 <==> c as int < 0x1_0000
    ensures |units| == 1 ==> units[0] == c as int
    ensures |units| == 2 ==> 0xD800 <= units[0] < 0xDC00 && 0xDC00 <= units[1] < 0xE000
    ensures |units| == 2 ==> 0x1_0000 + (units[0] - 0xD800) * 0x400 + (units[1] - 0xDC00) == c as int
  {
    if c as int < 0x1_0000 then [c as int]
    else
      var v := c as int - 0x1_0000;
      [0xD800 + v / 0x400, 0xDC00 + v % 0x400]
  }

  /** The UTF-16 code units of a string, the `char`s of the Java string, in order. */
  function CodeUnits(s: string): (units: seq<int>)
    ensures |units| >= |s|
    decreases |s|
  {
    if s == [] then [] else CodeUnits(s[..|s| - 1]) + Utf16(s[|s| - 1])
  }

  /** Java's `char`s of a concatenation are those of the first part followed by those of the second. */
  lemma {:induction false} CodeUnitsConcat(a: string, b: string)
    ensures CodeUnits(a + b) == CodeUnits(a) + CodeUnits(b)
    decreases |b|
  {
    if b == [] {
      assert a + b == a;
    } else {
      var b' := b[..|b| - 1];
      assert (a + b)[..|a + b| - 1] == a + b';
      assert (a + b)[|a + b| - 1] == b[|b| - 1];
      CodeUnitsConcat(a, b');
    }
  }

  /** Every character contributes its own UTF-16 units, in place: one unit, or two surrogates above 0xFFFF. */
  lemma CodeUnitsAppend(s: string, c: char)
    ensures CodeUnits(s + [c]) == CodeUnits(s) + Utf16(c)
  {
    assert (s + [c])[..|s|] == s;
  }

  /** A single character above 0xFFFF hashes as its two surrogates: 31 * high + low. */
  lemma NonBmpHash(c: char)
    requires c as int >= 0x1_0000
    ensures StringHash([c]) == Wrap32(31 * Utf16(c)[0] + Utf16(c)[1])
  {
    var us := CodeUnits([c]);
    CodeUnitsAppend([], c);
    assert [] + [c] == [c];
    assert us == Utf16(c);
    assert us[..1] == [Utf16(c)[0]];
    assert us[..1][..0] == [];
    assert UnitsHash(us[..1]) == Wrap32(Utf16(c)[0]);
    assert Wrap32(Utf16(c)[0]) as int == Utf16(c)[0];
  }

  /** A text in the Basic Multilingual Plane has one code unit per character, each the character itself. */
  lemma {:induction false} CodeUnitsBmp(s: string)
    requires forall i :: 0 <= i < |s| ==> s[i] as int < 0x1_0000
    ensures |CodeUnits(s)| == |s|
    ensures forall i :: 0 <= i < |s| ==> CodeUnits(s)[i] == s[i] as int
    decreases |s|
  {
    if s != [] {
      CodeUnitsBmp(s[..|s| - 1]);
    }
  }

  /** s[0]*31^(n-1) + ... + s[n-1] over code units, in `int` arithmetic. */
  function UnitsHash(us: seq<int>): int32
    decreases |us|
  {
    if us == [] then 0 else Wrap32(31 * UnitsHash(us[..|us| - 1]) as int + us[|us| - 1])
  }

  /** `String.hashCode()`: the hash of the string's UTF-16 code units. */
  function StringHash(s: string): int32 {
    UnitsHash(CodeUnits(s))
  }

  /** U+1F600 is the surrogate pair D83D DE00 in Java, so its hash is 31 * 0xD83D + 0xDE00. */
  lemma SurrogatePairHash()
    ensures StringHash([0x1F600 as char]) == 1772899
  {
    NonBmpHash(0x1F600 as char);
    assert Utf16(0x1F600 as char) == [0xD83D, 0xDE00];
  }

  /** `Objects.hashCode(Object...)` (that is, `Arrays.hashCode`) over a row of nullable strings. */
  function NullableStringsHash(xs: seq<Option<string>>): int32
    decreases |xs|
  {
    if xs == [] then 1
    else
      var last := xs[|xs| - 1];
      Wrap32(31 * NullableStringsHash(xs[..|xs| - 1]) as int + (if last.Some? then StringHash(last.value) as int else 0))
  }

  /** `s.contains(t)`. */
  ghost predicate Contains(s: string, t: string) {
    exists i :: OccursAt(s, t, i)
  }

  /** `t` occurs in `s` starting at index `i`. */
  predicate OccursAt(s: string, t: string, i: int) {
    0 <= i <= |s| - |t| && s[i..i + |t|] == t
  }

  /** A text placed between two others is contained in the whole. */
  lemma ContainsMiddle(p: string, t: string, q: string)
    ensures Contains(p + t + q, t)
  {
    var s := p + t + q;
    assert OccursAt(s, t, |p|);
  }
}
