/**
 * The form-style body the post and scrape requests write: one "&key=value" segment per parameter.
 * `Decode` is the reading a receiver makes of such a body; it is the partner the encoders are checked
 * against.
 */
module FormParams {
  import opened Entries

  /** "&key=value". */
  function Segment(p: Pair): string {
    "&" + p.key + "=" + p.value
  }

  function Encode(ps: seq<Pair>): string
    decreases |ps|
  {
    if ps == [] then "" else Segment(ps[0]) + Encode(ps[1..])
  }

  lemma {:induction false} EncodeAppend(a: seq<Pair>, b: seq<Pair>)
    ensures Encode(a + b) == Encode(a) + Encode(b)
    decreases |a|
  {
    if a == [] {
      assert a + b == b;
    } else {
      assert (a + b)[0] == a[0];
      assert (a + b)[1..] == a[1..] + b;
      EncodeAppend(a[1..], b);
    }
  }

  /** The encoding is empty exactly when there are no parameters. */
  lemma EncodeEmpty(ps: seq<Pair>)
    ensures Encode(ps) == "" <==> ps == []
  {
  }

  /** The index of the first `c` in `s`, or `|s|` when there is none. */
  function IndexOf(s: string, c: char): (i: nat)
    ensures i <= |s|
    ensures forall j :: 0 <= j < i ==> s[j] != c
    ensures i < |s| ==> s[i] == c
    decreases |s|
  {
    if s == [] then 0 else if s[0] == c then 0 else 1 + IndexOf(s[1..], c)
  }

  /** Splits a body on '&' (ignoring the leading one) and each part on its first '='. */
  function Decode(s: string): seq<Pair>
    decreases |s|
  {
    if s == [] then []
    else
      var rest := s[1..];
      var n := IndexOf(rest, '&');
      var part := rest[..n];
      var e := IndexOf(part, '=');
      [Pair(part[..e], if e < |part| then part[e + 1..] else "")] + Decode(rest[n..])
  }

  /** A parameter the body can carry unambiguously: no '&' anywhere, no '=' in the key. */
  predicate WellFormed(p: Pair) {
    '&' !in p.key && '=' !in p.key && '&' !in p.value
  }

  lemma {:induction false} IndexOfAfter(a: string, b: string, c: char)
    requires c !in a
    ensures IndexOf(a + b, c) == |a| + IndexOf(b, c)
    decreases |a|
  {
    if a == [] {
      assert a + b == b;
    } else {
      assert (a + b)[0] == a[0];
      assert (a + b)[1..] == a[1..] + b;
      IndexOfAfter(a[1..], b, c);
    }
  }

  /** Decoding reads one well-formed segment off the front of a body. */
  lemma DecodeSegment(p: Pair, tail: string)
    requires WellFormed(p)
    requires tail == [] || tail[0] == '&'
    ensures Decode(Segment(p) + tail) == [p] + Decode(tail)
  {
    var s := Segment(p) + tail;
    SegmentFront(p, tail);
    var rest := s[1..];
    var n := IndexOf(rest, '&');
    var part := rest[..n];
    FirstParameter(p, tail, rest);
    var e := IndexOf(part, '=');
    KeyValue(p, part);
    assert Decode(s) == [Pair(part[..e], if e < |part| then part[e + 1..] else "")] + Decode(rest[n..]);
  }

  /** A segment followed by a tail is '&' and then "key=value" + tail. */
  lemma SegmentFront(p: Pair, tail: string)
    ensures |Segment(p) + tail| > 0
    ensures (Segment(p) + tail)[1..] == p.key + ("=" + (p.value + tail))
  {
    assert Segment(p) + tail == "&" + (p.key + ("=" + (p.value + tail)));
  }

  /** In "key=value" + tail, the first '&' is where the tail starts. */
  lemma FirstParameter(p: Pair, tail: string, rest: string)
    requires WellFormed(p)
    requires tail == [] || tail[0] == '&'
    requires rest == p.key + ("=" + (p.value + tail))
    ensures IndexOf(rest, '&') == |p.key| + 1 + |p.value|
    ensures rest[..|p.key| + 1 + |p.value|] == p.key + ("=" + p.value)
    ensures rest[|p.key| + 1 + |p.value|..] == tail
  {
    IndexOfAfter(p.value, tail, '&');
    assert IndexOf("=" + (p.value + tail), '&') == 1 + IndexOf(p.value + tail, '&') by {
      assert ("=" + (p.value + tail))[1..] == p.value + tail;
    }
    IndexOfAfter(p.key, "=" + (p.value + tail), '&');
  }

  /** A "key=value" part with no '=' in the key splits back into the key and the value. */
  lemma KeyValue(p: Pair, part: string)
    requires WellFormed(p)
    requires part == p.key + ("=" + p.value)
    ensures IndexOf(part, '=') == |p.key| < |part|
    ensures part[..|p.key|] == p.key
    ensures part[|p.key| + 1..] == p.value
  {
    IndexOfAfter(p.key, "=" + p.value, '=');
    assert part[|p.key|..] == "=" + p.value;
    assert part[|p.key| + 1..] == part[|p.key|..][1..];
  }

  /** Decoding an encoded list of well-formed parameters gives back the same list, in the same order. */
  lemma {:induction false} DecodeEncode(ps: seq<Pair>)
    requires forall i :: 0 <= i < |ps| ==> WellFormed(ps[i])
    ensures Decode(Encode(ps)) == ps
    decreases |ps|
  {
    if ps != [] {
      assert Encode(ps) == Segment(ps[0]) + Encode(ps[1..]);
      var tail := Encode(ps[1..]);
      assert tail == [] || tail[0] == '&';
      DecodeSegment(ps[0], tail);
      DecodeEncode(ps[1..]);
    }
  }
}
