/**
 * Named fields whose values may be absent, and the rows of present fields that the form body
 * and the JSON object of a batch item are written from.
 */
module Entries {
  import opened Wrappers

  /** A named field whose value may be absent (a null reference or an empty Optional). */
  datatype Entry = Entry(key: string, value: Option<string>)

  /** A named field whose value is present. */
  datatype Pair = Pair(key: string, value: string)

  /** The present entries, in their order; absent ones are dropped. */
  function Present(es: seq<Entry>): seq<Pair>
    decreases |es|
  {
    if es == [] then []
    else (if es[0].value.Some? then [Pair(es[0].key, es[0].value.value)] else []) + Present(es[1..])
  }

  function Keys(ps: seq<Pair>): seq<string>
    decreases |ps|
  {
    if ps == [] then [] else [ps[0].key] + Keys(ps[1..])
  }

  function EntryKeys(es: seq<Entry>): seq<string>
    decreases |es|
  {
    if es == [] then [] else [es[0].key] + EntryKeys(es[1..])
  }

  /** No key occurs twice. */
  predicate Distinct(ks: seq<string>) {
    forall i, j :: 0 <= i < j < |ks| ==> ks[i] != ks[j]
  }

  /** `xs` is `ys` with some elements deleted: an order-preserving selection, each element used once. */
  predicate IsSubsequence(xs: seq<string>, ys: seq<string>)
    decreases |ys|
  {
    if xs == [] then true
    else if ys == [] then false
    else (xs[0] == ys[0] && IsSubsequence(xs[1..], ys[1..])) || IsSubsequence(xs, ys[1..])
  }

  /** The value of the first pair named `k`. */
  function Lookup(ps: seq<Pair>, k: string): Option<string>
    decreases |ps|
  {
    if ps == [] then None else if ps[0].key == k then Some(ps[0].value) else Lookup(ps[1..], k)
  }

  /** The value of the first entry named `k`; absent when there is none or when that entry is absent. */
  function LookupEntry(es: seq<Entry>, k: string): Option<string>
    decreases |es|
  {
    if es == [] then None else if es[0].key == k then es[0].value else LookupEntry(es[1..], k)
  }

  /** Dropping absent entries keeps the order of the rest: their keys are a subsequence of all keys. */
  lemma {:induction false} PresentKeysInOrder(es: seq<Entry>)
    ensures IsSubsequence(Keys(Present(es)), EntryKeys(es))
    decreases |es|
  {
    if es != [] {
      PresentKeysInOrder(es[1..]);
      var rest := Keys(Present(es[1..]));
      if es[0].value.Some? {
        assert Present(es) == [Pair(es[0].key, es[0].value.value)] + Present(es[1..]);
        assert Keys(Present(es)) == [es[0].key] + rest;
      } else {
        assert Present(es) == Present(es[1..]);
        if rest != [] {
          assert IsSubsequence(rest, EntryKeys(es)[1..]);
        }
      }
    }
  }

  /** A pair in front that is named differently does not change a lookup. */
  lemma LookupSkip(p: Pair, ps: seq<Pair>, k: string)
    requires p.key != k
    ensures Lookup([p] + ps, k) == Lookup(ps, k)
  {
    assert ([p] + ps)[1..] == ps;
  }

  /** Unfolds `Present` once. */
  lemma PresentCons(es: seq<Entry>)
    requires es != []
    ensures es[0].value.None? ==> Present(es) == Present(es[1..])
    ensures es[0].value.Some? ==> Present(es) == [Pair(es[0].key, es[0].value.value)] + Present(es[1..])
  {
  }

  lemma {:induction false} LookupEntryMissing(es: seq<Entry>, k: string)
    requires k !in EntryKeys(es)
    ensures LookupEntry(es, k) == None && Lookup(Present(es), k) == None
    decreases |es|
  {
    if es != [] {
      assert EntryKeys(es) == [es[0].key] + EntryKeys(es[1..]);
      LookupEntryMissing(es[1..], k);
      PresentCons(es);
      if es[0].value.Some? {
        LookupSkip(Pair(es[0].key, es[0].value.value), Present(es[1..]), k);
      }
    }
  }

  /**
   * With distinct keys, a key is among the present pairs exactly when its entry is present, and
   * then with the entry's value.
   */
  lemma {:induction false} LookupPresent(es: seq<Entry>, k: string)
    requires Distinct(EntryKeys(es))
    ensures Lookup(Present(es), k) == LookupEntry(es, k)
    decreases |es|
  {
    if es != [] {
      var ks := EntryKeys(es);
      assert ks == [es[0].key] + EntryKeys(es[1..]);
      assert Distinct(EntryKeys(es[1..])) by {
        forall i, j | 0 <= i < j < |EntryKeys(es[1..])|
          ensures EntryKeys(es[1..])[i] != EntryKeys(es[1..])[j]
        {
          assert ks[i + 1] != ks[j + 1];
        }
      }
      PresentCons(es);
      if es[0].key == k && es[0].value.None? {
        assert forall j :: 0 <= j < |EntryKeys(es[1..])| ==> EntryKeys(es[1..])[j] == ks[j + 1] && ks[0] != ks[j + 1];
        assert k !in EntryKeys(es[1..]);
        LookupEntryMissing(es[1..], k);
      } else if es[0].key != k {
        LookupPresent(es[1..], k);
        if es[0].value.Some? {
          LookupSkip(Pair(es[0].key, es[0].value.value), Present(es[1..]), k);
        }
      }
    }
  }

  lemma {:induction false} PresentAppend(a: seq<Entry>, b: seq<Entry>)
    ensures Present(a + b) == Present(a) + Present(b)
    decreases |a|
  {
    if a == [] {
      assert a + b == b;
    } else {
      assert (a + b)[0] == a[0];
      assert (a + b)[1..] == a[1..] + b;
      PresentAppend(a[1..], b);
      PresentCons(a);
      PresentCons(a + b);
      var h := if a[0].value.Some? then [Pair(a[0].key, a[0].value.value)] else [];
      assert Present(a + b) == h + (Present(a[1..]) + Present(b));
      assert Present(a) == h + Present(a[1..]);
    }
  }

  lemma {:induction false} EntryKeysAt(es: seq<Entry>)
    ensures |EntryKeys(es)| == |es|
    ensures forall i :: 0 <= i < |es| ==> EntryKeys(es)[i] == es[i].key
    decreases |es|
  {
    if es != [] {
      EntryKeysAt(es[1..]);
    }
  }

  /** With distinct keys, looking up the key of the i-th entry gives that entry's value. */
  lemma {:induction false} LookupEntryAt(es: seq<Entry>, i: nat)
    requires i < |es|
    requires Distinct(EntryKeys(es))
    ensures LookupEntry(es, es[i].key) == es[i].value
    decreases i
  {
    EntryKeysAt(es);
    if i > 0 {
      assert es[0].key == EntryKeys(es)[0] != EntryKeys(es)[i] == es[i].key;
      EntryKeysAt(es[1..]);
      assert Distinct(EntryKeys(es[1..])) by {
        forall a, b | 0 <= a < b < |es| - 1 ensures EntryKeys(es[1..])[a] != EntryKeys(es[1..])[b] {
          assert EntryKeys(es)[a + 1] != EntryKeys(es)[b + 1];
        }
      }
      LookupEntryAt(es[1..], i - 1);
    }
  }

  /** Nothing is present exactly when every entry is absent. */
  lemma {:induction false} PresentEmpty(es: seq<Entry>)
    ensures Present(es) == [] <==> forall i :: 0 <= i < |es| ==> es[i].value.None?
    decreases |es|
  {
    if es != [] {
      PresentEmpty(es[1..]);
      assert forall i :: 1 <= i < |es| ==> es[i] == es[1..][i - 1];
    }
  }

  /** Every present pair comes from an entry with the same key and that value. */
  lemma {:induction false} PresentFrom(es: seq<Entry>)
    ensures forall p :: p in Present(es) ==> Entry(p.key, Some(p.value)) in es
    decreases |es|
  {
    if es != [] {
      PresentFrom(es[1..]);
      var head := if es[0].value.Some? then [Pair(es[0].key, es[0].value.value)] else [];
      assert Present(es) == head + Present(es[1..]);
      forall p | p in Present(es) ensures Entry(p.key, Some(p.value)) in es {
        if p in head {
          assert Entry(p.key, Some(p.value)) == es[0];
        } else {
          assert Entry(p.key, Some(p.value)) in es[1..];
        }
      }
    }
  }
}
