/**
 * The per-link result maps the scrape-response builders fill: each `addResult` puts one entry into a
 * hash map, so a later result for the same link replaces the earlier one.
 */
module ResultMaps {

  /** One `addResult(link, text)` call. */
  datatype Put = Put(link: string, text: string)

  /** The map after the puts, applied in order to `m`, as the builder's `results.put` calls apply them. */
  function PutAll(m: map<string, string>, puts: seq<Put>): map<string, string>
    decreases |puts|
  {
    if puts == [] then m
    else
      var last := puts[|puts| - 1];
      PutAll(m, puts[..|puts| - 1])[last.link := last.text]
  }

  /** The links the puts name. */
  function Links(puts: seq<Put>): set<string> {
    set i | 0 <= i < |puts| :: puts[i].link
  }

  /** The keys afterwards are the keys before and the links put. */
  lemma {:induction false} PutAllKeys(m: map<string, string>, puts: seq<Put>)
    ensures PutAll(m, puts).Keys == m.Keys + Links(puts)
    decreases |puts|
  {
    if puts != [] {
      var init := puts[..|puts| - 1];
      PutAllKeys(m, init);
      assert Links(puts) == Links(init) + {puts[|puts| - 1].link} by {
        forall k | k in Links(puts) ensures k in Links(init) + {puts[|puts| - 1].link} {
          var i :| 0 <= i < |puts| && puts[i].link == k;
          if i < |puts| - 1 {
            assert init[i] == puts[i];
          }
        }
        forall k | k in Links(init) ensures k in Links(puts) {
          var i :| 0 <= i < |init| && init[i].link == k;
          assert puts[i] == init[i];
        }
      }
    }
  }

  /** The value under a link is the text of the last put for that link: later puts overwrite earlier ones. */
  lemma {:induction false} PutAllLastWins(m: map<string, string>, puts: seq<Put>, i: nat)
    requires i < |puts|
    requires forall j :: i < j < |puts| ==> puts[j].link != puts[i].link
    ensures puts[i].link in PutAll(m, puts) && PutAll(m, puts)[puts[i].link] == puts[i].text
    decreases |puts|
  {
    var init := puts[..|puts| - 1];
    if i < |puts| - 1 {
      assert init[i] == puts[i];
      forall j | i < j < |init| ensures init[j].link != init[i].link {
        assert init[j] == puts[j];
      }
      PutAllLastWins(m, init, i);
    }
  }

  /** A link no put names keeps its entry, or its absence. */
  lemma {:induction false} PutAllElsewhere(m: map<string, string>, puts: seq<Put>, k: string)
    requires forall j :: 0 <= j < |puts| ==> puts[j].link != k
    ensures k in PutAll(m, puts) <==> k in m
    ensures k in m ==> PutAll(m, puts)[k] == m[k]
    decreases |puts|
  {
    if puts != [] {
      var init := puts[..|puts| - 1];
      forall j | 0 <= j < |init| ensures init[j].link != k {
        assert init[j] == puts[j];
      }
      PutAllElsewhere(m, init, k);
    }
  }
}
