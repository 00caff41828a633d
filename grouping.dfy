/**
 * Grouping into a JavaScript object used as a dictionary: the code walks an
 * array, creates `result[k]` the first time key `k` is met, and pushes each
 * element into the entry for its key. The model is an association list
 * whose entries appear in the order their keys were first met, which is
 * how a JavaScript object enumerates keys that are not integer-like
 * (integer-like keys such as "2" or "10" come first, in ascending numeric
 * order, and that ordering is not modelled).
 */
module Grouping {
  import opened Seqs

  /** Looking up `result[k]`: the index of the entry for `k`, or `|entries|` when it is absent. */
  function IndexOf<K(==), V>(entries: seq<(K, V)>, k: K): (i: nat)
    ensures i <= |entries|
    ensures i < |entries| ==> entries[i].0 == k
    ensures forall m :: 0 <= m < i ==> entries[m].0 != k
  {
    if entries == [] then 0
    else if entries[0].0 == k then 0
    else 1 + IndexOf(entries[1..], k)
  }

  /** `if (!result[k]) result[k] = []; result[k].push(x);` */
  function AddTo<K(==), T>(groups: seq<(K, seq<T>)>, k: K, x: T): seq<(K, seq<T>)>
  {
    var i := IndexOf(groups, k);
    if i < |groups| then groups[i := (k, groups[i].1 + [x])] else groups + [(k, [x])]
  }

  /** The groups of `s` by `key`, built element by element from the front. */
  function Group<K(==), T>(s: seq<T>, key: T -> K): seq<(K, seq<T>)>
  {
    if s == [] then [] else AddTo(Group(s[..|s| - 1], key), key(s[|s| - 1]), s[|s| - 1])
  }

  /** One more element of `s` is one more `AddTo` step. */
  lemma GroupPrefixStep<K, T>(s: seq<T>, key: T -> K, n: nat)
    requires n < |s|
    ensures Group(s[..n + 1], key) == AddTo(Group(s[..n], key), key(s[n]), s[n])
  {
    assert s[..n + 1][..n] == s[..n];
  }

  ghost predicate DistinctKeys<K, V>(entries: seq<(K, V)>)
  {
    forall i, j :: 0 <= i < j < |entries| ==> entries[i].0 != entries[j].0
  }

  /** The number of elements over all groups. */
  function TotalSize<K, T>(groups: seq<(K, seq<T>)>): nat
  {
    if groups == [] then 0 else TotalSize(groups[..|groups| - 1]) + |groups[|groups| - 1].1|
  }

  /** Every element of `s` has an entry for its key. */
  ghost predicate Covers<K, T>(groups: seq<(K, seq<T>)>, s: seq<T>, key: T -> K)
  {
    forall x | x in s :: IndexOf(groups, key(x)) < |groups|
  }

  /** Each entry holds exactly the elements of `s` with its key, in order. */
  ghost predicate Exact<K, T>(groups: seq<(K, seq<T>)>, s: seq<T>, key: T -> K)
  {
    forall i :: 0 <= i < |groups| ==> groups[i].1 == Filter(s, KeyIs(key, groups[i].0))
  }

  /** No entry is empty: an entry is created together with its first element. */
  ghost predicate NonEmpty<K, T>(groups: seq<(K, seq<T>)>)
  {
    forall i :: 0 <= i < |groups| ==> groups[i].1 != []
  }

  /** Every entry's key is the key of some element of `s`. */
  ghost predicate KeysOccur<K, T>(groups: seq<(K, seq<T>)>, s: seq<T>, key: T -> K)
  {
    forall g | g in groups :: exists x | x in s :: key(x) == g.0
  }

  lemma AddToNonEmpty<K, T>(groups: seq<(K, seq<T>)>, k: K, x: T)
    requires NonEmpty(groups)
    ensures NonEmpty(AddTo(groups, k, x))
  {
  }

  /** Exact, non-empty entries have keys that occur in `s`. */
  lemma ExactKeysOccur<K, T>(groups: seq<(K, seq<T>)>, s: seq<T>, key: T -> K)
    requires NonEmpty(groups) && Exact(groups, s, key)
    ensures KeysOccur(groups, s, key)
  {
    forall g | g in groups ensures exists x | x in s :: key(x) == g.0 {
      var i :| 0 <= i < |groups| && groups[i] == g;
      var w := g.1[0];
      FilterMembers(s, KeyIs(key, g.0));
      assert w in Filter(s, KeyIs(key, g.0));
      assert KeyIs(key, g.0)(w) == (key(w) == g.0);
      assert w in s && key(w) == g.0;
    }
  }

  lemma AddToDistinct<K, T>(groups: seq<(K, seq<T>)>, k: K, x: T)
    requires DistinctKeys(groups)
    ensures DistinctKeys(AddTo(groups, k, x))
  {
  }

  lemma AddToCovers<K, T>(groups: seq<(K, seq<T>)>, s: seq<T>, key: T -> K, x: T)
    requires Covers(groups, s, key)
    ensures Covers(AddTo(groups, key(x), x), s + [x], key)
  {
    var r := AddTo(groups, key(x), x);
    forall y | y in s + [x] ensures IndexOf(r, key(y)) < |r| {
      if y in s {
        var n := IndexOf(groups, key(y));
        assert r[n].0 == key(y);
      } else {
        var n := IndexOf(groups, key(x));
        assert r[n].0 == key(x);
      }
    }
  }

  lemma AddToExact<K, T>(groups: seq<(K, seq<T>)>, s: seq<T>, key: T -> K, x: T)
    requires DistinctKeys(groups) && Covers(groups, s, key) && Exact(groups, s, key)
    ensures Exact(AddTo(groups, key(x), x), s + [x], key)
  {
    var k := key(x);
    var r := AddTo(groups, k, x);
    forall m | 0 <= m < |r|
      ensures r[m].1 == Filter(s + [x], KeyIs(key, r[m].0))
    {
      var p := KeyIs(key, r[m].0);
      FilterConcat(s, [x], p);
      FilterSingleton(x, p);
      if m == |groups| {
        forall y | y in s ensures !p(y) {
          assert IndexOf(groups, key(y)) < |groups|;
        }
        FilterNone(s, p);
      }
    }
  }

  /**
   * What grouping produces: one entry per distinct key of `s` and no other
   * (keys are distinct, every element of `s` has an entry for its key, and
   * every entry is non-empty with a key some element has), and each entry
   * holds exactly the elements with that key, in their order in `s`.
   */
  lemma {:induction false} GroupSpec<K, T>(s: seq<T>, key: T -> K)
    ensures DistinctKeys(Group(s, key))
    ensures Covers(Group(s, key), s, key)
    ensures Exact(Group(s, key), s, key)
    ensures NonEmpty(Group(s, key))
    ensures KeysOccur(Group(s, key), s, key)
  {
    GroupShape(s, key);
    ExactKeysOccur(Group(s, key), s, key);
  }

  lemma {:induction false} GroupShape<K, T>(s: seq<T>, key: T -> K)
    ensures DistinctKeys(Group(s, key))
    ensures Covers(Group(s, key), s, key)
    ensures Exact(Group(s, key), s, key)
    ensures NonEmpty(Group(s, key))
  {
    if s != [] {
      var init, x := s[..|s| - 1], s[|s| - 1];
      assert s == init + [x];
      GroupShape(init, key);
      var g := Group(init, key);
      AddToNonEmpty(g, key(x), x);
      AddToDistinct(g, key(x), x);
      AddToCovers(g, init, key, x);
      AddToExact(g, init, key, x);
    }
  }

  lemma {:induction false} TotalSizeAppend<K, T>(groups: seq<(K, seq<T>)>, entry: (K, seq<T>))
    ensures TotalSize(groups + [entry]) == TotalSize(groups) + |entry.1|
  {
    assert (groups + [entry])[..|groups|] == groups;
  }

  lemma {:induction false} TotalSizeUpdate<K, T>(groups: seq<(K, seq<T>)>, i: nat, entry: (K, seq<T>))
    requires i < |groups|
    ensures TotalSize(groups[i := entry]) == TotalSize(groups) - |groups[i].1| + |entry.1|
    decreases |groups|
  {
    var n := |groups| - 1;
    if i < n {
      TotalSizeUpdate(groups[..n], i, entry);
      assert groups[i := entry][..n] == groups[..n][i := entry];
    } else {
      assert groups[i := entry][..n] == groups[..n];
    }
  }

  /** Grouping neither loses nor duplicates elements. */
  lemma {:induction false} GroupTotalSize<K, T>(s: seq<T>, key: T -> K)
    ensures TotalSize(Group(s, key)) == |s|
  {
    if s != [] {
      var init, x := s[..|s| - 1], s[|s| - 1];
      GroupTotalSize(init, key);
      var g := Group(init, key);
      var i := IndexOf(g, key(x));
      if i < |g| {
        TotalSizeUpdate(g, i, (key(x), g[i].1 + [x]));
      } else {
        TotalSizeAppend(g, (key(x), [x]));
      }
    }
  }
}
