/**
 * `Array.prototype.sort` with a numeric comparator `(a, b) => key(a) - key(b)`.
 * The language guarantees that this sort is stable, so its result is fully
 * determined: it is the stable insertion sort below. Descending sorts are
 * the same sort on the negated key (ties still keep their input order).
 */
module Sorting {
  import opened Seqs

  ghost predicate SortedBy<T>(s: seq<T>, key: T -> int)
  {
    forall i, j :: 0 <= i < j < |s| ==> key(s[i]) <= key(s[j])
  }

  /** Inserts `x` after every trailing element whose key exceeds `key(x)`. */
  function Insert<T>(s: seq<T>, x: T, key: T -> int): (r: seq<T>)
    ensures |r| == |s| + 1
  {
    if s == [] || key(s[|s| - 1]) <= key(x) then s + [x]
    else Insert(s[..|s| - 1], x, key) + [s[|s| - 1]]
  }

  /** The stable sort of `s` by ascending `key`. */
  function StableSort<T>(s: seq<T>, key: T -> int): (r: seq<T>)
    ensures |r| == |s|
  {
    if s == [] then [] else Insert(StableSort(s[..|s| - 1], key), s[|s| - 1], key)
  }

  lemma {:induction false} InsertPermutes<T>(s: seq<T>, x: T, key: T -> int)
    ensures multiset(Insert(s, x, key)) == multiset(s) + multiset{x}
  {
    if s != [] && key(s[|s| - 1]) > key(x) {
      InsertPermutes(s[..|s| - 1], x, key);
      assert s == s[..|s| - 1] + [s[|s| - 1]];
    }
  }

  /** The sort is a permutation of its input. */
  lemma {:induction false} StableSortPermutes<T>(s: seq<T>, key: T -> int)
    ensures multiset(StableSort(s, key)) == multiset(s)
  {
    if s != [] {
      StableSortPermutes(s[..|s| - 1], key);
      InsertPermutes(StableSort(s[..|s| - 1], key), s[|s| - 1], key);
      assert s == s[..|s| - 1] + [s[|s| - 1]];
    }
  }

  lemma {:induction false} InsertSorted<T>(s: seq<T>, x: T, key: T -> int)
    requires SortedBy(s, key)
    ensures SortedBy(Insert(s, x, key), key)
  {
    if s != [] && key(s[|s| - 1]) > key(x) {
      var init, last := s[..|s| - 1], s[|s| - 1];
      InsertSorted(init, x, key);
      var r := Insert(init, x, key);
      InsertPermutes(init, x, key);
      forall y | y in r ensures key(y) <= key(last) {
        assert y in multiset(r);
        assert y == x || y in init;
      }
      assert Insert(s, x, key) == r + [last];
    }
  }

  /** Insertion keeps, for every key value, the order of the elements carrying it. */
  lemma {:induction false} InsertStable<T>(s: seq<T>, x: T, key: T -> int, k: int)
    ensures Filter(Insert(s, x, key), KeyIs(key, k))
         == Filter(s, KeyIs(key, k)) + Filter([x], KeyIs(key, k))
  {
    var p := KeyIs(key, k);
    if s == [] || key(s[|s| - 1]) <= key(x) {
      FilterConcat(s, [x], p);
    } else {
      var init, last := s[..|s| - 1], s[|s| - 1];
      InsertStable(init, x, key, k);
      FilterConcat(Insert(init, x, key), [last], p);
      FilterConcat(init, [last], p);
      assert s == init + [last];
      FilterSingleton(x, p);
      FilterSingleton(last, p);
      if key(x) == k {
        assert Filter([last], p) == [];
      } else {
        assert Filter([x], p) == [];
      }
    }
  }

  /** The sort is ascending. */
  lemma {:induction false} StableSortSorted<T>(s: seq<T>, key: T -> int)
    ensures SortedBy(StableSort(s, key), key)
  {
    if s != [] {
      StableSortSorted(s[..|s| - 1], key);
      InsertSorted(StableSort(s[..|s| - 1], key), s[|s| - 1], key);
    }
  }

  /** The sort is stable: elements with equal keys keep their relative order. */
  lemma {:induction false} StableSortStable<T>(s: seq<T>, key: T -> int, k: int)
    ensures Filter(StableSort(s, key), KeyIs(key, k)) == Filter(s, KeyIs(key, k))
  {
    if s != [] {
      var init, last := s[..|s| - 1], s[|s| - 1];
      assert s == init + [last];
      assert StableSort(s, key) == Insert(StableSort(init, key), last, key);
      StableSortStable(init, key, k);
      InsertStable(StableSort(init, key), last, key, k);
      FilterConcat(init, [last], KeyIs(key, k));
    }
  }

  /** Where the shifting loop of `SortInPlace` stops, `Insert` puts `x`. */
  lemma {:induction false} InsertAt<T>(s: seq<T>, x: T, key: T -> int, j: nat)
    requires j <= |s|
    requires j == 0 || key(s[j - 1]) <= key(x)
    requires forall m :: j <= m < |s| ==> key(s[m]) > key(x)
    ensures Insert(s, x, key) == s[..j] + [x] + s[j..]
  {
    if j < |s| {
      var init := s[..|s| - 1];
      InsertAt(init, x, key, j);
      assert s == init + [s[|s| - 1]];
    }
  }

  /**
   * The inner loop of an insertion sort: shifts the elements of the sorted
   * prefix `a[..i]` whose key exceeds that of `a[i]` one place right and
   * puts `a[i]` in the gap.
   */
  method InsertInPlace<T>(a: array<T>, i: nat, key: T -> int)
    requires i < a.Length
    modifies a
    ensures a[..i + 1] == Insert(old(a[..i]), old(a[i]), key)
    ensures forall m :: i < m < a.Length ==> a[m] == old(a[m])
  {
    ghost var sorted := a[..i];
    var x := a[i];
    var j := i;
    while j > 0 && key(a[j - 1]) > key(x)
      invariant 0 <= j <= i
      invariant forall m :: 0 <= m < j ==> a[m] == sorted[m]
      invariant forall m :: j < m <= i ==> a[m] == sorted[m - 1]
      invariant forall m :: i < m < a.Length ==> a[m] == old(a[m])
      invariant forall m :: j <= m < i ==> key(sorted[m]) > key(x)
    {
      a[j] := a[j - 1];
      j := j - 1;
    }
    a[j] := x;
    InsertAt(sorted, x, key, j);
    assert a[..i + 1] == sorted[..j] + [x] + sorted[j..];
  }

  /** Sorts `a` in place, as `a.sort((x, y) => key(x) - key(y))` does. */
  method SortInPlace<T>(a: array<T>, key: T -> int)
    modifies a
    ensures a[..] == StableSort(old(a[..]), key)
  {
    ghost var input := a[..];
    var i := 0;
    while i < a.Length
      invariant 0 <= i <= a.Length
      invariant a[..i] == StableSort(input[..i], key)
      invariant forall m :: i <= m < a.Length ==> a[m] == input[m]
    {
      InsertInPlace(a, i, key);
      assert input[..i + 1][..i] == input[..i];
      i := i + 1;
    }
    assert input[..a.Length] == input;
  }

  // ------------------------------------------------------ descending order

  /**
   * A comparator `(a, b) => key(b) - key(a)` sorts by descending key, which
   * is ascending order of the negated key.
   */
  function Negated<T>(key: T -> int): T -> int
  {
    x => -key(x)
  }

  /** Sorting by the negated key leaves the key non-increasing. */
  lemma SortDescendingOrdered<T>(items: seq<T>, key: T -> int)
    ensures var r := StableSort(items, Negated(key));
            forall i, j :: 0 <= i < j < |r| ==> key(r[i]) >= key(r[j])
  {
    var r := StableSort(items, Negated(key));
    StableSortSorted(items, Negated(key));
    forall i, j | 0 <= i < j < |r| ensures key(r[i]) >= key(r[j]) {
      assert Negated(key)(r[i]) <= Negated(key)(r[j]);
    }
  }

  /** The keys equal to `k` are exactly those whose negation equals `-k`. */
  lemma NegatedKeyFilter<T>(s: seq<T>, key: T -> int, k: int)
    ensures Filter(s, KeyIs(Negated(key), -k)) == Filter(s, KeyIs(key, k))
  {
    forall x | x in s ensures KeyIs(Negated(key), -k)(x) == KeyIs(key, k)(x) {
      assert Negated(key)(x) == -key(x);
    }
    FilterCongruent(s, KeyIs(Negated(key), -k), KeyIs(key, k));
  }

  /** Sorting by the negated key keeps the order of equal keys. */
  lemma SortDescendingStable<T>(items: seq<T>, key: T -> int, k: int)
    ensures Filter(StableSort(items, Negated(key)), KeyIs(key, k)) == Filter(items, KeyIs(key, k))
  {
    StableSortStable(items, Negated(key), -k);
    NegatedKeyFilter(StableSort(items, Negated(key)), key, k);
    NegatedKeyFilter(items, key, k);
  }

  // --------------------------------------------------------------- windows

  /** Splitting `s` at `k`: whatever is not in one part is in the other. */
  lemma PrefixRest<T>(s: seq<T>, k: nat)
    requires k <= |s|
    ensures multiset(s) - multiset(s[..k]) == multiset(s[k..])
    ensures multiset(s) - multiset(s[k..]) == multiset(s[..k])
  {
    assert s == s[..k] + s[k..];
  }

  /** In an ascending list, nothing before position `k` has a larger key than anything after it. */
  lemma AscendingSplit<T>(s: seq<T>, key: T -> int, k: nat)
    requires k <= |s| && SortedBy(s, key)
    ensures forall x, y | x in s[..k] && y in s[k..] :: key(x) <= key(y)
  {
    forall x, y | x in s[..k] && y in s[k..] ensures key(x) <= key(y) {
      var i :| 0 <= i < k && s[i] == x;
      var j :| 0 <= j < |s| - k && s[k..][j] == y;
      assert s[k + j] == y;
    }
  }

  /** In a descending list, nothing among the first `k` has a smaller key than anything left over. */
  lemma DescendingRest<T>(s: seq<T>, key: T -> int, k: nat)
    requires k <= |s|
    requires forall i, j :: 0 <= i < j < |s| ==> key(s[i]) >= key(s[j])
    ensures forall x, y | x in s[..k] && y in multiset(s) - multiset(s[..k]) :: key(x) >= key(y)
  {
    PrefixRest(s, k);
    DescendingSplit(s, key, k);
    forall x, y | x in s[..k] && y in multiset(s) - multiset(s[..k]) ensures key(x) >= key(y) {
      assert y in multiset(s[k..]);
    }
  }

  lemma DescendingSplit<T>(s: seq<T>, key: T -> int, k: nat)
    requires k <= |s|
    requires forall i, j :: 0 <= i < j < |s| ==> key(s[i]) >= key(s[j])
    ensures forall x, y | x in s[..k] && y in s[k..] :: key(x) >= key(y)
  {
    forall x, y | x in s[..k] && y in s[k..] ensures key(x) >= key(y) {
      var i :| 0 <= i < k && s[i] == x;
      var j :| 0 <= j < |s| - k && s[k..][j] == y;
      assert s[k + j] == y;
    }
  }
}
