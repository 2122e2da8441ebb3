/** `Array.prototype.sort` with a comparator, as the source uses it to order
    dice by face, effects by priority and perks by name: a stable insertion
    sort over a "sorts no later than" relation `le`. */
module Sorting {

  ghost predicate TotalPreorder<T(!new)>(le: (T, T) -> bool)
  {
    && (forall a, b :: le(a, b) || le(b, a))
    && (forall a, b, c :: le(a, b) && le(b, c) ==> le(a, c))
  }

  predicate SortedBy<T>(s: seq<T>, le: (T, T) -> bool)
  {
    forall i, j :: 0 <= i < j < |s| ==> le(s[i], s[j])
  }

  /** Puts `x` behind every trailing element that does not sort after it,
      so equal elements keep their order. */
  function Insert<T>(s: seq<T>, x: T, le: (T, T) -> bool): (r: seq<T>)
    ensures |r| == |s| + 1
    ensures multiset(r) == multiset(s) + multiset{x}
    decreases |s|
  {
    if |s| == 0 || le(s[|s| - 1], x) then s + [x]
    else
      var r := Insert(s[..|s| - 1], x, le) + [s[|s| - 1]];
      assert s == s[..|s| - 1] + [s[|s| - 1]];
      r
  }

  function SortBy<T>(s: seq<T>, le: (T, T) -> bool): (r: seq<T>)
    decreases |s|
  {
    if |s| == 0 then [] else Insert(SortBy(s[..|s| - 1], le), s[|s| - 1], le)
  }

  /** Two elements come out as they are when the first sorts no later,
      swapped otherwise. */
  lemma SortPair<T>(x: T, y: T, le: (T, T) -> bool)
    ensures SortBy([x, y], le) == if le(x, y) then [x, y] else [y, x]
  {
    assert [x, y][..1] == [x] && [x][..0] == [];
    assert SortBy([x], le) == [x];
    assert SortBy([x, y], le) == Insert([x], y, le);
    if !le(x, y) {
      assert Insert([x], y, le) == Insert([], y, le) + [x];
    }
  }

  /** Sorting only reorders: the result holds the same elements. */
  lemma {:induction false} SortByPermutes<T>(s: seq<T>, le: (T, T) -> bool)
    ensures |SortBy(s, le)| == |s|
    ensures multiset(SortBy(s, le)) == multiset(s)
    decreases |s|
  {
    if |s| > 0 {
      SortByPermutes(s[..|s| - 1], le);
      assert s == s[..|s| - 1] + [s[|s| - 1]];
    }
  }

  /** Every element of an insertion is the inserted one or one of `s`. */
  lemma {:induction false} InsertFrom<T>(s: seq<T>, x: T, le: (T, T) -> bool)
    ensures forall k :: 0 <= k < |Insert(s, x, le)| ==> Insert(s, x, le)[k] == x || Insert(s, x, le)[k] in s
    decreases |s|
  {
    if |s| > 0 && !le(s[|s| - 1], x) {
      var p := s[..|s| - 1];
      InsertFrom(p, x, le);
      assert Insert(s, x, le) == Insert(p, x, le) + [s[|s| - 1]];
      forall k | 0 <= k < |Insert(p, x, le)| && Insert(p, x, le)[k] in p ensures Insert(p, x, le)[k] in s {
        var m :| 0 <= m < |p| && p[m] == Insert(p, x, le)[k];
        assert s[m] == p[m];
      }
    }
  }

  lemma {:induction false} InsertSorted<T(!new)>(s: seq<T>, x: T, le: (T, T) -> bool)
    requires TotalPreorder(le)
    requires SortedBy(s, le)
    ensures SortedBy(Insert(s, x, le), le)
    decreases |s|
  {
    if |s| > 0 && !le(s[|s| - 1], x) {
      var p := s[..|s| - 1];
      var last := s[|s| - 1];
      InsertSorted(p, x, le);
      InsertFrom(p, x, le);
      var q := Insert(p, x, le);
      var r := q + [last];
      assert Insert(s, x, le) == r;
      // every element of q is x or an element of p, and both sort no later than last
      forall k | 0 <= k < |q| ensures le(q[k], last) {
        if q[k] != x {
          var m :| 0 <= m < |p| && p[m] == q[k];
          assert le(s[m], s[|s| - 1]);
        }
      }
      forall i, j | 0 <= i < j < |r| ensures le(r[i], r[j]) {
        if j < |q| {
          assert r[i] == q[i] && r[j] == q[j];
        }
      }
    }
  }

  /** Sorting with a total preorder gives an ordered sequence. */
  lemma {:induction false} SortBySorted<T(!new)>(s: seq<T>, le: (T, T) -> bool)
    requires TotalPreorder(le)
    ensures SortedBy(SortBy(s, le), le)
    decreases |s|
  {
    if |s| > 0 {
      SortBySorted(s[..|s| - 1], le);
      InsertSorted(SortBy(s[..|s| - 1], le), s[|s| - 1], le);
    }
  }

  /** A key-ordered sort: `(a, b) => key(a) - key(b)`. */
  function ByKey<T>(key: T -> int): (T, T) -> bool
  {
    (a: T, b: T) => key(a) <= key(b)
  }

  lemma ByKeyTotal<T(!new)>(key: T -> int)
    ensures TotalPreorder(ByKey(key))
  {
  }

  lemma {:induction false} SortByKeySorted<T(!new)>(s: seq<T>, key: T -> int)
    ensures |SortBy(s, ByKey(key))| == |s|
    ensures multiset(SortBy(s, ByKey(key))) == multiset(s)
    ensures forall i, j :: 0 <= i < j < |s| ==> key(SortBy(s, ByKey(key))[i]) <= key(SortBy(s, ByKey(key))[j])
  {
    ByKeyTotal(key);
    SortBySorted(s, ByKey(key));
    SortByPermutes(s, ByKey(key));
  }
}
