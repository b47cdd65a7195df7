/** Stable sorting by a key of two numbers, compared in turn. */
module Sorting {
  type Key = (nat, nat)

  predicate AtMost(a: Key, b: Key) {
    a.0 < b.0 || (a.0 == b.0 && a.1 <= b.1)
  }

  predicate Sorted<T>(s: seq<T>, key: T -> Key) {
    forall i, j | 0 <= i < j < |s| :: AtMost(key(s[i]), key(s[j]))
  }

  /** x goes after every element of s that is not greater: ties keep their order. */
  function InsertLate<T>(s: seq<T>, x: T, key: T -> Key): (r: seq<T>)
    ensures |r| == |s| + 1
  {
    if s == [] || AtMost(key(s[|s| - 1]), key(x)) then s + [x]
    else InsertLate(s[..|s| - 1], x, key) + [s[|s| - 1]]
  }

  function StableSort<T>(s: seq<T>, key: T -> Key): (r: seq<T>)
    ensures |r| == |s|
  {
    if s == [] then [] else InsertLate(StableSort(s[..|s| - 1], key), s[|s| - 1], key)
  }

  lemma {:induction false} InsertMembers<T>(s: seq<T>, x: T, key: T -> Key)
    ensures multiset(InsertLate(s, x, key)) == multiset(s) + multiset{x}
  {
    if s != [] && !AtMost(key(s[|s| - 1]), key(x)) {
      InsertMembers(s[..|s| - 1], x, key);
      assert s == s[..|s| - 1] + [s[|s| - 1]];
    }
  }

  lemma InMultiset<T>(s: seq<T>, x: T)
    ensures x in multiset(s) <==> x in s
  {
  }

  lemma {:induction false} InsertSorted<T>(s: seq<T>, x: T, key: T -> Key)
    requires Sorted(s, key)
    ensures Sorted(InsertLate(s, x, key), key)
  {
    if s != [] && !AtMost(key(s[|s| - 1]), key(x)) {
      var front, l := s[..|s| - 1], s[|s| - 1];
      InsertSorted(front, x, key);
      var r := InsertLate(front, x, key);
      forall i | 0 <= i < |r| ensures AtMost(key(r[i]), key(l)) {
        InsertMembers(front, x, key);
        InMultiset(r, r[i]);
        if r[i] != x {
          InMultiset(front, r[i]);
          var j :| 0 <= j < |front| && front[j] == r[i];
          assert AtMost(key(s[j]), key(s[|s| - 1]));
        }
      }
    }
  }

  /** The result is sorted and holds the same elements as often. */
  lemma {:induction false} StableSortSorts<T>(s: seq<T>, key: T -> Key)
    ensures Sorted(StableSort(s, key), key) && multiset(StableSort(s, key)) == multiset(s)
  {
    if s != [] {
      var front, l := s[..|s| - 1], s[|s| - 1];
      StableSortSorts(front, key);
      InsertSorted(StableSort(front, key), l, key);
      InsertMembers(StableSort(front, key), l, key);
      assert s == front + [l];
    }
  }

  lemma {:induction false} SortedIsFixed<T>(s: seq<T>, key: T -> Key)
    requires Sorted(s, key)
    ensures StableSort(s, key) == s
  {
    if s != [] {
      var front, l := s[..|s| - 1], s[|s| - 1];
      SortedIsFixed(front, key);
      if front != [] { assert AtMost(key(s[|s| - 2]), key(s[|s| - 1])); }
      assert s == front + [l];
    }
  }

  /** Sorting a sorted list with one more element at its end inserts that element. */
  lemma SortPushed<T>(s: seq<T>, x: T, key: T -> Key)
    requires Sorted(s, key)
    ensures StableSort(s + [x], key) == InsertLate(s, x, key)
  {
    SortedIsFixed(s, key);
    assert (s + [x])[..|s|] == s;
  }
}
