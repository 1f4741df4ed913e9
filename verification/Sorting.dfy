/** Stable sorting, as a library does it. */
module Sorting {

  import opened Prelude

  /** Any two elements compare, and comparing is transitive. */
  ghost predicate Total<T(!new)>(leq: (T, T) -> bool)
  {
    && (forall x, y :: leq(x, y) || leq(y, x))
    && (forall x, y, z :: leq(x, y) && leq(y, z) ==> leq(x, z))
  }

  ghost predicate Sorted<T>(leq: (T, T) -> bool, s: seq<T>)
  {
    forall i, j :: 0 <= i < j < |s| ==> leq(s[i], s[j])
  }

  /** Insertion into a sorted list, behind equals. */
  function Insert<T>(leq: (T, T) -> bool, s: seq<T>, x: T): seq<T>
  {
    if s == [] || !leq(s[0], x) then [x] + s else [s[0]] + Insert(leq, s[1..], x)
  }

  function Sort<T>(leq: (T, T) -> bool, s: seq<T>): seq<T>
  {
    if s == [] then [] else Insert(leq, Sort(leq, s[..|s| - 1]), s[|s| - 1])
  }

  lemma {:induction false} InsertContents<T>(leq: (T, T) -> bool, s: seq<T>, x: T)
    ensures multiset(Insert(leq, s, x)) == multiset(s) + multiset{x}
  {
    if s != [] {
      assert s == [s[0]] + s[1..];
      InsertContents(leq, s[1..], x);
    }
  }

  lemma {:induction false} InsertSorted<T(!new)>(leq: (T, T) -> bool, s: seq<T>, x: T)
    requires Total(leq) && Sorted(leq, s)
    ensures Sorted(leq, Insert(leq, s, x))
    ensures Insert(leq, s, x) != [] && (Insert(leq, s, x)[0] == x || (s != [] && Insert(leq, s, x)[0] == s[0]))
  {
    if s != [] {
      if leq(s[0], x) {
        InsertSorted(leq, s[1..], x);
        var r := Insert(leq, s[1..], x);
        forall i | 0 <= i < |r|
          ensures leq(s[0], r[i])
        {
          if i > 0 { assert leq(r[0], r[i]); }
        }
      } else {
        forall i | 0 <= i < |s|
          ensures leq(x, s[i])
        {
          if i > 0 { assert leq(s[0], s[i]); }
        }
      }
    }
  }

  /** Sorting is a permutation. */
  lemma {:induction false} SortContents<T>(leq: (T, T) -> bool, s: seq<T>)
    ensures multiset(Sort(leq, s)) == multiset(s)
  {
    if s != [] {
      var front := s[..|s| - 1];
      SortContents(leq, front);
      InsertContents(leq, Sort(leq, front), s[|s| - 1]);
      assert s == front + [s[|s| - 1]];
    }
  }

  lemma SortMembers<T>(leq: (T, T) -> bool, s: seq<T>, y: T)
    ensures y in Sort(leq, s) <==> y in s
  {
    SortContents(leq, s);
    assert y in Sort(leq, s) <==> y in multiset(Sort(leq, s));
    assert y in s <==> y in multiset(s);
  }

  lemma {:induction false} SortSorted<T(!new)>(leq: (T, T) -> bool, s: seq<T>)
    requires Total(leq)
    ensures Sorted(leq, Sort(leq, s))
  {
    if s != [] {
      SortSorted(leq, s[..|s| - 1]);
      InsertSorted(leq, Sort(leq, s[..|s| - 1]), s[|s| - 1]);
    }
  }

  /** Sorting and reversing puts an element first that no other one exceeds. */
  lemma TopFirst<T(!new)>(leq: (T, T) -> bool, s: seq<T>, x: T)
    requires Total(leq) && x in s
    ensures
      var ranked := Reverse(Sort(leq, s));
      ranked != [] && leq(x, ranked[0]) && ranked[0] in s
  {
    var sorted := Sort(leq, s);
    SortMembers(leq, s, x);
    SortSorted(leq, s);
    var i :| 0 <= i < |sorted| && sorted[i] == x;
    var last := sorted[|sorted| - 1];
    SortMembers(leq, s, last);
    assert leq(x, last) || i == |sorted| - 1;
    assert leq(x, x);
  }
}
