/** A set ordered by a numeric key, listed in ascending order: elements with equal keys count as equal. */
module OrderedSets {

  ghost predicate Ordered<T(!new)>(key: T -> nat, s: seq<T>)
  {
    forall i, j :: 0 <= i < j < |s| ==> key(s[i]) < key(s[j])
  }

  /** Insertion; an element with an equal key is kept. */
  function Insert<T>(key: T -> nat, s: seq<T>, x: T): seq<T>
  {
    if s == [] || key(x) < key(s[0]) then [x] + s
    else if key(x) == key(s[0]) then s
    else [s[0]] + Insert(key, s[1..], x)
  }

  /** The elements by their keys. */
  function Index<T>(key: T -> nat, s: seq<T>): map<nat, T>
  {
    if s == [] then map[] else Index(key, s[1..])[key(s[0]) := s[0]]
  }

  lemma {:induction false} IndexContents<T(!new)>(key: T -> nat, s: seq<T>, n: nat)
    requires n in Index(key, s)
    ensures key(Index(key, s)[n]) == n && Index(key, s)[n] in s
  {
    if n != key(s[0]) { IndexContents(key, s[1..], n); }
  }

  lemma IndexTail<T(!new)>(key: T -> nat, s: seq<T>)
    requires Ordered(key, s) && s != []
    ensures forall n :: n in Index(key, s[1..]) ==> key(s[0]) < n
    ensures Index(key, s[1..]) == Index(key, s) - {key(s[0])}
  {
    forall n | n in Index(key, s[1..])
      ensures key(s[0]) < n
    {
      IndexContents(key, s[1..], n);
    }
  }

  lemma {:induction false} InsertMembers<T(!new)>(key: T -> nat, s: seq<T>, x: T)
    ensures forall y :: y in Insert(key, s, x) ==> y == x || y in s
  {
    if s != [] {
      InsertMembers(key, s[1..], x);
      assert s == [s[0]] + s[1..];
    }
  }

  /** x is added at one place, unless an element with an equal key is there already. */
  ghost predicate Inserted<T(!new)>(key: T -> nat, s: seq<T>, x: T, s': seq<T>)
  {
    if exists y :: y in s && key(y) == key(x) then s' == s
    else exists i :: 0 <= i <= |s| && s' == s[..i] + [x] + s[i..]
  }

  lemma {:induction false} InsertBetween<T(!new)>(key: T -> nat, s: seq<T>, x: T) returns (i: nat)
    requires forall j :: 0 <= j < |s| ==> key(s[j]) != key(x)
    ensures i <= |s| && Insert(key, s, x) == s[..i] + [x] + s[i..]
  {
    if s == [] || key(x) < key(s[0]) {
      i := 0;
    } else {
      i := InsertBetween(key, s[1..], x);
      assert s[..i + 1] == [s[0]] + s[1..][..i] && s[i + 1..] == s[1..][i..];
      i := i + 1;
    }
  }

  lemma {:induction false} InsertAgain<T(!new)>(key: T -> nat, s: seq<T>, x: T, j: nat)
    requires Ordered(key, s) && j < |s| && key(s[j]) == key(x)
    ensures Insert(key, s, x) == s
  {
    if j > 0 { InsertAgain(key, s[1..], x, j - 1); }
  }

  lemma InsertPlaces<T(!new)>(key: T -> nat, s: seq<T>, x: T)
    requires Ordered(key, s)
    ensures Inserted(key, s, x, Insert(key, s, x))
  {
    if j :| 0 <= j < |s| && key(s[j]) == key(x) {
      InsertAgain(key, s, x, j);
      assert s[j] in s;
    } else {
      var i := InsertBetween(key, s, x);
    }
  }

  lemma {:induction false} InsertKeepsOrder<T(!new)>(key: T -> nat, s: seq<T>, x: T)
    requires Ordered(key, s)
    ensures Ordered(key, Insert(key, s, x))
  {
    if s != [] && key(x) > key(s[0]) {
      InsertKeepsOrder(key, s[1..], x);
      InsertMembers(key, s[1..], x);
      var r := Insert(key, s[1..], x);
      forall i | 0 <= i < |r|
        ensures key(s[0]) < key(r[i])
      {
        assert r[i] in r;
        if r[i] != x {
          var j :| 0 <= j < |s[1..]| && s[1..][j] == r[i];
        }
      }
    }
  }

  lemma {:induction false} InsertIntoIndex<T(!new)>(key: T -> nat, s: seq<T>, x: T)
    requires Ordered(key, s)
    ensures Index(key, Insert(key, s, x)) == if key(x) in Index(key, s) then Index(key, s)
      else Index(key, s)[key(x) := x]
    ensures key(x) in Index(key, s) <==> Insert(key, s, x) == s
  {
    if s != [] {
      IndexTail(key, s);
      if key(x) > key(s[0]) {
        InsertIntoIndex(key, s[1..], x);
        assert s == [s[0]] + s[1..];
        assert ([s[0]] + Insert(key, s[1..], x))[1..] == Insert(key, s[1..], x);
      } else if key(x) < key(s[0]) {
        assert ([x] + s)[1..] == s;
      }
    }
  }

  /** The listing is determined by the index. */
  lemma {:induction false} OrderedIsCanonical<T(!new)>(key: T -> nat, s: seq<T>, t: seq<T>)
    requires Ordered(key, s) && Ordered(key, t) && Index(key, s) == Index(key, t)
    ensures s == t
  {
    assert s != [] ==> key(s[0]) in Index(key, s);
    assert t != [] ==> key(t[0]) in Index(key, t);
    if s != [] && t != [] {
      IndexTail(key, s);
      IndexTail(key, t);
      assert key(s[0]) == key(t[0]);
      assert Index(key, s)[key(s[0])] == s[0] && Index(key, t)[key(t[0])] == t[0];
      OrderedIsCanonical(key, s[1..], t[1..]);
      assert s == [s[0]] + s[1..] && t == [t[0]] + t[1..];
    }
  }

  ghost function MapValues<T, V>(f: T -> V, m: map<nat, T>): map<nat, V>
  {
    map n | n in m :: f(m[n])
  }

  lemma MapValuesUpdate<T, V>(f: T -> V, m: map<nat, T>, n: nat, x: T)
    ensures MapValues(f, m[n := x]) == MapValues(f, m)[n := f(x)]
    ensures MapValues(f, m).Keys == m.Keys
  {
  }

  /** An image under an injective reading of the elements determines the listing, too. */
  lemma ImageIsCanonical<T(!new), V>(key: T -> nat, f: T -> V, s: seq<T>, t: seq<T>)
    requires Ordered(key, s) && Ordered(key, t)
    requires MapValues(f, Index(key, s)) == MapValues(f, Index(key, t))
    requires forall x, y :: x in s && y in t && f(x) == f(y) ==> x == y
    ensures s == t
  {
    var i, j := Index(key, s), Index(key, t);
    assert i.Keys == MapValues(f, i).Keys && j.Keys == MapValues(f, j).Keys;
    forall n | n in i
      ensures n in j && i[n] == j[n]
    {
      assert n in MapValues(f, i);
      IndexContents(key, s, n);
      IndexContents(key, t, n);
      assert MapValues(f, i)[n] == f(i[n]) && MapValues(f, j)[n] == f(j[n]);
    }
    assert i == j;
    OrderedIsCanonical(key, s, t);
  }
}
