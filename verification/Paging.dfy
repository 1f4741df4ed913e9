/** Reading a message history newest first, a page at a time. */
module Paging {

  import opened Prelude

  const DEFAULT_LIMIT := 20

  function Skip<T>(s: seq<T>, n: nat): seq<T>
  {
    if n <= |s| then s[n..] else []
  }

  function Take<T>(s: seq<T>, n: nat): seq<T>
  {
    if n <= |s| then s[..n] else s
  }

  function Page<T>(s: seq<T>, limit: Option<nat>, offset: Option<nat>): seq<T>
  {
    var n := if limit.Some? then limit.value else DEFAULT_LIMIT;
    var from := if offset.Some? then offset.value else 0;
    Take(Skip(Reverse(s), from), n)
  }

  function Min(m: nat, n: nat): nat
  {
    if m <= n then m else n
  }

  /** p lists the last entries of s backwards: `length` of them, or as many as there are, `from` left out. */
  ghost predicate IsBackward<T>(s: seq<T>, length: nat, from: nat, p: seq<T>)
  {
    && |p| == Min(length, |s| - Min(from, |s|))
    && forall i :: 0 <= i < |p| ==> p[i] == s[|s| - 1 - from - i]
  }

  /** p is the part of the history s, oldest first, that a reader gets: newest first, from the offset on, 20 entries
      when no limit is given, from the newest when no offset is given. */
  ghost predicate IsPage<T>(s: seq<T>, limit: Option<nat>, offset: Option<nat>, p: seq<T>)
  {
    IsBackward(s, if limit.None? then 20 else limit.value, if offset.None? then 0 else offset.value, p)
  }

  lemma SliceContents<T>(s: seq<T>, length: nat, from: nat)
    ensures IsBackward(s, length, from, Take(Skip(Reverse(s), from), length))
  {
    var rest := Skip(Reverse(s), from);
    assert |rest| == |s| - Min(from, |s|);
    assert forall i :: 0 <= i < |rest| ==> rest[i] == s[|s| - 1 - from - i];
  }

  lemma PageContents<T>(s: seq<T>, limit: Option<nat>, offset: Option<nat>)
    ensures IsPage(s, limit, offset, Page(s, limit, offset))
  {
    SliceContents(s, if limit.None? then 20 else limit.value, if offset.None? then 0 else offset.value);
  }

  /** The description leaves no choice. */
  lemma PageIsUnique<T>(s: seq<T>, limit: Option<nat>, offset: Option<nat>, p: seq<T>)
    requires IsPage(s, limit, offset, p)
    ensures p == Page(s, limit, offset)
  {
    PageContents(s, limit, offset);
  }

  /** Consecutive pages fit together. */
  lemma PagesConcatenate<T>(s: seq<T>, first: nat, second: nat, offset: nat)
    ensures Page(s, Some(first), Some(offset)) + Page(s, Some(second), Some(offset + first))
            == Page(s, Some(first + second), Some(offset))
  {
  }

  /** The pages from an offset on, `count` of them. */
  function Pages<T>(s: seq<T>, limit: nat, offset: nat, count: nat): seq<T>
    decreases count
  {
    if count == 0 then [] else Page(s, Some(limit), Some(offset)) + Pages(s, limit, offset + limit, count - 1)
  }

  /** Slice after slice of a sequence. */
  function Slices<T>(r: seq<T>, limit: nat, from: nat, count: nat): seq<T>
    decreases count
  {
    if count == 0 then [] else Take(Skip(r, from), limit) + Slices(r, limit, from + limit, count - 1)
  }

  lemma {:induction false} SlicesPastEnd<T>(r: seq<T>, limit: nat, from: nat, count: nat)
    requires |r| <= from
    ensures Slices(r, limit, from, count) == []
    decreases count
  {
    if count > 0 { SlicesPastEnd(r, limit, from + limit, count - 1); }
  }

  lemma {:induction false} SlicesCover<T>(r: seq<T>, limit: nat, from: nat, count: nat)
    requires from <= |r| <= from + limit * count
    ensures Slices(r, limit, from, count) == r[from..]
    decreases count
  {
    if count == 0 {
      assert r[from..] == [];
    } else if from + limit <= |r| {
      Shorter(limit, count);
      SlicesCover(r, limit, from + limit, count - 1);
      assert r[from..] == r[from..][..limit] + r[from + limit..];
    } else {
      SlicesPastEnd(r, limit, from + limit, count - 1);
      assert Take(Skip(r, from), limit) == r[from..];
    }
  }

  lemma Shorter(limit: nat, count: nat)
    requires count > 0
    ensures limit * count == limit + limit * (count - 1)
  {
  }

  lemma {:induction false} PagesAreSlices<T>(s: seq<T>, limit: nat, offset: nat, count: nat)
    ensures Pages(s, limit, offset, count) == Slices(Reverse(s), limit, offset, count)
    decreases count
  {
    if count > 0 { PagesAreSlices(s, limit, offset + limit, count - 1); }
  }

  /** Reading page after page gives the whole history, newest first, each message once. */
  lemma PagesCoverHistory<T>(s: seq<T>, limit: nat, offset: nat, count: nat)
    requires offset <= |s| <= offset + limit * count
    ensures Pages(s, limit, offset, count) == Reverse(s)[offset..]
  {
    PagesAreSlices(s, limit, offset, count);
    SlicesCover(Reverse(s), limit, offset, count);
  }
}
