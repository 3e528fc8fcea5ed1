/** Rows in the order of their sort keys, and pages of them. */
module Ordering {

  type Key = (int, int)

  predicate Less(a: Key, b: Key) {
    a.0 < b.0 || (a.0 == b.0 && a.1 < b.1)
  }

  /** No two rows share a sort key, so ORDER BY leaves no choice. */
  predicate Distinct(keys: map<int, Key>) {
    forall x, y :: x in keys && y in keys && x != y ==> keys[x] != keys[y]
  }

  predicate IsFirst(keys: map<int, Key>, m: int) {
    m in keys && forall x :: x in keys && x != m ==> Less(keys[m], keys[x])
  }

  lemma {:induction false} SomeoneIsFirst(keys: map<int, Key>)
    requires Distinct(keys) && exists x :: x in keys
    ensures exists m :: IsFirst(keys, m)
    decreases keys.Keys
  {
    var x :| x in keys;
    var rest := keys - {x};
    if y :| y in rest {
      assert Distinct(rest);
      SomeoneIsFirst(rest);
      var n :| IsFirst(rest, n);
      assert forall z :: z in keys && z != x ==> z in rest && rest[z] == keys[z];
      assert IsFirst(keys, if Less(keys[x], keys[n]) then x else n);
    } else {
      assert forall z :: z in keys && z != x ==> z in rest;
      assert IsFirst(keys, x);
    }
  }

  function First(keys: map<int, Key>): (m: int)
    requires Distinct(keys) && exists x :: x in keys
    ensures IsFirst(keys, m)
  {
    SomeoneIsFirst(keys);
    var m :| m in keys && IsFirst(keys, m); m
  }

  /** The rows in ascending order of key. */
  function Sorted(keys: map<int, Key>): seq<int>
    requires Distinct(keys)
    decreases keys.Keys
  {
    if forall x :: x !in keys then []
    else [First(keys)] + Sorted(keys - {First(keys)})
  }

  ghost predicate Ascending(keys: map<int, Key>, s: seq<int>) {
    && (forall i :: 0 <= i < |s| ==> s[i] in keys)
    && (forall i, j :: 0 <= i < j < |s| ==> Less(keys[s[i]], keys[s[j]]))
  }

  lemma AscendingCons(keys: map<int, Key>, m: int, s: seq<int>)
    requires IsFirst(keys, m) && Ascending(keys - {m}, s)
    ensures Ascending(keys, [m] + s)
  {
    var t := [m] + s;
    forall i | 0 <= i < |t|
      ensures t[i] in keys && (i > 0 ==> t[i] in keys - {m} && t[i] == s[i - 1])
    {}
  }

  /** Sorting keeps every row, exactly once, in strictly ascending order. */
  lemma {:induction false} SortedIsExact(keys: map<int, Key>)
    requires Distinct(keys)
    ensures forall x :: x in keys <==> x in Sorted(keys)
    ensures Ascending(keys, Sorted(keys))
    decreases keys.Keys
  {
    if exists x :: x in keys {
      var m := First(keys);
      var rest := keys - {m};
      SortedIsExact(rest);
      AscendingCons(keys, m, Sorted(rest));
      assert Sorted(keys) == [m] + Sorted(rest);
      forall x ensures x in keys <==> x in Sorted(keys) {
        assert x in keys <==> x == m || x in rest;
      }
    }
  }

  // ---------- Pages ----------

  function Min(a: int, b: int): int {
    if a < b then a else b
  }

  /** LIMIT and OFFSET. */
  function Slice<T>(rows: seq<T>, limit: nat, offset: nat): seq<T> {
    rows[Min(offset, |rows|)..Min(offset + limit, |rows|)]
  }

  const MAX_INT32: int := 0x7fff_ffff

  /** The value that int32 arithmetic keeps. */
  function Wrap32(x: int): int {
    (x + 0x8000_0000) % 0x1_0000_0000 - 0x8000_0000
  }

  /** (page - 1) * size, in int32. */
  function Offset(page: int, size: int): int {
    Wrap32((page - 1) * size)
  }

  /** The offset that the handlers compute is the intended one exactly when the product fits. */
  lemma OffsetIsIntended(page: int, size: int)
    requires 1 <= page <= MAX_INT32 && 1 <= size <= 100
    ensures Offset(page, size) == (page - 1) * size <==> (page - 1) * size <= MAX_INT32
  {
    var x := (page - 1) * size;
    assert x >= 0;
    WrapIsIdentity(x);
  }

  /** In any case it is the one 32-bit integer that differs from the intended one by a multiple of 2^32. */
  lemma OffsetWraps(page: int, size: int)
    ensures -0x8000_0000 <= Offset(page, size) <= MAX_INT32
    ensures ((page - 1) * size - Offset(page, size)) % 0x1_0000_0000 == 0
  {
    WrapIsCongruent((page - 1) * size);
  }

  lemma WrapIsCongruent(x: int)
    ensures -0x8000_0000 <= Wrap32(x) <= MAX_INT32 && (x - Wrap32(x)) % 0x1_0000_0000 == 0
  {}

  lemma WrapIsIdentity(x: int)
    ensures Wrap32(x) == x <==> -0x8000_0000 <= x <= MAX_INT32
  {}

  /** The rows of a page as the handlers serve it; a negative offset is refused and serves none. */
  function PageOf<T>(rows: seq<T>, page: int, size: nat): seq<T> {
    if Offset(page, size) < 0 then [] else Slice(rows, size, Offset(page, size))
  }

  /** Pages 1 to k as they are served, one after the other. */
  function Pages<T>(rows: seq<T>, size: nat, k: nat): seq<T> {
    if k == 0 then [] else Pages(rows, size, k - 1) + PageOf(rows, k, size)
  }

  lemma OffsetsBelowFit(size: nat, j: nat, k: nat)
    requires 1 <= j <= k && (k - 1) * size <= MAX_INT32
    ensures 0 <= (j - 1) * size <= (k - 1) * size
  {
    assert (k - 1) * size == (j - 1) * size + (k - j) * size;
  }

  lemma SlicesJoin<T>(rows: seq<T>, size: nat, offset: nat)
    ensures rows[..Min(offset, |rows|)] + Slice(rows, size, offset) == rows[..Min(offset + size, |rows|)]
  {}

  /** Reading page after page gives every row once, with no gap and no repeat, as long as the last offset fits. */
  lemma {:induction false} PagesCover<T>(rows: seq<T>, size: nat, k: nat)
    requires 1 <= size <= 100 && k <= MAX_INT32 && (k > 0 ==> (k - 1) * size <= MAX_INT32)
    ensures Pages(rows, size, k) == rows[..Min(k * size, |rows|)]
  {
    if k > 0 {
      OffsetsBelowFit(size, if k > 1 then k - 1 else 1, k);
      PagesCover(rows, size, k - 1);
      OffsetIsIntended(k, size);
      SlicesJoin(rows, size, (k - 1) * size);
      assert k * size == (k - 1) * size + size;
    }
  }

  /** Different rows at two offsets are the same rows only if there are none. */
  lemma SlicesDiffer<T>(rows: seq<T>, size: nat, x: nat, y: nat)
    requires size > 0 && forall i, j :: 0 <= i < j < |rows| ==> rows[i] != rows[j]
    ensures Slice(rows, size, x) == [] <==> |rows| <= x
    ensures Slice(rows, size, x) == Slice(rows, size, y) <==> x == y || (|rows| <= x && |rows| <= y)
  {
    assert x < |rows| ==> Slice(rows, size, x)[0] == rows[x];
    assert y < |rows| ==> Slice(rows, size, y)[0] == rows[y];
  }

  /** The offset that a page asks for. */
  function Asked(page: int, size: nat): (offset: nat)
    requires page >= 1
    ensures offset == (page - 1) * size
  {
    (page - 1) * size
  }

  /** The page is not refused, and it is the one asked for. */
  predicate ServedAsIntended<T(==)>(rows: seq<T>, page: int, size: nat)
    requires page >= 1
  {
    Offset(page, size) >= 0 && PageOf(rows, page, size) == Slice(rows, size, Asked(page, size))
  }

  /**
   * Exactly when a page of different rows is served as intended: when its offset fits 32 bits, or when neither
   * the offset asked for nor the one it wraps around to reaches any row, and the latter is not refused.
   * What is served, refusals taken for empty pages, is as intended when the page asked for has no rows
   * and the offset it wraps around to has none either.
   */
  lemma PageIsIntended<T>(rows: seq<T>, page: int, size: nat)
    requires 1 <= page <= MAX_INT32 && 1 <= size <= 100
    requires forall i, j :: 0 <= i < j < |rows| ==> rows[i] != rows[j]
    ensures ServedAsIntended(rows, page, size) <==>
            || Asked(page, size) <= MAX_INT32
            || (|rows| <= Asked(page, size) && 0 <= Offset(page, size) && |rows| <= Offset(page, size))
    ensures PageOf(rows, page, size) == Slice(rows, size, Asked(page, size)) <==>
            || Asked(page, size) <= MAX_INT32
            || (|rows| <= Asked(page, size) && (Offset(page, size) < 0 || |rows| <= Offset(page, size)))
  {
    OffsetIsIntended(page, size);
    SlicesDiffer(rows, size, Asked(page, size), if Offset(page, size) < 0 then 0 else Offset(page, size));
  }

  /**
   * A page number within its type for which rows come back that belong to another page: of a list of any length
   * between 5 and four billion rows the page asked for is empty, and the one served begins with the fifth row.
   */
  lemma LargePageRepeatsEarlyRows<T>(rows: seq<T>)
    requires 5 <= |rows| <= 4_294_967_300
    ensures 85_899_347 <= MAX_INT32 && Offset(85_899_347, 50) == 4
    ensures Slice(rows, 50, (85_899_347 - 1) * 50) == []
    ensures PageOf(rows, 85_899_347, 50) == rows[4..Min(54, |rows|)] != []
  {
    assert PageOf(rows, 85_899_347, 50)[0] == rows[4];
  }
}
