/** Array built-ins the pages and handlers use: `find`, `slice(0, n)` and
    `Array.from(new Set(xs))`. */
module Seqs {
  import opened Wrappers

  /** Index of the first element satisfying `p` (`findIndex`). */
  function FindIndex<T>(xs: seq<T>, p: T -> bool): (r: Option<nat>)
    ensures r.Some? ==> r.value < |xs| && p(xs[r.value])
    ensures r.Some? ==> forall j :: 0 <= j < r.value ==> !p(xs[j])
    ensures r.None? ==> forall j :: 0 <= j < |xs| ==> !p(xs[j])
  {
    if |xs| == 0 then None
    else if p(xs[0]) then Some(0)
    else
      match FindIndex(xs[1..], p)
      case Some(i) => Some(i + 1)
      case None => None
  }

  /** `xs.find(p)`: the first element satisfying `p`, `None` for `undefined`. */
  function Find<T>(xs: seq<T>, p: T -> bool): (r: Option<T>)
    ensures r.Some? ==> r.value in xs && p(r.value)
    ensures r.Some? ==> exists i :: 0 <= i < |xs| && xs[i] == r.value && forall j :: 0 <= j < i ==> !p(xs[j])
    ensures r.None? <==> forall j :: 0 <= j < |xs| ==> !p(xs[j])
  {
    match FindIndex(xs, p)
    case Some(i) => Some(xs[i])
    case None => None
  }

  /** `find` returns the element at the first position that satisfies `p`. */
  lemma FindFirst<T>(xs: seq<T>, p: T -> bool, i: nat)
    requires i < |xs| && p(xs[i])
    requires forall j :: 0 <= j < i ==> !p(xs[j])
    ensures Find(xs, p) == Some(xs[i])
  {
    var k := FindIndex(xs, p).value;
    assert k == i;
  }

  /** `find` passes over a first element that does not satisfy the predicate. */
  lemma FindSkip<T>(xs: seq<T>, p: T -> bool)
    requires |xs| > 0 && !p(xs[0])
    ensures Find(xs, p) == Find(xs[1..], p)
  {
    match Find(xs[1..], p)
    case Some(x) =>
      var i :| 0 <= i < |xs[1..]| && xs[1..][i] == x && forall j :: 0 <= j < i ==> !p(xs[1..][j]);
      FindFirst(xs, p, i + 1);
    case None =>
  }

  /** The end index `xs.slice(0, n)` stops at: a negative `n` counts from the end. */
  function SliceEnd(len: nat, n: int): (e: nat)
    ensures e <= len
    ensures n >= 0 ==> e == if n < len then n else len
    ensures n < 0 ==> e == if len + n > 0 then len + n else 0
  {
    if n < 0 then (if len + n > 0 then len + n else 0)
    else if n < len then n else len
  }

  /** `xs.slice(0, n)`. */
  function Take<T>(xs: seq<T>, n: int): (r: seq<T>)
    ensures |r| <= |xs| && r == xs[..|r|]
    ensures n >= 0 ==> |r| == if n < |xs| then n else |xs|
  {
    xs[..SliceEnd(|xs|, n)]
  }

  predicate NoDuplicates<T(==)>(xs: seq<T>) {
    forall i, j :: 0 <= i < j < |xs| ==> xs[i] != xs[j]
  }

  /** Position of the first occurrence of `x` in `xs`. */
  function FirstIndexOf<T(==)>(xs: seq<T>, x: T): (k: nat)
    requires x in xs
    ensures k < |xs| && xs[k] == x
    ensures forall j :: 0 <= j < k ==> xs[j] != x
  {
    if xs[0] == x then 0 else 1 + FirstIndexOf(xs[1..], x)
  }

  /** The first occurrence of an element of `xs` does not move when something is appended. */
  lemma FirstIndexOfAppend<T>(xs: seq<T>, ys: seq<T>, x: T)
    requires x in xs
    ensures x in xs + ys && FirstIndexOf(xs + ys, x) == FirstIndexOf(xs, x)
  {
    var k := FirstIndexOf(xs, x);
    var k2 := FirstIndexOf(xs + ys, x);
    assert (xs + ys)[k] == x;
    assert k2 <= k;
    assert xs[k2] == x;
  }

  /** Behind a prefix that does not hold `x`, the first occurrence of `x` moves by the prefix. */
  lemma FirstIndexOfBehind<T>(xs: seq<T>, ys: seq<T>, x: T)
    requires x in ys && x !in xs
    ensures x in xs + ys && FirstIndexOf(xs + ys, x) == |xs| + FirstIndexOf(ys, x)
  {
    var k := FirstIndexOf(ys, x);
    var k2 := FirstIndexOf(xs + ys, x);
    assert (xs + ys)[|xs| + k] == x;
    assert k2 >= |xs|;
    assert ys[k2 - |xs|] == x;
  }

  /** The elements of `r` first occur in `xs` in the order `r` lists them. */
  predicate InFirstOccurrenceOrder<T(==)>(xs: seq<T>, r: seq<T>)
    requires forall i :: 0 <= i < |r| ==> r[i] in xs
  {
    forall i :: 0 <= i < |r| - 1 ==> FirstIndexOf(xs, r[i]) < FirstIndexOf(xs, r[i + 1])
  }

  /** `Array.from(new Set(xs))`: the first occurrence of every element, in order. */
  function Dedup<T(==)>(xs: seq<T>): (r: seq<T>)
    ensures NoDuplicates(r)
    ensures forall i :: 0 <= i < |r| ==> r[i] in xs
    ensures forall i :: 0 <= i < |xs| ==> xs[i] in r
    ensures InFirstOccurrenceOrder(xs, r)
    ensures |r| <= |xs|
    ensures |xs| > 0 ==> |r| > 0 && r[0] == xs[0]
  {
    if |xs| == 0 then []
    else
      var init := xs[..|xs| - 1];
      var last := xs[|xs| - 1];
      assert xs == init + [last];
      var d := Dedup(init);
      if last in d then
        DedupKeep(init, last, d);
        d
      else
        DedupAdd(init, last, d);
        d + [last]
  }

  /** The order of first occurrences survives appending an element already seen. */
  lemma DedupKeep<T>(init: seq<T>, last: T, d: seq<T>)
    requires forall i :: 0 <= i < |d| ==> d[i] in init
    requires InFirstOccurrenceOrder(init, d)
    ensures forall i :: 0 <= i < |d| ==> d[i] in init + [last]
    ensures InFirstOccurrenceOrder(init + [last], d)
  {
    var xs := init + [last];
    forall i | 0 <= i < |d|
      ensures d[i] in xs && FirstIndexOf(xs, d[i]) == FirstIndexOf(init, d[i])
    {
      FirstIndexOfAppend(init, [last], d[i]);
    }
  }

  /** A new element goes after every element seen before it. */
  lemma DedupAdd<T>(init: seq<T>, last: T, d: seq<T>)
    requires forall i :: 0 <= i < |d| ==> d[i] in init
    requires last !in init
    requires InFirstOccurrenceOrder(init, d)
    ensures forall i :: 0 <= i < |d| + 1 ==> (d + [last])[i] in init + [last]
    ensures InFirstOccurrenceOrder(init + [last], d + [last])
  {
    var xs := init + [last];
    var r := d + [last];
    DedupKeep(init, last, d);
    FirstIndexOfBehind(init, [last], last);
    forall i | 0 <= i < |r| - 1
      ensures FirstIndexOf(xs, r[i]) < FirstIndexOf(xs, r[i + 1])
    {
      assert r[i] == d[i];
      if i + 1 < |d| {
        assert r[i + 1] == d[i + 1];
      } else {
        assert r[i + 1] == last;
        FirstIndexOfAppend(init, [last], d[i]);
      }
    }
  }

  /** A list without repeats passes through `new Set` unchanged. */
  lemma {:induction false} DedupOfDistinct<T>(xs: seq<T>)
    requires NoDuplicates(xs)
    ensures Dedup(xs) == xs
  {
    if |xs| > 0 {
      var init := xs[..|xs| - 1];
      assert NoDuplicates(init);
      DedupOfDistinct(init);
      assert xs[|xs| - 1] !in init;
      assert xs == init + [xs[|xs| - 1]];
    }
  }

  /** Deduplicating twice is deduplicating once. */
  lemma DedupIdempotent<T>(xs: seq<T>)
    ensures Dedup(Dedup(xs)) == Dedup(xs)
  {
    DedupOfDistinct(Dedup(xs));
  }
}
