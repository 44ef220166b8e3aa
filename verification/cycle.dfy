/** Stepping an image index forwards and backwards around a list of `n` pictures, as the
    lightbox and the carousel do with `(i + 1) % n` and `(i - 1 + n) % n`. JavaScript's `%`
    truncates towards zero, and `% 0` yields `NaN`, which every later step keeps. */
module Cycle {
  import opened Wrappers

  /** A JavaScript number used as an index: an integer, or `NaN`. */
  datatype Index = At(i: int) | NaN

  /** The remainder of JavaScript's `%` on integers with a positive divisor: it takes the sign
      of the dividend, so it stays below `n` in size but is negative for a negative dividend.
      Its magnitude is the Euclidean remainder of the dividend's magnitude (Dafny's `%`). */
  function JsRem(a: int, n: int): (r: int)
    requires n > 0
    ensures -n < r < n
    ensures a >= 0 ==> r >= 0
    ensures a < 0 ==> r <= 0
    ensures -n < a < n ==> r == a
    ensures n <= a < 2 * n ==> r == a - n
    ensures -2 * n < a <= -n ==> r == a + n
    ensures a >= 0 ==> r == a % n
    ensures a < 0 ==> r == -((-a) % n)
    decreases if a >= 0 then a else -a
  {
    if -n < a < n then
      ModOfDecomposition(if a >= 0 then a else -a, n, 0, if a >= 0 then a else -a);
      a
    else if a >= n then
      ModSub(a, n);
      JsRem(a - n, n)
    else
      ModSub(-a, n);
      ModOfDecomposition(0, n, 0, 0);
      JsRem(a + n, n)
  }

  /** Euclidean division is unique: a remainder in `[0, n)` with a matching quotient is `a % n`. */
  lemma ModOfDecomposition(a: int, n: int, q: int, r: int)
    requires n > 0 && 0 <= r < n && a == q * n + r
    ensures a % n == r
  {
    var q2 := a / n;
    var r2 := a % n;
    assert a == q2 * n + r2;
    assert (q - q2) * n == r2 - r;
    MulBounds(q - q2, n);
  }

  lemma MulBounds(k: int, n: int)
    requires n > 0
    ensures k >= 1 ==> k * n >= n
    ensures k <= -1 ==> k * n <= -n
  {
    if k >= 1 {
      assert k * n == (k - 1) * n + n;
      assert (k - 1) * n >= 0;
    } else if k <= -1 {
      assert k * n == (k + 1) * n - n;
      assert (k + 1) * n <= 0;
    }
  }

  /** Taking `n` away does not change the remainder. */
  lemma ModSub(a: int, n: int)
    requires n > 0
    ensures (a - n) % n == a % n
  {
    var q := a / n;
    var r := a % n;
    assert a == q * n + r;
    assert a - n == (q - 1) * n + r;
    ModOfDecomposition(a - n, n, q - 1, r);
  }

  /** `a` is a multiple of `n` exactly when `-a` is. */
  lemma ModNeg(a: int, n: int)
    requires n > 0
    ensures a % n == 0 <==> (-a) % n == 0
  {
    var q := a / n;
    assert a == q * n + a % n;
    if a % n == 0 {
      ModOfDecomposition(-a, n, -q, 0);
    }
    var p := (-a) / n;
    assert -a == p * n + (-a) % n;
    if (-a) % n == 0 {
      ModOfDecomposition(a, n, -p, 0);
    }
  }

  /** `(i + 1) % n`. */
  function Next(x: Index, n: nat): (r: Index)
    ensures n == 0 || x.NaN? <==> r.NaN?
    ensures x.At? && n > 0 && 0 <= x.i < n ==> r.At? && 0 <= r.i < n
    ensures x.At? && n > 0 && 0 <= x.i < n - 1 ==> r == At(x.i + 1)
    ensures x.At? && n > 0 && x.i == n - 1 ==> r == At(0)
  {
    if n == 0 || x.NaN? then NaN else At(JsRem(x.i + 1, n))
  }

  /** `(i - 1 + n) % n`. */
  function Prev(x: Index, n: nat): (r: Index)
    ensures n == 0 || x.NaN? <==> r.NaN?
    ensures x.At? && n > 0 && 0 <= x.i < n ==> r.At? && 0 <= r.i < n
    ensures x.At? && n > 0 && 0 < x.i < n ==> r == At(x.i - 1)
    ensures x.At? && n > 0 && x.i == 0 ==> r == At(n - 1)
  {
    if n == 0 || x.NaN? then NaN else At(JsRem(x.i - 1 + n, n))
  }

  predicate InRange(x: Index, n: nat) {
    x.At? && 0 <= x.i < n
  }

  /** Within range, stepping back undoes stepping forward and the other way round. */
  lemma PrevNext(x: Index, n: nat)
    requires InRange(x, n)
    ensures Prev(Next(x, n), n) == x
    ensures Next(Prev(x, n), n) == x
  {
  }

  /** From a non-negative index one forward step lands in range, whatever the index was, at
      the position `i + 1` has modulo `n`: a list that shrank under a stale index is back in
      range after one step. */
  lemma NextFromNonNegative(x: Index, n: nat)
    requires n > 0 && x.At? && x.i >= 0
    ensures InRange(Next(x, n), n)
    ensures Next(x, n) == At((x.i + 1) % n)
  {
  }

  /** From a negative index a forward step lands in range exactly when `i + 1` is a multiple of
      `n` (JavaScript's `-0`, which names slide 0); otherwise the index stays negative. */
  lemma NextFromNegative(x: Index, n: nat)
    requires n > 0 && x.At? && x.i < 0
    ensures InRange(Next(x, n), n) <==> (x.i + 1) % n == 0
    ensures !InRange(Next(x, n), n) ==> Next(x, n).At? && Next(x, n).i < 0
  {
    ModNeg(x.i + 1, n);
  }

  /** `k` forward steps. */
  function Advance(x: Index, n: nat, k: nat): (r: Index)
    ensures InRange(x, n) ==> InRange(r, n)
  {
    if k == 0 then x else Next(Advance(x, n, k - 1), n)
  }

  /** Steps compose: `a` steps and then `b` more are `a + b` steps. */
  lemma {:induction false} AdvanceAdd(x: Index, n: nat, a: nat, b: nat)
    ensures Advance(Advance(x, n, a), n, b) == Advance(x, n, a + b)
  {
    if b > 0 {
      AdvanceAdd(x, n, a, b - 1);
    }
  }

  /** Below the end of the list, `k` forward steps from `i` reach `i + k`. */
  lemma {:induction false} AdvanceBelowEnd(i: int, n: nat, k: nat)
    requires 0 <= i && i + k < n
    ensures Advance(At(i), n, k) == At(i + k)
  {
    if k > 0 {
      AdvanceBelowEnd(i, n, k - 1);
    }
  }

  /** `n` forward steps go once round the list and back to where they started. */
  lemma FullCycle(i: int, n: nat)
    requires 0 <= i < n
    ensures Advance(At(i), n, n) == At(i)
  {
    var m := n - 1 - i;
    AdvanceBelowEnd(i, n, m);
    AdvanceAdd(At(i), n, m, 1);
    Wrap(n);
    var atZero := Advance(At(i), n, m + 1);
    assert atZero == At(0);
    AdvanceBelowEnd(0, n, i);
    AdvanceAdd(At(i), n, m + 1, i);
    assert Advance(atZero, n, i) == At(i);
    assert m + 1 + i == n;
  }

  /** One step from the last position wraps round to the first. */
  lemma Wrap(n: nat)
    requires n > 0
    ensures Advance(At(n - 1), n, 1) == At(0)
  {
    assert Advance(At(n - 1), n, 1) == Next(At(n - 1), n);
  }

  /** What a component showing `images` at `index` renders: nothing for an empty list (both
      return `null`); otherwise the picture at the index, `None` inside `Some` when the index is
      outside the list (`images[index]` is `undefined`). */
  function Displayed(images: seq<string>, index: Index): (r: Option<Option<string>>)
    ensures r.None? <==> |images| == 0
    ensures r.Some? && InRange(index, |images|) ==> r.value == Some(images[index.i])
    ensures r.Some? && !InRange(index, |images|) ==> r.value.None?
  {
    if |images| == 0 then None
    else if InRange(index, |images|) then Some(Some(images[index.i]))
    else Some(None)
  }
}
