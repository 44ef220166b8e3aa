/** String helpers that mirror the JavaScript built-ins the normalisers call:
    `\s`, `replace(/\s+/g, ' ')`, `trim`, `parseInt(_, 10)`, `parseFloat`,
    `replace(',', '.')`, `startsWith`, `includes`, and decimal printing of integers. */
module Text {
  import opened Wrappers

  /** The characters JavaScript's `\s`, `trim()`, `parseInt` and `parseFloat` treat as white space
      (WhiteSpace and LineTerminator of ECMAScript). */
  predicate IsSpace(c: char) {
    || c == ' ' || c == '\t' || c == '\n' || c == '\U{000B}' || c == '\U{000C}' || c == '\r'
    || c == '\U{00A0}' || c == '\U{1680}' || ('\U{2000}' <= c <= '\U{200A}')
    || c == '\U{2028}' || c == '\U{2029}' || c == '\U{202F}' || c == '\U{205F}'
    || c == '\U{3000}' || c == '\U{FEFF}'
  }

  predicate IsDigit(c: char) { '0' <= c <= '9' }

  predicate AllDigits(s: string) { forall i :: 0 <= i < |s| ==> IsDigit(s[i]) }

  /** The characters of `s` that are not white space, in order. */
  function NonSpace(s: string): string {
    if |s| == 0 then [] else (if IsSpace(s[0]) then [] else [s[0]]) + NonSpace(s[1..])
  }

  /** `s` without its leading white space. */
  function SkipSpaces(s: string): (r: string)
    ensures |r| <= |s| && r == s[|s| - |r|..]
    ensures |r| == 0 || !IsSpace(r[0])
    ensures NonSpace(r) == NonSpace(s)
  {
    if |s| > 0 && IsSpace(s[0]) then
      var r := SkipSpaces(s[1..]);
      assert s[1..][|s| - 1 - |r|..] == s[|s| - |r|..];
      r
    else s
  }

  /** `s` without its trailing white space. */
  function TrimEnd(s: string): (r: string)
    ensures |r| <= |s| && r == s[..|r|]
    ensures |r| == 0 || !IsSpace(r[|r| - 1])
    ensures forall i :: |r| <= i < |s| ==> IsSpace(s[i])
  {
    if |s| > 0 && IsSpace(s[|s| - 1]) then TrimEnd(s[..|s| - 1]) else s
  }

  /** `s.trim()`. */
  function Trim(s: string): string {
    TrimEnd(SkipSpaces(s))
  }

  /** `s.replace(/\s+/g, ' ')`: every maximal run of white space becomes one space. */
  function Collapse(s: string): (r: string)
    ensures |r| == 0 <==> |s| == 0
    ensures |s| > 0 && !IsSpace(s[0]) ==> r[0] == s[0]
    ensures |s| > 0 && IsSpace(s[0]) ==> r[0] == ' '
    decreases |s|
  {
    if |s| == 0 then []
    else if IsSpace(s[0]) then [' '] + Collapse(SkipSpaces(s))
    else [s[0]] + Collapse(s[1..])
  }

  /** What collapsing achieves: the only white space left is single ' ' characters, never two
      in a row, and the other characters are kept in order. */
  lemma {:induction false} CollapseShape(s: string)
    ensures var r := Collapse(s);
      && (forall i :: 0 <= i < |r| && IsSpace(r[i]) ==> r[i] == ' ')
      && (forall i :: 0 <= i < |r| - 1 ==> !IsSpace(r[i]) || !IsSpace(r[i + 1]))
      && NonSpace(r) == NonSpace(s)
    decreases |s|
  {
    if |s| == 0 {
    } else if IsSpace(s[0]) {
      var t := SkipSpaces(s);
      CollapseShape(t);
      var r := Collapse(s);
      assert r == [' '] + Collapse(t);
      assert NonSpace(r) == NonSpace(Collapse(t));
    } else {
      CollapseShape(s[1..]);
      var r := Collapse(s);
      assert r == [s[0]] + Collapse(s[1..]);
      assert NonSpace(r) == [s[0]] + NonSpace(Collapse(s[1..]));
    }
  }

  /** Index of the first occurrence of `c` in `s`. */
  function IndexOf(s: string, c: char): (r: Option<nat>)
    ensures r.Some? ==> r.value < |s| && s[r.value] == c && c !in s[..r.value]
    ensures r.None? <==> c !in s
  {
    if |s| == 0 then None
    else if s[0] == c then Some(0)
    else
      match IndexOf(s[1..], c)
      case Some(i) => (assert s[..i + 1] == [s[0]] + s[1..][..i]; Some(i + 1))
      case None => (assert s == [s[0]] + s[1..]; None)
  }

  /** `s.replace(a, b)` with a one-character string pattern: only the FIRST occurrence is
      replaced, and every other character stays where it was. */
  function ReplaceFirst(s: string, a: char, b: char): (r: string)
    ensures |r| == |s|
    ensures IndexOf(s, a).None? ==> r == s
    ensures IndexOf(s, a).Some? ==> r[IndexOf(s, a).value] == b
    ensures forall j :: 0 <= j < |s| && Some(j) != IndexOf(s, a) ==> r[j] == s[j]
  {
    match IndexOf(s, a)
    case Some(i) => s[..i] + [b] + s[i + 1..]
    case None => s
  }

  /** `s.startsWith(p)`. */
  predicate StartsWith(s: string, p: string) {
    |p| <= |s| && s[..|p|] == p
  }

  /** `s.includes(p)`: `p` occurs at some position of `s`. */
  predicate Contains(s: string, p: string)
    decreases |s|
  {
    StartsWith(s, p) || (|s| > 0 && Contains(s[1..], p))
  }

  function DigitChar(d: nat): char
    requires d < 10
  {
    "0123456789"[d]
  }

  function DigitValue(c: char): nat
    requires IsDigit(c)
  {
    (c as int - '0' as int) as nat
  }

  /** The number a string of decimal digits denotes. */
  function DigitsValue(ds: string): nat
    requires AllDigits(ds)
  {
    if |ds| == 0 then 0 else DigitsValue(ds[..|ds| - 1]) * 10 + DigitValue(ds[|ds| - 1])
  }

  /** Decimal notation of a natural number, as `String(n)` prints it. */
  function NatToStr(n: nat): (r: string)
    ensures |r| > 0 && AllDigits(r)
    ensures r[0] == '0' ==> n == 0
  {
    if n < 10 then [DigitChar(n)] else NatToStr(n / 10) + [DigitChar(n % 10)]
  }

  /** Decimal notation of an integer, with a leading '-' for negatives. */
  function IntToStr(n: int): string {
    if n < 0 then "-" + NatToStr(-n) else NatToStr(n)
  }

  /** Length of the run of decimal digits that `s` starts with. */
  function DigitRun(s: string): (k: nat)
    ensures k <= |s| && AllDigits(s[..k])
    ensures k == |s| || !IsDigit(s[k])
  {
    if |s| > 0 && IsDigit(s[0]) then
      var k := DigitRun(s[1..]);
      assert s[..k + 1] == [s[0]] + s[1..][..k];
      k + 1
    else 0
  }

  /** Sign and remainder after an optional leading '+' or '-'. */
  function SplitSign(t: string): (bool, string) {
    if |t| > 0 && (t[0] == '-' || t[0] == '+') then (t[0] == '-', t[1..]) else (false, t)
  }

  /** `parseInt(s, 10)`: leading white space, an optional sign, then the longest run of digits;
      `None` stands for NaN (no digit at all). */
  function ParseInt(s: string): (r: Option<int>)
    ensures r.Some? <==> var u := SplitSign(SkipSpaces(s)).1; |u| > 0 && IsDigit(u[0])
    ensures r.Some? ==> var (neg, u) := SplitSign(SkipSpaces(s));
      r.value == if neg then -(DigitsValue(u[..DigitRun(u)]) as int) else DigitsValue(u[..DigitRun(u)])
  {
    var (neg, u) := SplitSign(SkipSpaces(s));
    var k := DigitRun(u);
    if k == 0 then None
    else
      var v: int := DigitsValue(u[..k]);
      Some(if neg then -v else v)
  }

  function Pow10(m: nat): (r: nat)
    ensures r >= 1
  {
    if m == 0 then 1 else 10 * Pow10(m - 1)
  }

  /** The number `whole.digits` whose fraction has `places` decimal places. */
  function Decimal(whole: nat, digits: nat, places: nat): real {
    whole as real + digits as real / Pow10(places) as real
  }

  /** The unsigned decimal `u` starts with: digits, optionally '.' and more digits, with at least
      one digit overall; `None` when there is none. */
  function UnsignedDecimal(u: string): (r: Option<real>)
    ensures r.Some? <==> |u| > 0 && (IsDigit(u[0]) || (|u| > 1 && u[0] == '.' && IsDigit(u[1])))
  {
    var k := DigitRun(u);
    var whole := DigitsValue(u[..k]) as real;
    if k < |u| && u[k] == '.' then
      var m := DigitRun(u[k + 1..]);
      if k == 0 && m == 0 then None
      else Some(Decimal(DigitsValue(u[..k]), DigitsValue(u[k + 1..][..m]), m))
    else if k == 0 then None
    else Some(whole)
  }

  /** `parseFloat(s)` over plain decimal notation: leading white space, an optional sign, then an
      unsigned decimal; `None` stands for NaN. */
  function ParseFloat(s: string): (r: Option<real>)
    ensures r.Some? <==> var u := SplitSign(SkipSpaces(s)).1;
      |u| > 0 && (IsDigit(u[0]) || (|u| > 1 && u[0] == '.' && IsDigit(u[1])))
  {
    var (neg, u) := SplitSign(SkipSpaces(s));
    match UnsignedDecimal(u)
    case Some(v) => Some(if neg then -v else v)
    case None => None
  }

  /** Text that starts with a digit has no leading white space and no sign to strip. */
  lemma NoSpaceNoSign(u: string)
    requires |u| > 0 && IsDigit(u[0])
    ensures SkipSpaces(u) == u && SplitSign(u) == (false, u)
  {
    assert !IsSpace(u[0]);
    assert u[0] != '-' && u[0] != '+';
  }

  /** `parseFloat` of unsigned text `digits.digits...`: the whole part plus the fraction. */
  lemma ParseFloatOfPointed(u: string, k: nat, m: nat)
    requires |u| > 0 && IsDigit(u[0])
    requires k == DigitRun(u) && k < |u| && u[k] == '.' && m == DigitRun(u[k + 1..])
    ensures ParseFloat(u) == Some(Decimal(DigitsValue(u[..k]), DigitsValue(u[k + 1..][..m]), m))
  {
    NoSpaceNoSign(u);
    PointedDecimal(u, k, m);
  }

  lemma PointedDecimal(u: string, k: nat, m: nat)
    requires |u| > 0 && IsDigit(u[0])
    requires k == DigitRun(u) && k < |u| && u[k] == '.' && m == DigitRun(u[k + 1..])
    ensures UnsignedDecimal(u) == Some(Decimal(DigitsValue(u[..k]), DigitsValue(u[k + 1..][..m]), m))
  {
  }

  /** The digits of `NatToStr(n)` denote `n`. */
  lemma {:induction false} DigitsValueOfNatToStr(n: nat)
    ensures DigitsValue(NatToStr(n)) == n
  {
    if n >= 10 {
      var a := NatToStr(n / 10);
      var s := a + [DigitChar(n % 10)];
      assert s[..|s| - 1] == a;
      DigitsValueOfNatToStr(n / 10);
    }
  }

  /** `parseInt` reads back what `String` printed, whatever non-digit text follows:
      `parseInt(String(n) + rest, 10) == n`. */
  lemma ParseIntOfNatToStr(n: nat, rest: string)
    requires |rest| == 0 || !IsDigit(rest[0])
    ensures ParseInt(NatToStr(n) + rest) == Some(n)
  {
    var s := NatToStr(n) + rest;
    var d := NatToStr(n);
    assert SkipSpaces(s) == s;
    assert SplitSign(s) == (false, s);
    DigitRunOfDigits(d, rest);
    assert s[..|d|] == d;
    DigitsValueOfNatToStr(n);
  }

  /** `parseInt` skips leading white space: `parseInt(w + t, 10) == parseInt(t, 10)` for white
      space `w`. */
  lemma ParseIntAfterSpaces(w: string, t: string)
    requires forall i :: 0 <= i < |w| ==> IsSpace(w[i])
    requires |t| == 0 || !IsSpace(t[0])
    ensures ParseInt(w + t) == ParseInt(t)
  {
    SkipSpacesOfPrefix(w, t);
    assert SkipSpaces(t) == t;
  }

  /** `parseInt` honours a leading sign: `parseInt(c + String(n) + rest, 10)` is `n`, negated
      when `c` is '-'. */
  lemma ParseIntOfSigned(c: char, n: nat, rest: string)
    requires c == '-' || c == '+'
    requires |rest| == 0 || !IsDigit(rest[0])
    ensures ParseInt([c] + NatToStr(n) + rest) == Some(if c == '-' then -(n as int) else n)
  {
    var u := NatToStr(n) + rest;
    assert [c] + NatToStr(n) + rest == [c] + u;
    ParseIntOfNatToStr(n, rest);
    NoSpaceNoSign(u);
    var v := DigitsValue(u[..DigitRun(u)]);
    assert v == n;
    SignSplit(c, u);
    assert ParseInt([c] + u).Some?;
    assert ParseInt([c] + u).value == if c == '-' then -(v as int) else v;
  }

  lemma SignSplit(c: char, u: string)
    requires c == '-' || c == '+'
    ensures SkipSpaces([c] + u) == [c] + u && SplitSign([c] + u) == (c == '-', u)
  {
    assert !IsSpace(c);
    assert ([c] + u)[1..] == u;
  }

  lemma {:induction false} SkipSpacesOfPrefix(w: string, t: string)
    requires forall i :: 0 <= i < |w| ==> IsSpace(w[i])
    requires |t| == 0 || !IsSpace(t[0])
    ensures SkipSpaces(w + t) == t
  {
    if |w| > 0 {
      assert (w + t)[1..] == w[1..] + t;
      SkipSpacesOfPrefix(w[1..], t);
    } else {
      assert w + t == t;
    }
  }

  lemma {:induction false} DigitRunOfDigits(d: string, rest: string)
    requires AllDigits(d)
    requires |rest| == 0 || !IsDigit(rest[0])
    ensures DigitRun(d + rest) == |d|
  {
    if |d| > 0 {
      assert (d + rest)[1..] == d[1..] + rest;
      DigitRunOfDigits(d[1..], rest);
    }
  }

  /** `String(a) === String(b)` only for `a == b`: printed identifiers never collide. */
  lemma NatToStrInjective(a: nat, b: nat)
    ensures NatToStr(a) == NatToStr(b) ==> a == b
  {
    DigitsValueOfNatToStr(a);
    DigitsValueOfNatToStr(b);
  }
}
