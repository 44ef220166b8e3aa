/** The URL search both image extractors run over free text: the regular expression
    `https?:\/\/[^\s)]+` with the `i` flag (products) or `https?:\/\/[^\s)"']+` without it
    (partners), applied with `String.prototype.match`, which reports the leftmost match and,
    because `+` is greedy, the longest run of allowed characters there.

    The extractors first collapse white space (and products also trim); the lemmas at the end
    show that neither changes what is found, because a match never contains white space. */
module UrlScan {
  import opened Wrappers
  import opened Text
  import opened Js

  /** The two expressions: `/https?:\/\/[^\s)]+/i` (products) and `/https?:\/\/[^\s)"']+/` (partners). */
  datatype Pattern = ProductsPattern | PartnersPattern

  /** A character that ends the URL: white space, ')', and for partners also '"' and "'". */
  predicate IsStop(p: Pattern, c: char) {
    IsSpace(c) || c == ')' || (p.PartnersPattern? && (c == '"' || c == '\''))
  }

  /** No character of `s[lo..hi]` is a stop character. */
  predicate StopFree(p: Pattern, s: string, lo: int, hi: int)
    requires 0 <= lo <= hi <= |s|
  {
    forall j :: lo <= j < hi ==> !IsStop(p, s[j])
  }

  /** `c` matches the lower-case letter `l` of the pattern; under the products' `i` flag its
      ASCII upper case too. */
  predicate LetterIs(p: Pattern, c: char, l: char) {
    c == l || (p.ProductsPattern? && 'a' <= l <= 'z' && c as int == l as int - 32)
  }

  /** Declarative reading of the regular expression anchored at position 0 of `s`: a scheme
      `http://` (`k == 7`) or `https://` (`k == 8`), then the non-empty, maximal run of
      non-stop characters that ends at `n`. */
  ghost predicate RegexMatch(p: Pattern, s: string, k: int, n: int) {
    && (k == 7 || k == 8) && k < n <= |s|
    && LetterIs(p, s[0], 'h') && LetterIs(p, s[1], 't') && LetterIs(p, s[2], 't') && LetterIs(p, s[3], 'p')
    && (k == 8 ==> LetterIs(p, s[4], 's'))
    && s[k - 3] == ':' && s[k - 2] == '/' && s[k - 1] == '/'
    && (forall j :: k <= j < n ==> !IsStop(p, s[j]))
    && (n == |s| || IsStop(p, s[n]))
  }

  /** Length of the `http://`/`https://` prefix of `s`. The optional `s` is tried first, as the
      greedy `s?` does; when it is present the other alternative cannot match anyway. */
  function SchemeLen(p: Pattern, s: string): (r: Option<nat>)
    ensures r.Some? ==> (r.value == 7 || r.value == 8) && r.value <= |s|
  {
    if |s| >= 4 && LetterIs(p, s[0], 'h') && LetterIs(p, s[1], 't') && LetterIs(p, s[2], 't')
       && LetterIs(p, s[3], 'p')
    then
      var j := if |s| > 4 && LetterIs(p, s[4], 's') then 5 else 4;
      if |s| >= j + 3 && s[j] == ':' && s[j + 1] == '/' && s[j + 2] == '/' then Some(j + 3) else None
    else None
  }

  /** End of the run of non-stop characters starting at `k`. */
  function RunEnd(p: Pattern, s: string, k: nat): (e: nat)
    requires k <= |s|
    ensures k <= e <= |s|
    ensures forall j :: k <= j < e ==> !IsStop(p, s[j])
    ensures e == |s| || IsStop(p, s[e])
    decreases |s| - k
  {
    if k < |s| && !IsStop(p, s[k]) then RunEnd(p, s, k + 1) else k
  }

  /** Length of the match anchored at position 0 of `s`, `None` if the expression does not match there. */
  function MatchAt(p: Pattern, s: string): (r: Option<nat>)
    ensures r.Some? ==> r.value <= |s|
  {
    match SchemeLen(p, s)
    case Some(k) =>
      var e := RunEnd(p, s, k);
      if e > k then Some(e) else None
    case None => None
  }

  /** A scheme `SchemeLen` reports is the one the expression reads. */
  lemma SchemeLenSound(p: Pattern, s: string)
    requires SchemeLen(p, s).Some?
    ensures var k := SchemeLen(p, s).value;
      && LetterIs(p, s[0], 'h') && LetterIs(p, s[1], 't') && LetterIs(p, s[2], 't') && LetterIs(p, s[3], 'p')
      && (k == 8 ==> LetterIs(p, s[4], 's'))
      && s[k - 3] == ':' && s[k - 2] == '/' && s[k - 1] == '/'
      && forall j :: 0 <= j < k ==> !IsStop(p, s[j])
  {
    var k := SchemeLen(p, s).value;
    LetterNotStop(p, s[0], 'h');
    LetterNotStop(p, s[1], 't');
    LetterNotStop(p, s[2], 't');
    LetterNotStop(p, s[3], 'p');
    if k == 8 {
      LetterNotStop(p, s[4], 's');
    }
    assert !IsStop(p, s[k - 3]) && !IsStop(p, s[k - 2]) && !IsStop(p, s[k - 1]);
  }

  /** Without the `i` flag a match starts with `http` in lower case. */
  lemma MatchStartsLowerHttp(m: string)
    requires MatchAt(PartnersPattern, m).Some?
    ensures StartsWith(m, "http")
  {
    SchemeLenSound(PartnersPattern, m);
    assert m[..4] == "http";
  }

  lemma LetterNotStop(p: Pattern, c: char, l: char)
    requires 'a' <= l <= 'z' && LetterIs(p, c, l)
    ensures !IsStop(p, c)
  {
  }

  /** Every match of the expression starts with the scheme `SchemeLen` reports. */
  lemma SchemeLenComplete(p: Pattern, s: string, k: int, n: int)
    requires RegexMatch(p, s, k, n)
    ensures SchemeLen(p, s) == Some(k)
  {
  }

  /** `MatchAt` computes exactly the regular expression's match at position 0, and a match
      consists of non-stop characters only (the scheme letters are not stop characters). */
  lemma MatchAtIsRegexMatch(p: Pattern, s: string)
    ensures MatchAt(p, s).Some? ==>
      RegexMatch(p, s, 7, MatchAt(p, s).value) || RegexMatch(p, s, 8, MatchAt(p, s).value)
    ensures MatchAt(p, s).Some? ==> StopFree(p, s, 0, MatchAt(p, s).value)
    ensures MatchAt(p, s).None? ==> forall k, n :: !RegexMatch(p, s, k, n)
  {
    if SchemeLen(p, s).Some? {
      SchemeLenSound(p, s);
    }
    forall k, n | RegexMatch(p, s, k, n)
      ensures MatchAt(p, s).Some?
    {
      SchemeLenComplete(p, s, k, n);
    }
  }

  /** Position of the leftmost match in `s`. */
  function Leftmost(p: Pattern, s: string): (r: Option<nat>)
    ensures r.Some? ==> r.value < |s| && MatchAt(p, s[r.value..]).Some?
    ensures r.Some? ==> forall j :: 0 <= j < r.value ==> MatchAt(p, s[j..]).None?
    ensures r.None? ==> forall j :: 0 <= j < |s| ==> MatchAt(p, s[j..]).None?
  {
    if |s| == 0 then None
    else if MatchAt(p, s).Some? then Some(0)
    else
      SuffixOfTail(s);
      match Leftmost(p, s[1..])
      case Some(i) => Some(i + 1)
      case None => None
  }

  lemma SuffixOfTail(s: string)
    requires |s| > 0
    ensures forall j :: 1 <= j <= |s| ==> s[1..][j - 1..] == s[j..]
  {
  }

  /** `s.match(re)?.[0]`: the text of the leftmost match, `None` when there is none. */
  function FindUrl(p: Pattern, s: string): (r: Option<string>)
    ensures r.Some? <==> Leftmost(p, s).Some?
  {
    match Leftmost(p, s)
    case Some(i) => Some(s[i..][..MatchAt(p, s[i..]).value])
    case None => None
  }

  /** What `FindUrl` reports is the regular expression's match at the leftmost position where
      there is one: it sits in `s` at that position, it is at least `http://` plus one character,
      holds no stop character, and is matched by the expression in its entirety. */
  lemma FindUrlIsMatch(p: Pattern, s: string)
    ensures FindUrl(p, s).Some? ==> var r := FindUrl(p, s).value; var i := Leftmost(p, s).value;
      && i + |r| <= |s| && r == s[i..i + |r|]
      && (RegexMatch(p, s[i..], 7, |r|) || RegexMatch(p, s[i..], 8, |r|))
      && |r| > 7 && StopFree(p, r, 0, |r|)
      && MatchAt(p, r) == Some(|r|)
  {
    if Leftmost(p, s).Some? {
      var i := Leftmost(p, s).value;
      var n := MatchAt(p, s[i..]).value;
      assert FindUrl(p, s) == Some(s[i..][..n]);
      MatchedText(p, s[i..]);
      assert s[i..][..n] == s[i..i + n];
    }
  }

  /** The text matched at position 0 of `t`. */
  lemma MatchedText(p: Pattern, t: string)
    requires MatchAt(p, t).Some?
    ensures var n := MatchAt(p, t).value; var r := t[..n];
      && |r| == n > 7 && (RegexMatch(p, t, 7, n) || RegexMatch(p, t, 8, n))
      && StopFree(p, r, 0, n)
      && MatchAt(p, r) == Some(n)
  {
    var n := MatchAt(p, t).value;
    MatchAtIsRegexMatch(p, t);
    assert forall j :: 0 <= j < n ==> t[..n][j] == t[j];
    MatchAtPrefix(p, t, n);
  }

  /** `m ? m[0] : undefined` after `s.match(re)`, as a JavaScript value. */
  function UrlIn(p: Pattern, s: string): (r: Value)
    ensures r == Undefined <==> FindUrl(p, s).None?
    ensures r != Undefined ==> r == Str(FindUrl(p, s).value) && Truthy(r)
  {
    FindUrlIsMatch(p, s);
    match FindUrl(p, s)
    case Some(m) => Str(m)
    case None => Undefined
  }

  /** A match cut out of its text is a match of its own, covering all of it. */
  lemma MatchAtPrefix(p: Pattern, t: string, n: nat)
    requires MatchAt(p, t) == Some(n)
    ensures MatchAt(p, t[..n]) == Some(n)
  {
    var u := t[..n];
    var k := SchemeLen(p, t).value;
    assert forall j :: 0 <= j < n ==> u[j] == t[j];
    assert SchemeLen(p, u) == Some(k);
    RunEndToEnd(p, u, k);
  }

  lemma {:induction false} RunEndToEnd(p: Pattern, u: string, k: nat)
    requires k <= |u|
    requires forall j :: k <= j < |u| ==> !IsStop(p, u[j])
    ensures RunEnd(p, u, k) == |u|
    decreases |u| - k
  {
    if k < |u| {
      RunEndToEnd(p, u, k + 1);
    }
  }

  /** One step of the scan: a match at position 0 wins, otherwise the search moves one character on. */
  lemma FindUrlUnfold(p: Pattern, s: string)
    requires |s| > 0
    ensures MatchAt(p, s).Some? ==> FindUrl(p, s) == Some(s[..MatchAt(p, s).value])
    ensures MatchAt(p, s).None? ==> FindUrl(p, s) == FindUrl(p, s[1..])
  {
    if MatchAt(p, s).None? {
      FindUrlSkip(p, s);
    }
  }

  lemma FindUrlSkip(p: Pattern, s: string)
    requires |s| > 0 && MatchAt(p, s).None?
    ensures FindUrl(p, s) == FindUrl(p, s[1..])
  {
    match Leftmost(p, s[1..])
    case Some(i) =>
      SliceOfTail(s, i);
      var n := MatchAt(p, s[i + 1..]).value;
      SliceOfTailRange(s, i, n);
    case None =>
  }

  lemma SliceOfTail(s: string, i: nat)
    requires i < |s| - 1
    ensures s[1..][i..] == s[i + 1..]
  {
  }

  lemma SliceOfTailRange(s: string, i: nat, n: nat)
    requires i + n < |s|
    ensures s[1..][i..i + n] == s[i + 1..i + 1 + n]
  {
  }

  /** Appending text that starts with white space does not change a match at position 0. */
  lemma MatchAtAppend(p: Pattern, a: string, b: string)
    requires |b| == 0 || IsSpace(b[0])
    ensures MatchAt(p, a + b) == MatchAt(p, a)
  {
    var s := a + b;
    assert forall j :: 0 <= j < |a| ==> s[j] == a[j];
    if |b| > 0 {
      assert s[|a|] == b[0];
    }
    assert SchemeLen(p, s) == SchemeLen(p, a);
    if SchemeLen(p, a).Some? {
      RunEndAppend(p, a, b, SchemeLen(p, a).value);
    }
  }

  lemma {:induction false} RunEndAppend(p: Pattern, a: string, b: string, k: nat)
    requires k <= |a|
    requires |b| == 0 || IsSpace(b[0])
    ensures RunEnd(p, a + b, k) == RunEnd(p, a, k)
    decreases |a| - k
  {
    var s := a + b;
    if k < |a| {
      assert s[k] == a[k];
      if !IsStop(p, a[k]) {
        RunEndAppend(p, a, b, k + 1);
      }
    } else if |b| > 0 {
      assert s[k] == b[0];
    }
  }

  /** A string that starts with white space is searched as if it started one character later. */
  lemma FindUrlLeadingSpace(p: Pattern, s: string)
    requires |s| > 0 && IsSpace(s[0])
    ensures FindUrl(p, s) == FindUrl(p, s[1..])
  {
    assert SchemeLen(p, s).None?;
    FindUrlUnfold(p, s);
  }

  /** White space alone holds no URL. */
  lemma {:induction false} FindUrlAllSpaces(p: Pattern, w: string)
    requires forall i :: 0 <= i < |w| ==> IsSpace(w[i])
    ensures FindUrl(p, w) == None
  {
    if |w| > 0 {
      FindUrlLeadingSpace(p, w);
      FindUrlAllSpaces(p, w[1..]);
    }
  }

  /** When `b` starts with white space, the search over `a + b` finds the match of `a`, or failing
      that, the match of `b`: no match straddles the seam. */
  lemma {:induction false} FindUrlAppend(p: Pattern, a: string, b: string)
    requires |b| == 0 || IsSpace(b[0])
    ensures FindUrl(p, a + b) == if FindUrl(p, a).Some? then FindUrl(p, a) else FindUrl(p, b)
    decreases |a|
  {
    if |a| == 0 {
      assert a + b == b;
    } else {
      var s := a + b;
      FindUrlUnfold(p, s);
      FindUrlUnfold(p, a);
      MatchAtAppend(p, a, b);
      if MatchAt(p, a).Some? {
        PrefixOfAppend(a, b, MatchAt(p, a).value);
      } else {
        ConsSplit(a, b);
        FindUrlAppend(p, a[1..], b);
      }
    }
  }

  /** Leading white space never changes the result. */
  lemma {:induction false} FindUrlSkipSpaces(p: Pattern, s: string)
    ensures FindUrl(p, SkipSpaces(s)) == FindUrl(p, s)
    decreases |s|
  {
    if |s| > 0 && IsSpace(s[0]) {
      FindUrlLeadingSpace(p, s);
      FindUrlSkipSpaces(p, s[1..]);
    }
  }

  /** Trailing white space never changes the result. */
  lemma FindUrlTrimEnd(p: Pattern, s: string)
    ensures FindUrl(p, TrimEnd(s)) == FindUrl(p, s)
  {
    var t := TrimEnd(s);
    var w := s[|t|..];
    assert s == t + w;
    FindUrlAllSpaces(p, w);
    FindUrlAppend(p, t, w);
  }

  /** Position of the first white-space character of `s`, or `|s|`. */
  function FirstSpace(s: string): (k: nat)
    ensures k <= |s| && (k == |s| || IsSpace(s[k]))
    ensures forall j :: 0 <= j < k ==> !IsSpace(s[j])
  {
    if |s| == 0 || IsSpace(s[0]) then 0 else FirstSpace(s[1..]) + 1
  }

  /** Collapsing leaves a leading word untouched. */
  lemma {:induction false} CollapseAfterWord(s: string, k: nat)
    requires k <= FirstSpace(s)
    ensures Collapse(s) == s[..k] + Collapse(s[k..])
  {
    if k > 0 {
      var t := s[1..];
      assert s == [s[0]] + t;
      CollapseCons(s[0], t);
      assert FirstSpace(s) == FirstSpace(t) + 1;
      CollapseAfterWord(t, k - 1);
      assert t[k - 1..] == s[k..];
      Glue(s, k, Collapse(s), Collapse(t), Collapse(s[k..]));
    }
  }

  lemma Glue(s: string, k: nat, head: string, next: string, tail: string)
    requires 0 < k <= |s| && head == [s[0]] + next && next == s[1..][..k - 1] + tail
    ensures head == s[..k] + tail
  {
    assert [s[0]] + s[1..][..k - 1] == s[..k];
  }

  lemma PrefixOfAppend<T>(a: seq<T>, b: seq<T>, n: nat)
    requires n <= |a|
    ensures (a + b)[..n] == a[..n]
  {
  }

  lemma ConsSplit<T>(w: seq<T>, r: seq<T>)
    requires |w| > 0
    ensures w + r == [w[0]] + (w[1..] + r)
  {
  }

  lemma CollapseCons(c: char, t: string)
    requires !IsSpace(c)
    ensures Collapse([c] + t) == [c] + Collapse(t)
  {
    assert ([c] + t)[1..] == t;
  }

  /** `replace(/\s+/g, ' ')` does not change what the URL search finds. */
  lemma {:induction false} FindUrlCollapse(p: Pattern, s: string)
    ensures FindUrl(p, Collapse(s)) == FindUrl(p, s)
    decreases |s|
  {
    if |s| == 0 {
    } else if IsSpace(s[0]) {
      var t := SkipSpaces(s);
      assert Collapse(s) == [' '] + Collapse(t);
      FindUrlLeadingSpace(p, Collapse(s));
      assert Collapse(s)[1..] == Collapse(t);
      FindUrlCollapse(p, t);
      FindUrlSkipSpaces(p, s);
    } else {
      var k := FirstSpace(s);
      var w := s[..k];
      var rest := s[k..];
      assert s == w + rest;
      CollapseAfterWord(s, k);
      assert Collapse(s) == w + Collapse(rest);
      FindUrlAppend(p, w, Collapse(rest));
      FindUrlCollapse(p, rest);
      FindUrlAppend(p, w, rest);
    }
  }

  /** The products extractor's `replace(/\s+/g, ' ').trim()` does not change what is found. */
  lemma FindUrlCollapseTrim(p: Pattern, s: string)
    ensures FindUrl(p, Trim(Collapse(s))) == FindUrl(p, s)
  {
    var c := Collapse(s);
    FindUrlSkipSpaces(p, c);
    FindUrlTrimEnd(p, SkipSpaces(c));
    FindUrlCollapse(p, s);
  }
}
