/** The attachment and date helpers that the events proxy (`api/events.ts`) and the event
    details page (`src/pages/EventDetailsPage.tsx`) each define, word for word alike: listing the
    URLs of an attachment field, choosing a main image, building the de-duplicated picture list
    with the main image first, and formatting a loosely typed date. */
module Attachments {
  import opened Wrappers
  import opened Js
  import opened Seqs
  import opened Proxy

  /** `xs.filter(Boolean)`. */
  function Truthies(xs: seq<Value>): (r: seq<Value>)
    ensures |r| <= |xs|
    ensures forall i :: 0 <= i < |r| ==> Truthy(r[i]) && r[i] in xs
    ensures forall i :: 0 <= i < |xs| ==> Truthy(xs[i]) ==> xs[i] in r
  {
    if |xs| == 0 then []
    else if Truthy(xs[0]) then [xs[0]] + Truthies(xs[1..])
    else Truthies(xs[1..])
  }

  /** Filtering keeps the order: it distributes over concatenation. */
  lemma {:induction false} TruthiesAppend(xs: seq<Value>, ys: seq<Value>)
    ensures Truthies(xs + ys) == Truthies(xs) + Truthies(ys)
  {
    if |xs| > 0 {
      assert (xs + ys)[1..] == xs[1..] + ys;
      TruthiesAppend(xs[1..], ys);
    } else {
      assert xs + ys == ys;
    }
  }

  /** The first value the filter keeps is the first truthy one. */
  lemma {:induction false} TruthiesFirst(xs: seq<Value>, k: nat)
    requires k < |xs| && Truthy(xs[k])
    requires forall j :: 0 <= j < k ==> !Truthy(xs[j])
    ensures |Truthies(xs)| > 0 && Truthies(xs)[0] == xs[k]
  {
    if k > 0 {
      TruthiesFirst(xs[1..], k - 1);
    }
  }

  /** A list of truthy values passes the filter unchanged. */
  lemma {:induction false} TruthiesOfTruthy(xs: seq<Value>)
    requires forall i :: 0 <= i < |xs| ==> Truthy(xs[i])
    ensures Truthies(xs) == xs
  {
    if |xs| > 0 {
      TruthiesOfTruthy(xs[1..]);
    }
  }

  /** `a && (a.url || a.thumbnails?.large?.url || a.filename)` for one attachment. */
  function AttachmentUrl(a: Value): (r: Value)
    ensures !Truthy(a) ==> r == a
    ensures Truthy(a) ==> r == OrChain([Prop(a, "url"), Path(a, LargeThumbUrl)], Prop(a, "filename"))
  {
    if !Truthy(a) then a else Or(Prop(a, "url"), Or(Path(a, LargeThumbUrl), Prop(a, "filename")))
  }

  /** `items.map(AttachmentUrl)`. */
  function AttachmentUrls(items: seq<Value>): (r: seq<Value>)
    ensures |r| == |items| && forall j :: 0 <= j < |items| ==> r[j] == AttachmentUrl(items[j])
  {
    seq(|items|, j requires 0 <= j < |items| => AttachmentUrl(items[j]))
  }

  /** `extractAttachments`: `[]` for a falsy or non-array field; otherwise the URL (or large
      thumbnail, or file name) of every attachment, in order, dropping the falsy ones. */
  function ExtractAttachments(field: Value): (r: seq<Value>)
    ensures !field.Arr? ==> r == []
    ensures forall i :: 0 <= i < |r| ==> Truthy(r[i])
    ensures field.Arr? ==> |r| <= |field.items|
    ensures field.Arr? ==> forall i :: 0 <= i < |r| ==> r[i] in AttachmentUrls(field.items)
    ensures field.Arr? ==> forall j :: 0 <= j < |field.items| ==> Truthy(AttachmentUrl(field.items[j])) ==> AttachmentUrl(field.items[j]) in r
    ensures field.Arr? ==> r == Truthies(AttachmentUrls(field.items))
  {
    if !Truthy(field) || !field.Arr? then []
    else
      var urls := AttachmentUrls(field.items);
      var r := Truthies(urls);
      assert forall j :: 0 <= j < |field.items| ==> Truthy(urls[j]) ==> urls[j] in r;
      r
  }

  /** Attachments with a non-empty `url` each give exactly that URL, so nothing is dropped. */
  lemma ExtractAttachmentsOfUrls(field: Value)
    requires field.Arr?
    requires forall j :: 0 <= j < |field.items| ==> Truthy(field.items[j]) && Truthy(Prop(field.items[j], "url"))
    ensures |ExtractAttachments(field)| == |field.items|
    ensures forall j :: 0 <= j < |field.items| ==> ExtractAttachments(field)[j] == Prop(field.items[j], "url")
  {
    TruthiesOfTruthy(AttachmentUrls(field.items));
  }

  /** The first URL listed is that of the first attachment that yields one: `main[0]` is the
      first main-image attachment with a URL. */
  lemma ExtractAttachmentsFirst(field: Value, k: nat)
    requires field.Arr? && k < |field.items|
    requires Truthy(AttachmentUrl(field.items[k]))
    requires forall j :: 0 <= j < k ==> !Truthy(AttachmentUrl(field.items[j]))
    ensures |ExtractAttachments(field)| > 0 && ExtractAttachments(field)[0] == AttachmentUrl(field.items[k])
  {
    TruthiesFirst(AttachmentUrls(field.items), k);
  }

  /** The first main-image attachment, else the first gallery attachment, else `''`. */
  function LeadImage(main: seq<Value>, bilder: seq<Value>): (r: Value)
    ensures |main| > 0 ==> r == main[0]
    ensures |main| == 0 && |bilder| > 0 ==> r == bilder[0]
    ensures |main| == 0 && |bilder| == 0 ==> r == Str("")
  {
    if |main| > 0 then main[0] else if |bilder| > 0 then bilder[0] else Str("")
  }

  /** `Array.from(new Set([...(main ? [main] : []), ...bilder]))`: the main image first when it
      is truthy, then the gallery images, each exactly once, in the order they first appear in
      the gallery. */
  function Gallery(main: Value, bilder: seq<Value>): (r: seq<Value>)
    ensures NoDuplicates(r)
    ensures Truthy(main) ==> |r| > 0 && r[0] == main
    ensures forall i :: 0 <= i < |bilder| ==> bilder[i] in r
    ensures forall i :: 0 <= i < |r| ==> r[i] in bilder || (Truthy(main) && r[i] == main)
    ensures var rest := r[if Truthy(main) then 1 else 0..];
      (forall i :: 0 <= i < |rest| ==> rest[i] in bilder) && InFirstOccurrenceOrder(bilder, rest)
  {
    var pre := if Truthy(main) then [main] else [];
    var r := Dedup(pre + bilder);
    GalleryMembers(pre, bilder, r);
    GalleryRest(pre, bilder, r);
    r
  }

  /** The de-duplicated list holds the main image (first) and the gallery images, nothing else. */
  lemma GalleryMembers(pre: seq<Value>, bilder: seq<Value>, r: seq<Value>)
    requires |pre| <= 1 && r == Dedup(pre + bilder)
    ensures NoDuplicates(r)
    ensures |pre| == 1 ==> |r| > 0 && r[0] == pre[0]
    ensures forall i :: 0 <= i < |bilder| ==> bilder[i] in r
    ensures forall i :: 0 <= i < |r| ==> r[i] in bilder || r[i] in pre
  {
    var all := pre + bilder;
    assert forall i :: 0 <= i < |bilder| ==> bilder[i] == all[i + |pre|];
  }

  /** Behind the main image, the de-duplicated list follows the gallery's own order. */
  lemma GalleryRest(pre: seq<Value>, bilder: seq<Value>, r: seq<Value>)
    requires |pre| <= 1 && r == Dedup(pre + bilder)
    ensures |r| >= |pre|
    ensures var rest := r[|pre|..];
      (forall i :: 0 <= i < |rest| ==> rest[i] in bilder) && InFirstOccurrenceOrder(bilder, rest)
  {
    var all := pre + bilder;
    var rest := r[|pre|..];
    if |pre| == 1 {
      assert all[0] == pre[0];
    }
    forall i | 0 <= i < |rest|
      ensures rest[i] in bilder && rest[i] !in pre
      ensures FirstIndexOf(all, rest[i]) == |pre| + FirstIndexOf(bilder, rest[i])
    {
      assert rest[i] == r[i + |pre|];
      if |pre| == 1 {
        assert r[0] == pre[0];
      }
      assert rest[i] !in pre;
      FirstIndexOfBehind(pre, bilder, rest[i]);
    }
    forall i | 0 <= i < |rest| - 1
      ensures FirstIndexOf(bilder, rest[i]) < FirstIndexOf(bilder, rest[i + 1])
    {
      assert rest[i] == r[i + |pre|] && rest[i + 1] == r[i + |pre| + 1];
    }
  }

  /** `formatMaybeDate`: `''` for a falsy value; otherwise the value (an array's first element
      standing in for the array) as a long German date when `new Date` accepts it and formatting
      does not throw, and as `String(value)` in every other case. */
  function FormatMaybeDate(h: Host, v: Value): (r: string)
    ensures !Truthy(v) ==> r == ""
    ensures Truthy(v) && NewDate(h, FirstOrSelf(v)).None? ==> r == ToStr(h, FirstOrSelf(v))
    ensures Truthy(v) && NewDate(h, FirstOrSelf(v)).Some? ==>
      r == h.formatDe(NewDate(h, FirstOrSelf(v)).value).GetOr(ToStr(h, FirstOrSelf(v)))
  {
    if !Truthy(v) then ""
    else
      var val := FirstOrSelf(v);
      match NewDate(h, val)
      case Some(t) => FormatDeOr(h, t, ToStr(h, val))
      case None => ToStr(h, val)
  }

  /** A string the host cannot read as a date comes back unchanged, and so does a one-element
      list of it. */
  lemma FormatMaybeDateUnparsable(h: Host, s: string)
    requires s != "" && h.parseDate(s).None?
    ensures FormatMaybeDate(h, Str(s)) == s
    ensures FormatMaybeDate(h, Arr([Str(s)])) == s
  {
  }
}
