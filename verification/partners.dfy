/** The partners proxy (`api/partners.ts`): each record of the partner table becomes a partner
    card with a name, description, website and logo, the logo found by a fixed list of field
    names first and by a scan of every field second. */
module Partners {
  import opened Wrappers
  import opened Text
  import opened Js
  import opened UrlScan
  import opened Proxy

  /** `extractFirstUrlFromAttachment`. An attachment array answers with its first attachment's
      `url || thumbnails.large.url || thumbnails.full.url`, whatever that is, with no further
      fallback; an array whose first element is a string starting with `http` answers with that
      string; an object answers with a truthy `url`; a plain string answers with the leftmost
      `http(s)://` URL up to white space, ')', '"' or "'" (white space is collapsed first, which
      changes nothing). Everything else gives `undefined`; nothing throws. */
  function ExtractFromAttachment(v: Value): (r: Value)
    ensures !Truthy(v) ==> r == Undefined
    ensures IsNonEmptyArray(v) && Truthy(v.items[0]) && IsObjectLike(v.items[0]) ==>
      r == OrChain([Prop(v.items[0], "url"), Path(v.items[0], LargeThumbUrl)], Path(v.items[0], FullThumbUrl))
    ensures IsNonEmptyArray(v) && v.items[0].Str? ==>
      r == if StartsWith(v.items[0].s, "http") then v.items[0] else Undefined
    ensures IsNonEmptyArray(v) && !IsObjectLike(v.items[0]) && !v.items[0].Str? ==> r == Undefined
    ensures v.Arr? && |v.items| == 0 ==> r == Undefined
    ensures v.Obj? ==> r == Or(Prop(v, "url"), Undefined)
    ensures v.Str? ==> r == UrlIn(PartnersPattern, v.s)
    ensures v.Num? || v.Bool? ==> r == Undefined
  {
    if !Truthy(v) then Undefined
    else if IsNonEmptyArray(v) && Truthy(v.items[0]) && IsObjectLike(v.items[0]) then
      var first := v.items[0];
      Or(Prop(first, "url"), Or(Path(first, LargeThumbUrl), Path(first, FullThumbUrl)))
    else if IsNonEmptyArray(v) && v.items[0].Str? && StartsWith(v.items[0].s, "http") then v.items[0]
    else if IsObjectLike(v) && Truthy(Prop(v, "url")) then Prop(v, "url")
    else if v.Str? then
      FindUrlCollapse(PartnersPattern, v.s);
      UrlIn(PartnersPattern, Collapse(v.s))
    else Undefined
  }

  /** A URL found in a plain string is a whole match of `/https?:\/\/[^\s)"']+/`: it starts with
      `http` in lower case (the expression has no `i` flag) and holds no white space, ')', '"'
      or "'". */
  lemma ExtractedTextUrl(s: string)
    ensures ExtractFromAttachment(Str(s)) != Undefined ==>
      var m := ExtractFromAttachment(Str(s));
      m.Str? && |m.s| > 7 && StartsWith(m.s, "http") && MatchAt(PartnersPattern, m.s) == Some(|m.s|)
      && StopFree(PartnersPattern, m.s, 0, |m.s|)
  {
    var e := ExtractFromAttachment(Str(s));
    if FindUrl(PartnersPattern, s).Some? {
      FindUrlIsMatch(PartnersPattern, s);
      var m := FindUrl(PartnersPattern, s).value;
      assert e == Str(m);
      assert |m| > 7 && MatchAt(PartnersPattern, m) == Some(|m|);
      MatchStartsLowerHttp(m);
    }
  }

  /** One normalised partner. Unlike products and events, `id` is the Airtable record id. */
  datatype Partner = Partner(id: Value, name: Value, description: Value, website: Value, imageUrl: Value, raw: Value)

  const NameKeys: seq<string> := ["Name", "Titel", "Name_des_Partners", "name"]
  const DescriptionKeys: seq<string> := ["Beschreibung", "Description", "Text"]
  const ImageFieldNames: seq<string> := ["Logo", "Bild", "Image", "Logo-Bild", "Partner-Bild", "ImageUrl", "Image URL"]

  /** `(Array.isArray(f.Website) && f.Website[0]) || f.Website || f['Webseite'] || f.URL || undefined`. */
  function Website(f: Value): (r: Value)
    ensures var w := Prop(f, "Website");
      (IsNonEmptyArray(w) && Truthy(w.items[0]) ==> r == w.items[0])
      && (!(IsNonEmptyArray(w) && Truthy(w.items[0])) ==>
            r == OrChain([w, Prop(f, "Webseite"), Prop(f, "URL")], Undefined))
    ensures r == Undefined || Truthy(r)
  {
    var w := Prop(f, "Website");
    var first := if w.Arr? then (if |w.items| > 0 then w.items[0] else Undefined) else Bool(false);
    OrChain([first, w, Prop(f, "Webseite"), Prop(f, "URL")], Undefined)
  }

  /** The logo: the first of the listed image fields, in order, from which a URL can be
      extracted; failing that, the first field of the record in key order that yields one. The
      source skips falsy listed fields before extracting, which the extractor does anyway. */
  function ImageUrl(f: Value): (r: Value)
    ensures var named := Hits(f, ImageFieldNames, ExtractFromAttachment);
      FirstTruthy(named).Some? ==> r == named[FirstTruthy(named).value]
    ensures var named := Hits(f, ImageFieldNames, ExtractFromAttachment);
      var any := Hits(f, Keys(f), ExtractFromAttachment);
      && (FirstTruthy(named).None? && FirstTruthy(any).Some? ==> r == any[FirstTruthy(any).value])
      && (FirstTruthy(named).None? && FirstTruthy(any).None? ==> r == Undefined)
    ensures r == Undefined || Truthy(r)
  {
    var named := FirstHit(f, ImageFieldNames, ExtractFromAttachment);
    if Truthy(named) then named else FirstHit(f, Keys(f), ExtractFromAttachment)
  }

  /** When `fields` is an array, no listed name is an index of it, and the scan over
      `Object.keys` reads its elements in order: the logo is the first element from which a URL
      can be extracted. */
  lemma ImageUrlOfList(items: seq<Value>)
    ensures var hits := seq(|items|, i requires 0 <= i < |items| => ExtractFromAttachment(items[i]));
      && (FirstTruthy(hits).Some? ==> ImageUrl(Arr(items)) == hits[FirstTruthy(hits).value])
      && (FirstTruthy(hits).None? ==> ImageUrl(Arr(items)) == Undefined)
  {
    var f := Arr(items);
    var hits := seq(|items|, i requires 0 <= i < |items| => ExtractFromAttachment(items[i]));
    forall k | 0 <= k < |ImageFieldNames|
      ensures Elem(f, ImageFieldNames[k]) == Undefined
    {
      NoIndexName(|items|, ImageFieldNames[k]);
    }
    assert FirstTruthy(Hits(f, ImageFieldNames, ExtractFromAttachment)).None?;
    KeysVisitEntries(f);
    assert Hits(f, Keys(f), ExtractFromAttachment) == hits;
  }

  /** `"Partner " + (idx + 1)`. */
  function DefaultName(idx: nat): string {
    "Partner " + NatToStr(idx + 1)
  }

  /** `normalize` for one record at position `idx`. */
  function NormalizeRecord(r: Record, idx: nat): (p: Partner)
    ensures p.id == r.id && p.raw == Fields(r)
    ensures FirstTruthy(Props(Fields(r), NameKeys)).None? ==> p.name == Str(DefaultName(idx))
    ensures FirstTruthy(Props(Fields(r), NameKeys)).Some? ==>
      p.name == Prop(Fields(r), NameKeys[FirstTruthy(Props(Fields(r), NameKeys)).value])
    ensures p.description == PickField(Fields(r), DescriptionKeys, Str(""))
    ensures FirstTruthy(Props(Fields(r), DescriptionKeys)).None? ==> p.description == Str("")
    ensures p.website == Website(Fields(r)) && p.imageUrl == ImageUrl(Fields(r))
  {
    var f := Fields(r);
    Partner(r.id, PickField(f, NameKeys, Str(DefaultName(idx))), PickField(f, DescriptionKeys, Str("")),
      Website(f), ImageUrl(f), f)
  }

  /** `normalize`: one partner per record, in order, keeping the record ids. */
  function Normalize(records: seq<Record>): (ps: seq<Partner>)
    ensures |ps| == |records|
    ensures forall i :: 0 <= i < |ps| ==> ps[i] == NormalizeRecord(records[i], i) && ps[i].id == records[i].id
  {
    seq(|records|, i requires 0 <= i < |records| => NormalizeRecord(records[i], i))
  }

  /** The handler. Only the key and base id are required; the table defaults to `Partner`. */
  function Handler(verb: string, env: Env, fetched: Fetch): (r: (Response<Partner>, seq<Call>))
    requires WellFormed(fetched)
    ensures verb != "GET" ==> r.0.status == 405 && r.0.allow == Some("GET") && r.1 == []
    ensures verb == "GET" && !(Configured(env.apiKey) && Configured(env.baseId)) ==>
      r.0 == Response(500, None, Failure(NotConfigured, None)) && r.1 == []
    ensures r.1 != [] ==> r.1 == [ListRecords(env.baseId.value, TableName(env, "Partner"))]
    ensures r.0.status == 200 <==>
      verb == "GET" && Configured(env.apiKey) && Configured(env.baseId)
      && fetched.Ok? && DecodeRecords(fetched.payload).Some?
    ensures r.0.status == 200 ==> r.0.body == Many(Normalize(DecodeRecords(fetched.payload).value))
  {
    var required := [env.apiKey, env.baseId];
    match Guard(verb, required)
    case Some(refusal) => (refusal, [])
    case None =>
      assert Configured(required[0]) && Configured(required[1]);
      ListResponse(ListRecords(env.baseId.value, TableName(env, "Partner")), fetched, Normalize)
  }
}
