/** The events proxy (`api/events.ts`): the normaliser that turns a record of the
    `Veranstaltungen` table into an event, and the handler that serves either the whole list or,
    for a path `/api/events/<segment>`, one event, fetched directly when the segment looks like an
    Airtable record id and looked up in the list otherwise. */
module Events {
  import opened Wrappers
  import opened Text
  import opened Js
  import opened Seqs
  import opened Proxy
  import opened Attachments

  /** One normalised event. `id` is the position in the list plus one, `rawId` the Airtable record
      id, `raw` the field map. */
  datatype Event = Event(
    id: nat,
    title: Value,
    date: string,
    location: Value,
    locationRaw: Value,
    description: Value,
    rawId: Value,
    raw: Value,
    mainImage: Value,
    images: seq<Value>,
    von: string,
    bis: string,
    organizer: Value,
    organizerWebsite: Value)

  const TitleKeys: seq<string> := ["Titel", "Title", "name"]
  const DateKeys: seq<string> := ["Datum", "datum", "Date"]
  const LocationKeys: seq<string> := ["Ort", "Location", "Veranstaltungssort", "Veranstaltungsort"]
  const DescriptionKeys: seq<string> := ["Beschreibung", "Description", "description", "Text", "Details"]
  const MainImageKeys: seq<string> := ["HauptBild", "Hauptbild", "HauptBild"]
  const GalleryKeys: seq<string> := ["Bilder", "Fotos", "FotosGallerie", "Bildergalerie", "Bilderliste", "Images"]
  const VonKeys: seq<string> := ["von", "Von", "from", "Start", "start", "Von", "von"]
  const BisKeys: seq<string> := ["bis", "Bis", "to", "Ende", "Bis"]
  const OrganizerKeys: seq<string> := ["Veranstalter", "Organisator", "Organizer"]
  const OrganizerWebsiteKeys: seq<string> :=
    ["Veranstalter-Website", "Veranstalter Website", "VeranstalterWebsite", "OrganizerWebsite"]

  /** `"Veranstaltung " + (idx + 1)`. */
  function DefaultTitle(idx: nat): string {
    "Veranstaltung " + NatToStr(idx + 1)
  }

  /** The `date` field: only a non-empty string in `Datum`, `datum` or `Date` (the first truthy
      of them) gives a date. It is shown as a long German date when the host parses it and
      formatting does not throw, and unchanged otherwise. */
  function EventDate(h: Host, f: Value): (d: string)
    ensures var raw := PickField(f, DateKeys, Str(""));
      && (!(raw.Str? && raw.s != "") ==> d == "")
      && (raw.Str? && raw.s != "" && h.parseDate(raw.s).None? ==> d == raw.s)
      && (raw.Str? && raw.s != "" && h.parseDate(raw.s).Some? ==> d == h.formatDe(h.parseDate(raw.s).value).GetOr(raw.s))
  {
    var raw := PickField(f, DateKeys, Str(""));
    if raw.Str? && raw.s != "" then
      match h.parseDate(raw.s)
      case Some(t) => FormatDeOr(h, t, raw.s)
      case None => raw.s
    else ""
  }

  /** A record with no truthy `Datum`, `datum` or `Date` field gets the empty date. */
  lemma EventDateWithoutDate(h: Host, f: Value)
    requires forall i :: 0 <= i < |DateKeys| ==> !Truthy(Prop(f, DateKeys[i]))
    ensures EventDate(h, f) == ""
  {
    assert FirstTruthy(Props(f, DateKeys)).None?;
  }

  /** `mainImage` and `images`: the first main-image attachment (else the first gallery
      attachment, else `''`), and the picture list with that image first and every gallery
      attachment once, in gallery order. */
  function Pictures(f: Value): (p: (Value, seq<Value>))
    ensures var main := ExtractAttachments(PickField(f, MainImageKeys, Undefined));
      var bilder := ExtractAttachments(PickField(f, GalleryKeys, Undefined));
      && p.0 == LeadImage(main, bilder)
      && (Truthy(p.0) ==> |p.1| > 0 && p.1[0] == p.0)
      && NoDuplicates(p.1)
      && (forall i :: 0 <= i < |bilder| ==> bilder[i] in p.1)
      && (forall i :: 0 <= i < |p.1| ==> p.1[i] in bilder || p.1[i] == p.0)
      && (var rest := p.1[if Truthy(p.0) then 1 else 0..];
          (forall i :: 0 <= i < |rest| ==> rest[i] in bilder) && InFirstOccurrenceOrder(bilder, rest))
  {
    var main := ExtractAttachments(PickField(f, MainImageKeys, Undefined));
    var bilder := ExtractAttachments(PickField(f, GalleryKeys, Undefined));
    var mainImage := LeadImage(main, bilder);
    (mainImage, Gallery(mainImage, bilder))
  }

  /** `normalize` for one record at position `idx`. */
  function NormalizeRecord(h: Host, r: Record, idx: nat): (e: Event)
    ensures e.id == idx + 1 && e.rawId == r.id && e.raw == Fields(r)
    ensures e.locationRaw == e.location
    ensures e.location == PickField(Fields(r), LocationKeys, Str(""))
    ensures e.description == PickField(Fields(r), DescriptionKeys, Str(""))
    ensures FirstTruthy(Props(Fields(r), TitleKeys)).None? ==> e.title == Str(DefaultTitle(idx))
    ensures FirstTruthy(Props(Fields(r), TitleKeys)).Some? ==>
      e.title == Prop(Fields(r), TitleKeys[FirstTruthy(Props(Fields(r), TitleKeys)).value])
    ensures e.date == EventDate(h, Fields(r))
    ensures (e.mainImage, e.images) == Pictures(Fields(r))
    ensures e.von == FormatMaybeDate(h, PickField(Fields(r), VonKeys, Null))
    ensures e.bis == FormatMaybeDate(h, PickField(Fields(r), BisKeys, Null))
    ensures e.organizer == PickField(Fields(r), OrganizerKeys, Str(""))
    ensures e.organizerWebsite == PickField(Fields(r), OrganizerWebsiteKeys, Str(""))
  {
    var f := Fields(r);
    var pictures := Pictures(f);
    var location := PickField(f, LocationKeys, Str(""));
    Event(idx + 1, PickField(f, TitleKeys, Str(DefaultTitle(idx))), EventDate(h, f), location, location,
      PickField(f, DescriptionKeys, Str("")), r.id, f, pictures.0, pictures.1,
      FormatMaybeDate(h, PickField(f, VonKeys, Null)), FormatMaybeDate(h, PickField(f, BisKeys, Null)),
      PickField(f, OrganizerKeys, Str("")), PickField(f, OrganizerWebsiteKeys, Str("")))
  }

  /** `normalize`: one event per record, in order, numbered from 1. */
  function Normalize(h: Host, records: seq<Record>): (es: seq<Event>)
    ensures |es| == |records|
    ensures forall i :: 0 <= i < |es| ==> es[i] == NormalizeRecord(h, records[i], i)
    ensures Numbered(es) && forall i :: 0 <= i < |es| ==> es[i].rawId == records[i].id
  {
    seq(|records|, i requires 0 <= i < |records| => NormalizeRecord(h, records[i], i))
  }

  /** Every event carries its position plus one as its id, as `normalize` numbers them. */
  predicate Numbered(es: seq<Event>) {
    forall i :: 0 <= i < |es| ==> es[i].id == i + 1
  }

  /** Positional ids are distinct, so a printed id picks out at most one event of a list. */
  lemma NumberedIdsDistinct(es: seq<Event>)
    requires Numbered(es)
    ensures forall i, j :: 0 <= i < j < |es| ==> NatToStr(es[i].id) != NatToStr(es[j].id)
  {
    forall i, j | 0 <= i < j < |es|
      ensures NatToStr(es[i].id) != NatToStr(es[j].id)
    {
      NatToStrInjective(i + 1, j + 1);
    }
  }

  const RoutePrefix := "/api/events/"

  /** A character that ends the id segment: `[^\/?#]` fails on it. */
  predicate EndsSegment(c: char) {
    c == '/' || c == '?' || c == '#'
  }

  /** Length of the longest prefix of `s` free of '/', '?' and '#'. */
  function SegmentLength(s: string): (k: nat)
    ensures k <= |s|
    ensures forall i :: 0 <= i < k ==> !EndsSegment(s[i])
    ensures k == |s| || EndsSegment(s[k])
  {
    if |s| == 0 || EndsSegment(s[0]) then 0 else 1 + SegmentLength(s[1..])
  }

  /** `path.match(/^\/api\/events\/([^\/?#]+)/)?.[1]`: the non-empty segment right after
      `/api/events/`, taken up to the next '/', '?' or '#'. */
  function RouteSegment(path: string): (r: Option<string>)
    ensures r.Some? <==> StartsWith(path, RoutePrefix) && |path| > |RoutePrefix| && !EndsSegment(path[|RoutePrefix|])
    ensures r.Some? ==> |r.value| > 0 && (forall i :: 0 <= i < |r.value| ==> !EndsSegment(r.value[i]))
    ensures r.Some? ==> exists rest :: path == RoutePrefix + r.value + rest && (rest == "" || EndsSegment(rest[0]))
  {
    if StartsWith(path, RoutePrefix) then
      var tail := path[|RoutePrefix|..];
      var k := SegmentLength(tail);
      if k > 0 then
        assert path == RoutePrefix + tail[..k] + tail[k..];
        Some(tail[..k])
      else None
    else None
  }

  /** The segment of a path built as `/api/events/<seg><rest>` is `seg`. */
  lemma {:induction false} SegmentLengthOfBuilt(seg: string, rest: string)
    requires forall i :: 0 <= i < |seg| ==> !EndsSegment(seg[i])
    requires rest == "" || EndsSegment(rest[0])
    ensures SegmentLength(seg + rest) == |seg|
  {
    if |seg| > 0 {
      assert (seg + rest)[0] == seg[0];
      assert (seg + rest)[1..] == seg[1..] + rest;
      SegmentLengthOfBuilt(seg[1..], rest);
    } else {
      assert seg + rest == rest;
    }
  }

  lemma RouteOfBuilt(seg: string, rest: string)
    requires |seg| > 0 && forall i :: 0 <= i < |seg| ==> !EndsSegment(seg[i])
    requires rest == "" || EndsSegment(rest[0])
    ensures RouteSegment(RoutePrefix + seg + rest) == Some(seg)
  {
    var path := RoutePrefix + seg + rest;
    assert path[..|RoutePrefix|] == RoutePrefix;
    assert path[|RoutePrefix|..] == seg + rest;
    SegmentLengthOfBuilt(seg, rest);
    assert (seg + rest)[..|seg|] == seg;
  }

  /** `/^rec/i.test(seg)`. */
  predicate IsRecordId(seg: string) {
    |seg| >= 3 && (seg[0] == 'r' || seg[0] == 'R') && (seg[1] == 'e' || seg[1] == 'E') && (seg[2] == 'c' || seg[2] == 'C')
  }

  /** A segment that names a record is never a printed position, so in the list fallback for
      such a segment only the raw id can match. */
  lemma RecordIdIsNotPosition(seg: string, n: nat)
    requires IsRecordId(seg)
    ensures NatToStr(n) != seg
  {
    var s := NatToStr(n);
    assert IsDigit(s[0]);
  }

  /** `payload1 && payload1.fields ? payload1 : null`, as the record handed to `normalize`. */
  function DirectRecord(payload: Value): (r: Option<Record>)
    ensures r.Some? <==> Truthy(payload) && Truthy(Prop(payload, "fields"))
    ensures r.Some? ==> r.value == Record(Prop(payload, "id"), Prop(payload, "fields"))
  {
    if Truthy(payload) && Truthy(Prop(payload, "fields")) then Some(Record(Prop(payload, "id"), Prop(payload, "fields")))
    else None
  }

  /** `String(e.id) === seg || String(e.rawId) === seg`. */
  predicate Matches(h: Host, seg: string, e: Event) {
    NatToStr(e.id) == seg || ToStr(h, e.rawId) == seg
  }

  /** `events.find(e => Matches(e))`. */
  function Locate(h: Host, seg: string, events: seq<Event>): (r: Option<Event>)
    ensures r.Some? ==> r.value in events && Matches(h, seg, r.value)
    ensures r.Some? ==> exists i :: 0 <= i < |events| && events[i] == r.value && forall j :: 0 <= j < i ==> !Matches(h, seg, events[j])
    ensures r.None? <==> forall i :: 0 <= i < |events| ==> !Matches(h, seg, events[i])
  {
    Find(events, e => Matches(h, seg, e))
  }

  /** In a numbered list the n-th event (counting from 1) is found by the segment `n`, unless
      an earlier event's raw id prints as `n`. */
  lemma PositionalLookup(h: Host, es: seq<Event>, i: nat)
    requires Numbered(es) && i < |es|
    requires forall j :: 0 <= j < i ==> ToStr(h, es[j].rawId) != NatToStr(i + 1)
    ensures Locate(h, NatToStr(i + 1), es) == Some(es[i])
  {
    var seg := NatToStr(i + 1);
    forall j | 0 <= j < i
      ensures !Matches(h, seg, es[j])
    {
      NatToStrInjective(j + 1, i + 1);
    }
    FindFirst(es, e => Matches(h, seg, e), i);
  }

  /** The list fallback for one segment: one `ListRecords` call, then the first event whose
      position or raw id prints as the segment, or `null`. */
  function Lookup(h: Host, seg: string, call: Call, listed: Fetch): (r: (Response<Event>, seq<Call>))
    requires WellFormed(listed)
    ensures r.1 == [call]
    ensures r.0.status == 200 <==> listed.Ok? && DecodeRecords(listed.payload).Some?
    ensures r.0.status == 200 ==> r.0.body == Single(Locate(h, seg, Normalize(h, DecodeRecords(listed.payload).value)))
    ensures listed.NotOk? ==> r.0 == UpstreamFailure(listed)
  {
    if !listed.Ok? then (UpstreamFailure(listed), [call])
    else
      match DecodeRecords(listed.payload)
      case Some(records) => (Response(200, None, Single(Locate(h, seg, Normalize(h, records)))), [call])
      case None => (Crash(), [call])
  }

  /** The handler. `direct` is what fetching one record produced and `listed` what fetching the
      list produced; the second component says which of the two fetches were made, in order. */
  function Handler(h: Host, verb: string, env: Env, path: string, direct: Fetch, listed: Fetch): (r: (Response<Event>, seq<Call>))
    requires WellFormed(direct) && WellFormed(listed)
    ensures verb != "GET" ==> r.0.status == 405 && r.0.allow == Some("GET") && r.1 == []
    ensures verb == "GET" && !(Configured(env.apiKey) && Configured(env.baseId)) ==>
      r.0 == Response(500, None, Failure(NotConfigured, None)) && r.1 == []
    ensures verb == "GET" && Configured(env.apiKey) && Configured(env.baseId) ==>
      var list := ListRecords(env.baseId.value, TableName(env, "Veranstaltungen"));
      && (RouteSegment(path).None? ==>
            && r.1 == [list]
            && (r.0.status == 200 <==> listed.Ok? && DecodeRecords(listed.payload).Some?)
            && (r.0.status == 200 ==> r.0.body == Many(Normalize(h, DecodeRecords(listed.payload).value))))
      && (RouteSegment(path).Some? && !IsRecordId(RouteSegment(path).value) ==>
            r == Lookup(h, RouteSegment(path).value, list, listed))
    ensures (verb == "GET" && Configured(env.apiKey) && Configured(env.baseId)
      && RouteSegment(path).Some? && IsRecordId(RouteSegment(path).value)) ==>
      var seg := RouteSegment(path).value;
      var get := GetRecord(env.baseId.value, TableName(env, "Veranstaltungen"), seg);
      var list := ListRecords(env.baseId.value, TableName(env, "Veranstaltungen"));
      && (!direct.Ok? ==> r == (UpstreamFailure(direct), [get]))
      && (direct.Ok? && DirectRecord(direct.payload).Some? ==>
            r == (Response(200, None, Single(Some(NormalizeRecord(h, DirectRecord(direct.payload).value, 0)))), [get]))
      && (direct.Ok? && DirectRecord(direct.payload).None? ==>
            r.0 == Lookup(h, seg, list, listed).0 && r.1 == [get, list])
  {
    var required := [env.apiKey, env.baseId];
    match Guard(verb, required)
    case Some(refusal) => (refusal, [])
    case None =>
      assert Configured(required[0]) && Configured(required[1]);
      var table := TableName(env, "Veranstaltungen");
      var list := ListRecords(env.baseId.value, table);
      match RouteSegment(path)
      case None => ListResponse(list, listed, rs => Normalize(h, rs))
      case Some(seg) =>
        if IsRecordId(seg) then
          var get := GetRecord(env.baseId.value, table, seg);
          if !direct.Ok? then (UpstreamFailure(direct), [get])
          else if DirectRecord(direct.payload).Some? then
            (Response(200, None, Single(Some(NormalizeRecord(h, DirectRecord(direct.payload).value, 0)))), [get])
          else
            var fallback := Lookup(h, seg, list, listed);
            (fallback.0, [get] + fallback.1)
        else Lookup(h, seg, list, listed)
  }
}
