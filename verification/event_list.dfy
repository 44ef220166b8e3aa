/** The event cards of the events list (`src/components/EventList.tsx`): the date-range label
    built from the raw `von`/`bis` fields, the choice of a maps link for the location, and the
    target of the "Mehr erfahren" button. Events arrive as parsed JSON values. */
module EventList {
  import opened Wrappers
  import opened Text
  import opened Js
  import EventDetails

  /** `event.raw || {}`. */
  function Raw(event: Value): Value {
    Or(Prop(event, "raw"), Obj([]))
  }

  const FromKeys: seq<string> := ["von", "Von", "from", "From", "start", "Start"]
  const ToKeys: seq<string> := ["bis", "Bis", "to", "To", "end", "Ende"]

  /** `find`: the first truthy raw field among `keys`, `undefined` when none is. */
  function FindRaw(raw: Value, keys: seq<string>): (r: Value)
    ensures FirstTruthy(Props(raw, keys)).Some? ==> r == Prop(raw, keys[FirstTruthy(Props(raw, keys)).value])
    ensures FirstTruthy(Props(raw, keys)).None? ==> r == Undefined
  {
    PickField(raw, keys, Undefined)
  }

  /** `formatVal`: `None` (for `null`) when the value is falsy; otherwise the value, or the first
      element of a non-empty array, as text. Only strings are read as dates, and a string the
      host cannot read or format comes back as it is; any other value goes through `String`. */
  function FormatVal(h: Host, v: Value): (r: Option<string>)
    ensures !Truthy(v) <==> r.None?
    ensures Truthy(v) && !FirstOrSelf(v).Str? ==> r == Some(ToStr(h, FirstOrSelf(v)))
    ensures Truthy(v) && FirstOrSelf(v).Str? && h.parseDate(FirstOrSelf(v).s).None? ==> r == Some(FirstOrSelf(v).s)
    ensures Truthy(v) && FirstOrSelf(v).Str? && h.parseDate(FirstOrSelf(v).s).Some? ==>
      r == Some(h.formatDe(h.parseDate(FirstOrSelf(v).s).value).GetOr(FirstOrSelf(v).s))
  {
    if !Truthy(v) then None
    else
      var s := FirstOrSelf(v);
      if !s.Str? then Some(ToStr(h, s))
      else
        match h.parseDate(s.s)
        case Some(t) => Some(FormatDeOr(h, t, s.s))
        case None => Some(s.s)
  }

  /** An option holding a non-empty string: a truthy `formatVal` result. */
  predicate Shown(o: Option<string>) {
    o.Some? && o.value != ""
  }

  /** The separator as the source file spells it: the UTF-8 bytes of an em dash read back as
      Windows-1252, that is U+00E2 U+20AC U+201D between two spaces. */
  const RangeSeparator := " \U{00E2}\U{20AC}\U{201D} "

  /** The label for already formatted ends: both ends give `from <sep> to`, or just one of
      them when they are equal; one end alone gives itself (an end alone prefixed with
      `bis `); neither gives `fallback`, which is `event.date || ''`. */
  function Label(from: Option<string>, to: Option<string>, fallback: Value): (r: Value)
    ensures Shown(from) && Shown(to) && from == to ==> r == Str(from.value)
    ensures Shown(from) && Shown(to) && from != to ==> r == Str(from.value + RangeSeparator + to.value)
    ensures Shown(from) && !Shown(to) ==> r == Str(from.value)
    ensures !Shown(from) && Shown(to) ==> r == Str("bis " + to.value)
    ensures !Shown(from) && !Shown(to) ==> r == Or(fallback, Str(""))
    ensures Shown(from) || Shown(to) ==> r.Str? && r.s != ""
  {
    if Shown(from) && Shown(to) then
      if from.value == to.value then Str(from.value) else Str(from.value + RangeSeparator + to.value)
    else if Shown(from) then Str(from.value)
    else if Shown(to) then Str("bis " + to.value)
    else Or(fallback, Str(""))
  }

  /** The date-range label of one event card. */
  function RangeLabel(h: Host, event: Value): (r: Value)
    ensures r == Label(FormatVal(h, FindRaw(Raw(event), FromKeys)), FormatVal(h, FindRaw(Raw(event), ToKeys)), Prop(event, "date"))
  {
    Label(FormatVal(h, FindRaw(Raw(event), FromKeys)), FormatVal(h, FindRaw(Raw(event), ToKeys)), Prop(event, "date"))
  }

  /** A one-day event whose start and end read the same shows a single date, never a range. */
  lemma SameDayLabel(h: Host, from: Value, to: Value, fallback: Value)
    requires Truthy(from) && Truthy(to) && FormatVal(h, from) == FormatVal(h, to) && FormatVal(h, from).value != ""
    ensures Label(FormatVal(h, from), FormatVal(h, to), fallback) == Str(FormatVal(h, from).value)
  {
  }

  const MapKeys: seq<string> := ["Google Maps Link", "Google Maps", "Maps", "Maps Link", "Link zu Google Maps", "Ort Link"]

  /** What one field offers as a maps link: the first element of an array whose first element
      is a string (whatever that string is), or a string containing `http`. */
  function Candidate(v: Value): (r: Option<string>)
    ensures r.Some? <==> (IsNonEmptyArray(v) && v.items[0].Str?) || (v.Str? && Contains(v.s, "http"))
    ensures IsNonEmptyArray(v) && v.items[0].Str? ==> r == Some(v.items[0].s)
    ensures v.Str? && Contains(v.s, "http") ==> r == Some(v.s)
  {
    if IsNonEmptyArray(v) && v.items[0].Str? then Some(v.items[0].s)
    else if v.Str? && Contains(v.s, "http") then Some(v.s)
    else None
  }

  /** The loop over the maps keys: the candidate of the first key that offers one. */
  function FirstCandidate(raw: Value, keys: seq<string>): (r: Option<string>)
    ensures r.Some? ==> exists k :: (0 <= k < |keys| && Candidate(Prop(raw, keys[k])) == r
      && forall j :: 0 <= j < k ==> Candidate(Prop(raw, keys[j])).None?)
    ensures r.None? <==> forall k :: 0 <= k < |keys| ==> Candidate(Prop(raw, keys[k])).None?
  {
    if |keys| == 0 then None
    else if Candidate(Prop(raw, keys[0])).Some? then Candidate(Prop(raw, keys[0]))
    else
      var r := FirstCandidate(raw, keys[1..]);
      if r.Some? then
        ghost var k :| 0 <= k < |keys[1..]| && Candidate(Prop(raw, keys[1..][k])) == r
          && forall j :: 0 <= j < k ==> Candidate(Prop(raw, keys[1..][j])).None?;
        assert Candidate(Prop(raw, keys[k + 1])) == r;
        r
      else
        assert forall k :: 1 <= k < |keys| ==> keys[k] == keys[1..][k - 1];
        r
  }

  /** The maps link of an event card: the first offered candidate when it is non-empty; `None`
      shows the location as plain text. */
  function MapLink(event: Value): (r: Option<string>)
    ensures r.Some? ==> r.value != "" && FirstCandidate(Raw(event), MapKeys) == r
    ensures r.None? <==> FirstCandidate(Raw(event), MapKeys).None? || FirstCandidate(Raw(event), MapKeys).value == ""
  {
    match FirstCandidate(Raw(event), MapKeys)
    case Some(link) => if link != "" then Some(link) else None
    case None => None
  }

  /** The loop stops at the first offered candidate even when it is empty: an empty first
      string in `Google Maps Link` hides a link stored under a later key. */
  lemma EmptyCandidateHidesLaterLinks(event: Value, link: string)
    requires Raw(event).Obj?
    requires Prop(Raw(event), MapKeys[0]) == Arr([Str("")])
    requires Prop(Raw(event), MapKeys[1]) == Str(link) && Contains(link, "http")
    ensures MapLink(event).None?
  {
  }

  /** `event.rawId || event.id`, as the path segment of the details link. */
  function DetailSegment(h: Host, event: Value): (seg: string)
    ensures Truthy(Prop(event, "rawId")) ==> seg == ToStr(h, Prop(event, "rawId"))
    ensures !Truthy(Prop(event, "rawId")) ==> seg == ToStr(h, Prop(event, "id"))
  {
    ToStr(h, Or(Prop(event, "rawId"), Prop(event, "id")))
  }

  /** The button target `/events/<rawId || id>`. */
  function DetailHref(h: Host, event: Value): (href: string)
    ensures href == "/events/" + DetailSegment(h, event)
  {
    "/events/" + DetailSegment(h, event)
  }

  /** The details page, searching for the segment of a card's link, recognises the card's
      event: the link and the lookup agree. */
  lemma DetailLinkFindsEvent(h: Host, event: Value)
    ensures EventDetails.MatchesId(h, DetailSegment(h, event), event)
  {
  }
}
