/** The event details page (`src/pages/EventDetailsPage.tsx`): how the page finds the event
    for its route id (single-event endpoint, then the list, then the bundled samples), and how it
    assembles the main picture, the picture list, the organizer link and the date line from the
    event and its raw Airtable fields. Fetching is replaced by the parsed bodies it produced. */
module EventDetails {
  import opened Wrappers
  import opened Text
  import opened Js
  import opened Seqs
  import opened Attachments
  import opened PageData

  /** `String(e.id) === String(id) || String(e.rawId) === String(id)`. */
  predicate MatchesId(h: Host, id: string, e: Value) {
    ToStr(h, Prop(e, "id")) == id || ToStr(h, Prop(e, "rawId")) == id
  }

  /** `find` with that rule over parsed JSON values. */
  function SearchById(h: Host, id: string, items: seq<Value>): Search {
    SearchFor(items, e => MatchesId(h, id, e))
  }

  const LoadError := "Veranstaltung konnte nicht geladen werden."

  /** The `catch` branch: the bundled samples searched with the same rule. */
  function FromSamples(h: Host, id: string, sample: seq<Value>): (r: Loaded)
    requires forall i :: 0 <= i < |sample| ==> sample[i].Obj?
    ensures r.Shown? ==> r.item in sample && MatchesId(h, id, r.item)
    ensures r.Failed? <==> forall i :: 0 <= i < |sample| ==> !MatchesId(h, id, sample[i])
    ensures r.Failed? ==> r.error == LoadError
    ensures !r.NotFound?
  {
    match SearchById(h, id, sample)
    case Hit(e) => Shown(e)
    case Miss => Failed(LoadError)
    case Throws => assert false; Failed(LoadError)
  }

  /** `load`. `single` is the parsed body of `/api/events/<id>` (`None` when the request failed,
      was not 2xx or did not parse), `all` the parsed body of `/api/events` (`None` likewise,
      which throws into the sample fallback), `sample` the bundled sample events. */
  function Load(h: Host, id: string, single: Option<Value>, all: Option<Value>, sample: seq<Value>): (r: Loaded)
    requires forall i :: 0 <= i < |sample| ==> sample[i].Obj?
    ensures id != "" && single.Some? && Truthy(Prop(single.value, "event")) ==> r == Shown(Prop(single.value, "event"))
    ensures !(id != "" && single.Some? && Truthy(Prop(single.value, "event"))) ==>
      (all.None? ==> r == FromSamples(h, id, sample))
      && (all.Some? && !Or(Prop(all.value, "events"), Arr([])).Arr? ==> r == FromSamples(h, id, sample))
    ensures !(id != "" && single.Some? && Truthy(Prop(single.value, "event"))) && all.Some? && Or(Prop(all.value, "events"), Arr([])).Arr? ==>
      var items := Or(Prop(all.value, "events"), Arr([])).items;
      && (SearchById(h, id, items).Throws? ==> r == FromSamples(h, id, sample))
      && (SearchById(h, id, items).Miss? ==> r == NotFound)
      && (SearchById(h, id, items).Hit? ==> r == if Truthy(SearchById(h, id, items).item) then Shown(SearchById(h, id, items).item) else NotFound)
    ensures r.Failed? ==> r.error == LoadError
  {
    if id != "" && single.Some? && Truthy(Prop(single.value, "event")) then Shown(Prop(single.value, "event"))
    else if all.None? then FromSamples(h, id, sample)
    else
      var items := Or(Prop(all.value, "events"), Arr([]));
      if !items.Arr? then FromSamples(h, id, sample)
      else
        match SearchById(h, id, items.items)
        case Hit(e) => if Truthy(e) then Shown(e) else NotFound
        case Miss => NotFound
        case Throws => FromSamples(h, id, sample)
  }

  /** Whatever the page shows came from the single endpoint or matches the route id, and it is
      never `null`. */
  lemma LoadShowsMatch(h: Host, id: string, single: Option<Value>, all: Option<Value>, sample: seq<Value>)
    requires forall i :: 0 <= i < |sample| ==> sample[i].Obj?
    ensures var r := Load(h, id, single, all, sample);
      r.Shown? ==> (Truthy(r.item)
        && ((single.Some? && r.item == Prop(single.value, "event")) || MatchesId(h, id, r.item)))
  {
  }

  const MainKeys: seq<string> := ["HauptBild", "Hauptbild"]
  const GalleryKeys: seq<string> := ["Bilder", "Fotos", "Bildergalerie", "FotosGallerie"]
  const VonKeys: seq<string> := ["Von", "von", "Start", "start"]
  const BisKeys: seq<string> := ["Bis", "bis", "Ende", "end"]

  /** `event.mainImage`, else the first main attachment of the raw fields, else the first
      gallery attachment, else `''`. (`a || b` where `b` is the last operand is `PickField` with
      default `undefined` here: the attachment extractor gives `[]` for every falsy value.) */
  function MainImage(event: Value): (m: Value)
    ensures Truthy(Prop(event, "mainImage")) ==> m == Prop(event, "mainImage")
    ensures !Truthy(Prop(event, "mainImage")) ==>
      m == LeadImage(ExtractAttachments(PickField(RawFields(event), MainKeys, Undefined)),
                     ExtractAttachments(PickField(RawFields(event), GalleryKeys, Undefined)))
  {
    var rf := RawFields(event);
    Or(Prop(event, "mainImage"), LeadImage(ExtractAttachments(PickField(rf, MainKeys, Undefined)),
                                           ExtractAttachments(PickField(rf, GalleryKeys, Undefined))))
  }

  /** `images`: the event's own value when `event.images && event.images.length > 0`, else the
      main picture (when truthy) followed by the raw gallery attachments, each once, in gallery
      order. `None` when the own value has a length but is no array (a non-empty string, an
      object with a positive `length`), whose missing `map` makes rendering throw. */
  function Images(event: Value): (r: Option<seq<Value>>)
    ensures HasLength(Prop(event, "images")) && Prop(event, "images").Arr? ==> r == Some(Prop(event, "images").items)
    ensures r.None? <==> HasLength(Prop(event, "images")) && !Prop(event, "images").Arr?
    ensures !HasLength(Prop(event, "images")) ==>
      var bilder := ExtractAttachments(PickField(RawFields(event), GalleryKeys, Undefined));
      && r.Some?
      && NoDuplicates(r.value)
      && (Truthy(MainImage(event)) ==> |r.value| > 0 && r.value[0] == MainImage(event))
      && (forall i :: 0 <= i < |bilder| ==> bilder[i] in r.value)
      && (forall i :: 0 <= i < |r.value| ==> r.value[i] in bilder || r.value[i] == MainImage(event))
      && (var rest := r.value[if Truthy(MainImage(event)) then 1 else 0..];
          (forall i :: 0 <= i < |rest| ==> rest[i] in bilder) && InFirstOccurrenceOrder(bilder, rest))
  {
    var own := Prop(event, "images");
    if HasLength(own) then (if own.Arr? then Some(own.items) else None)
    else
      var main := MainImage(event);
      var bilder := ExtractAttachments(PickField(RawFields(event), GalleryKeys, Undefined));
      var g := Gallery(main, bilder);
      assert Truthy(main) ==> |g| > 0 && g[0] == main;
      Some(g)
  }

  /** The organizer link target: kept when it starts with `http`, else given `https://`. */
  function OrganizerHref(w: string): (r: string)
    ensures StartsWith(r, "http")
    ensures StartsWith(w, "http") ==> r == w
    ensures !StartsWith(w, "http") ==> r == "https://" + w
  {
    if StartsWith(w, "http") then w else "https://" + w
  }

  /** The organizer: the event's own, else `Veranstalter`, else `Organisator` of the raw fields. */
  function Organizer(event: Value): Value {
    var rf := RawFields(event);
    OrChain([Prop(event, "organizer"), Prop(rf, "Veranstalter"), Prop(rf, "Organisator")], Str(""))
  }

  /** The organizer's website: the event's own, else `Veranstalter-Website`, `Veranstalter
      Website` or `OrganizerWebsite` of the raw fields. */
  function OrganizerWebsite(event: Value): Value {
    var rf := RawFields(event);
    OrChain([Prop(event, "organizerWebsite"), Prop(rf, "Veranstalter-Website"),
             Prop(rf, "Veranstalter Website"), Prop(rf, "OrganizerWebsite")], Str(""))
  }

  /** The organizer block: absent for a falsy organizer; a link when there is a website, plain
      text otherwise. `None` inside `Some` is plain text; an outer `None` means a truthy website
      that is not a string, whose missing `startsWith` makes rendering throw. */
  datatype OrganizerBlock = NoOrganizer | Plain(name: Value) | Linked(name: Value, href: string)

  function OrganizerLine(event: Value): (r: Option<OrganizerBlock>)
    ensures !Truthy(Organizer(event)) ==> r == Some(NoOrganizer)
    ensures Truthy(Organizer(event)) && !Truthy(OrganizerWebsite(event)) ==> r == Some(Plain(Organizer(event)))
    ensures Truthy(Organizer(event)) && OrganizerWebsite(event).Str? && Truthy(OrganizerWebsite(event)) ==>
      r == Some(Linked(Organizer(event), OrganizerHref(OrganizerWebsite(event).s)))
    ensures r.None? <==> Truthy(Organizer(event)) && Truthy(OrganizerWebsite(event)) && !OrganizerWebsite(event).Str?
  {
    var o := Organizer(event);
    var w := OrganizerWebsite(event);
    if !Truthy(o) then Some(NoOrganizer)
    else if !Truthy(w) then Some(Plain(o))
    else if w.Str? then Some(Linked(o, OrganizerHref(w.s)))
    else None
  }

  /** The raw start: the first truthy of `Von`, `von`, `Start`, `start` in the raw fields, else
      `event.von`, else `''`; the raw end likewise with `Bis`, `bis`, `Ende`, `end`, `event.bis`. */
  function VonRaw(event: Value): Value {
    OrChain(Props(RawFields(event), VonKeys) + [Prop(event, "von")], Str(""))
  }

  function BisRaw(event: Value): Value {
    OrChain(Props(RawFields(event), BisKeys) + [Prop(event, "bis")], Str(""))
  }

  const DateSeparator := " \U{2014} "

  /** The `Datum:` line: shown iff either end is non-empty; `von — bis` with an end, `von`
      alone without one. */
  function DateLine(von: string, bis: string): (r: Option<string>)
    ensures r.Some? <==> von != "" || bis != ""
    ensures r.Some? && bis == "" ==> r.value == von
    ensures r.Some? && bis != "" ==> (|r.value| == |von| + |DateSeparator| + |bis|
      && r.value[..|von|] == von && r.value[|von|..|von| + |DateSeparator|] == DateSeparator
      && r.value[|von| + |DateSeparator|..] == bis)
  {
    if von == "" && bis == "" then None
    else if bis != "" then Some(von + DateSeparator + bis)
    else Some(von)
  }

  /** The parts of the page that are not plain copies of event fields. */
  datatype View = View(mainImage: Value, images: seq<Value>, organizer: OrganizerBlock, dateLine: Option<string>)

  /** Whether React can render `v` as a child: a plain object throws ("Objects are not valid as
      a React child"), an array renders element by element, and every other value renders. */
  predicate ReactChild(v: Value)
    decreases v
  {
    match v
    case Obj(_) => false
    case Arr(items) => forall i :: 0 <= i < |items| ==> ReactChild(items[i])
    case _ => true
  }

  /** The guard of the `Ort:` line: `Ort`, else `Location` of the raw fields, else the event's
      `location`, else its `locationRaw`. */
  function LocationShown(event: Value): Value {
    var rf := RawFields(event);
    OrChain([Prop(rf, "Ort"), Prop(rf, "Location"), Prop(event, "location")], Prop(event, "locationRaw"))
  }

  /** The link text of the `Ort:` line, which skips the raw `Location` field. */
  function LocationText(event: Value): Value {
    OrChain([Prop(RawFields(event), "Ort"), Prop(event, "location")], Prop(event, "locationRaw"))
  }

  /** The event fields the page renders as children: `title`, `date`, the organizer when it is
      truthy, and the location text when the `Ort:` line is shown. */
  predicate ChildrenRender(event: Value) {
    && ReactChild(Prop(event, "title"))
    && ReactChild(Prop(event, "date"))
    && (!Truthy(Organizer(event)) || ReactChild(Organizer(event)))
    && (!Truthy(LocationShown(event)) || ReactChild(LocationText(event)))
  }

  /** The page for a loaded event, `None` when rendering throws. */
  function Render(h: Host, event: Value): (r: Option<View>)
    ensures r.Some? <==> Images(event).Some? && OrganizerLine(event).Some? && ChildrenRender(event)
    ensures r.Some? ==> (r.value.mainImage == MainImage(event) && r.value.images == Images(event).value
      && r.value.organizer == OrganizerLine(event).value
      && r.value.dateLine == DateLine(FormatMaybeDate(h, VonRaw(event)), FormatMaybeDate(h, BisRaw(event))))
  {
    match (Images(event), OrganizerLine(event))
    case (Some(images), Some(organizer)) =>
      if !ChildrenRender(event) then None
      else Some(View(MainImage(event), images, organizer,
        DateLine(FormatMaybeDate(h, VonRaw(event)), FormatMaybeDate(h, BisRaw(event)))))
    case _ => None
  }
}
