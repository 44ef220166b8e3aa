/** The home page (`src/pages/Home.tsx`): the date it reads from each event, the "upcoming
    events" pipeline (keep events dated today or later, sort them by date, show the first three),
    the six featured products, and the sample fallback when loading fails. Fetching is replaced
    by the parsed body it produced, and the clock by the current time value `now`. */
module Home {
  import opened Wrappers
  import opened Js
  import opened Seqs

  const FromKeys: seq<string> := ["von", "Von", "from", "From", "start", "Start"]
  const DateKeys: seq<string> := ["Datum", "datum", "Date", "date"]

  /** The value `parseEventDate` hands to `new Date`, before the array and emptiness checks: the
      first start field that is neither `undefined` nor `null`; failing that, the first date
      field that is neither; and if what was found is falsy, `e.date || ''`. */
  function DateSource(e: Value): (v: Value)
    ensures var raw := Or(Prop(e, "raw"), Obj([]));
      && (FirstDefined(raw, FromKeys).Some? && Truthy(FirstDefined(raw, FromKeys).value) ==> v == FirstDefined(raw, FromKeys).value)
      && (FirstDefined(raw, FromKeys).None? && FirstDefined(raw, DateKeys).Some? && Truthy(FirstDefined(raw, DateKeys).value) ==>
            v == FirstDefined(raw, DateKeys).value)
    ensures var raw := Or(Prop(e, "raw"), Obj([]));
      var found := match FirstDefined(raw, FromKeys)
        case Some(x) => x
        case None => FirstDefined(raw, DateKeys).GetOr(Undefined);
      !Truthy(found) ==> v == Or(Prop(e, "date"), Str(""))
  {
    var raw := Or(Prop(e, "raw"), Obj([]));
    var maybe := match FirstDefined(raw, FromKeys)
      case Some(x) => x
      case None => FirstDefined(raw, DateKeys).GetOr(Undefined);
    if Truthy(maybe) then maybe else Or(Prop(e, "date"), Str(""))
  }

  /** `parseEventDate`: the time value of the event's date, `None` when there is no date or the
      host cannot read it. A non-empty array stands for its first element. */
  function EventTime(h: Host, e: Value): (t: Option<int>)
    ensures !Truthy(FirstOrSelf(DateSource(e))) ==> t.None?
    ensures Truthy(FirstOrSelf(DateSource(e))) ==> t == NewDate(h, FirstOrSelf(DateSource(e)))
  {
    var maybe := FirstOrSelf(DateSource(e));
    if !Truthy(maybe) then None else NewDate(h, maybe)
  }

  /** An event with its time value, as the sort compares them. */
  datatype Dated = Dated(event: Value, time: int)

  /** `d.setHours(0, 0, 0, 0); return d >= today`: the event's day is today or later. */
  predicate Upcoming(h: Host, now: int, t: int) {
    h.startOfDay(t) >= h.startOfDay(now)
  }

  /** The filter's test: the event has a readable date whose day is not before today. */
  predicate Kept(h: Host, now: int, e: Value) {
    EventTime(h, e).Some? && Upcoming(h, now, EventTime(h, e).value)
  }

  /** The filter: the events that pass the test, in list order, each with its time value. */
  function KeepUpcoming(h: Host, now: int, events: seq<Value>): (r: seq<Dated>)
    ensures |r| <= |events|
    ensures forall i :: 0 <= i < |r| ==> r[i].event in events && EventTime(h, r[i].event) == Some(r[i].time) && Upcoming(h, now, r[i].time)
  {
    if |events| == 0 then []
    else
      var rest := KeepUpcoming(h, now, events[1..]);
      if Kept(h, now, events[0]) then [Dated(events[0], EventTime(h, events[0]).value)] + rest else rest
  }

  /** The filter drops nothing it should keep: every event that passes the test is there, with
      its time value. */
  lemma {:induction false} KeepUpcomingComplete(h: Host, now: int, events: seq<Value>, k: nat)
    requires k < |events| && Kept(h, now, events[k])
    ensures Dated(events[k], EventTime(h, events[k]).value) in KeepUpcoming(h, now, events)
  {
    KeepUpcomingCons(h, now, events);
    if k > 0 {
      assert events[1..][k - 1] == events[k];
      KeepUpcomingComplete(h, now, events[1..], k - 1);
    }
  }

  /** One step of the filter: the first event is kept in front of the rest, or dropped. */
  lemma KeepUpcomingCons(h: Host, now: int, events: seq<Value>)
    requires |events| > 0
    ensures Kept(h, now, events[0]) ==>
      KeepUpcoming(h, now, events) == [Dated(events[0], EventTime(h, events[0]).value)] + KeepUpcoming(h, now, events[1..])
    ensures !Kept(h, now, events[0]) ==> KeepUpcoming(h, now, events) == KeepUpcoming(h, now, events[1..])
  {
  }

  predicate SortedByTime(s: seq<Dated>) {
    forall i, j :: 0 <= i < j < |s| ==> s[i].time <= s[j].time
  }

  /** Places `x` after every element that is not later than it, which keeps the sort stable. */
  function Insert(x: Dated, s: seq<Dated>): (r: seq<Dated>)
    requires SortedByTime(s)
    ensures SortedByTime(r)
    ensures multiset(r) == multiset(s) + multiset{x}
    ensures |r| == |s| + 1
    ensures r[0] == if |s| == 0 || x.time < s[0].time then x else s[0]
  {
    if |s| == 0 then [x]
    else if x.time < s[0].time then [x] + s
    else
      var t := Insert(x, s[1..]);
      assert s == [s[0]] + s[1..];
      assert forall j :: 0 <= j < |t| ==> s[0].time <= t[0].time <= t[j].time;
      [s[0]] + t
  }

  /** `sort((a, b) => da - db)`, which is stable: insertion of each event in list order. */
  function SortByTime(s: seq<Dated>): (r: seq<Dated>)
    ensures SortedByTime(r)
    ensures multiset(r) == multiset(s)
    ensures |r| == |s|
  {
    if |s| == 0 then []
    else
      assert s == s[..|s| - 1] + [s[|s| - 1]];
      Insert(s[|s| - 1], SortByTime(s[..|s| - 1]))
  }

  /** Inserting an element no earlier than everything appends it. */
  lemma {:induction false} InsertLast(x: Dated, s: seq<Dated>)
    requires SortedByTime(s)
    requires forall i :: 0 <= i < |s| ==> s[i].time <= x.time
    ensures Insert(x, s) == s + [x]
  {
    if |s| > 0 {
      InsertLast(x, s[1..]);
      assert [s[0]] + (s[1..] + [x]) == s + [x];
    }
  }

  /** A list already in date order comes out of the sort unchanged; in particular sorting twice
      is sorting once. */
  lemma {:induction false} SortOfSorted(s: seq<Dated>)
    requires SortedByTime(s)
    ensures SortByTime(s) == s
  {
    if |s| > 0 {
      var init := s[..|s| - 1];
      assert SortedByTime(init);
      SortOfSorted(init);
      InsertLast(s[|s| - 1], init);
      assert init + [s[|s| - 1]] == s;
    }
  }

  lemma SortIdempotent(s: seq<Dated>)
    ensures SortByTime(SortByTime(s)) == SortByTime(s)
  {
    SortOfSorted(SortByTime(s));
  }

  /** The elements of `s` dated `t`, in list order. */
  function WithTime(s: seq<Dated>, t: int): seq<Dated> {
    if |s| == 0 then [] else (if s[0].time == t then [s[0]] else []) + WithTime(s[1..], t)
  }

  lemma {:induction false} WithTimeAppend(a: seq<Dated>, b: seq<Dated>, t: int)
    ensures WithTime(a + b, t) == WithTime(a, t) + WithTime(b, t)
  {
    if |a| > 0 {
      assert (a + b)[1..] == a[1..] + b;
      WithTimeAppend(a[1..], b, t);
    } else {
      assert a + b == b;
    }
  }

  lemma {:induction false} WithTimeNone(s: seq<Dated>, t: int)
    requires forall i :: 0 <= i < |s| ==> s[i].time > t
    ensures WithTime(s, t) == []
  {
    if |s| > 0 {
      WithTimeNone(s[1..], t);
    }
  }

  lemma AppendAssoc<T>(a: seq<T>, b: seq<T>, c: seq<T>)
    ensures a + (b + c) == (a + b) + c
  {
  }

  lemma WithTimeCons(y: Dated, u: seq<Dated>, t: int)
    ensures WithTime([y] + u, t) == (if y.time == t then [y] else []) + WithTime(u, t)
  {
    assert ([y] + u)[1..] == u;
  }

  /** Inserting `x` adds it behind every element already dated like it. */
  lemma {:induction false} InsertWithTime(x: Dated, s: seq<Dated>, t: int)
    requires SortedByTime(s)
    ensures WithTime(Insert(x, s), t) == WithTime(s, t) + (if x.time == t then [x] else [])
  {
    if |s| == 0 {
      WithTimeCons(x, [], t);
    } else if x.time < s[0].time {
      InsertFront(x, s, t);
    } else {
      assert SortedByTime(s[1..]);
      InsertWithTime(x, s[1..], t);
      InsertBehind(x, s, t);
    }
  }

  lemma InsertFront(x: Dated, s: seq<Dated>, t: int)
    requires SortedByTime(s) && |s| > 0 && x.time < s[0].time
    ensures WithTime(Insert(x, s), t) == WithTime(s, t) + (if x.time == t then [x] else [])
  {
    var rest := WithTime(s, t);
    assert Insert(x, s) == [x] + s;
    WithTimeCons(x, s, t);
    if x.time == t {
      WithTimeNone(s, t);
      assert WithTime(Insert(x, s), t) == [x] + rest;
      assert rest == [];
    } else {
      assert WithTime(Insert(x, s), t) == [] + rest;
      assert [] + rest == rest + [];
    }
  }

  lemma InsertBehind(x: Dated, s: seq<Dated>, t: int)
    requires SortedByTime(s) && |s| > 0 && x.time >= s[0].time
    requires SortedByTime(s[1..])
    requires WithTime(Insert(x, s[1..]), t) == WithTime(s[1..], t) + (if x.time == t then [x] else [])
    ensures WithTime(Insert(x, s), t) == WithTime(s, t) + (if x.time == t then [x] else [])
  {
    var mine: seq<Dated> := if x.time == t then [x] else [];
    var u := Insert(x, s[1..]);
    var head: seq<Dated> := if s[0].time == t then [s[0]] else [];
    var rest := WithTime(s[1..], t);
    assert Insert(x, s) == [s[0]] + u;
    WithTimeCons(s[0], u, t);
    assert WithTime(u, t) == rest + mine;
    assert WithTime(s, t) == head + rest;
    AppendAssoc(head, rest, mine);
  }

  lemma WithTimeLast(s: seq<Dated>, t: int)
    requires |s| > 0
    ensures WithTime(s, t)
      == WithTime(s[..|s| - 1], t) + (if s[|s| - 1].time == t then [s[|s| - 1]] else [])
  {
    var last := s[|s| - 1];
    assert s == s[..|s| - 1] + [last];
    WithTimeAppend(s[..|s| - 1], [last], t);
    assert WithTime([last], t) == (if last.time == t then [last] else []) + WithTime([], t);
  }

  /** The sort is stable: events with the same date keep the order they had in the list. */
  lemma {:induction false} SortStable(s: seq<Dated>, t: int)
    ensures WithTime(SortByTime(s), t) == WithTime(s, t)
  {
    if |s| > 0 {
      var init := s[..|s| - 1];
      SortStable(init, t);
      InsertWithTime(s[|s| - 1], SortByTime(init), t);
      WithTimeLast(s, t);
    }
  }

  /** The upcoming events in date order. */
  function Schedule(h: Host, now: int, events: seq<Value>): (r: seq<Dated>)
    ensures SortedByTime(r)
    ensures multiset(r) == multiset(KeepUpcoming(h, now, events))
  {
    SortByTime(KeepUpcoming(h, now, events))
  }

  /** Every scheduled event has a readable date on or after today. */
  lemma ScheduledIsUpcoming(h: Host, now: int, events: seq<Value>)
    ensures var sched := Schedule(h, now, events);
      forall i :: 0 <= i < |sched| ==> sched[i].event in events && EventTime(h, sched[i].event) == Some(sched[i].time) && Upcoming(h, now, sched[i].time)
  {
    var sched := Schedule(h, now, events);
    forall i | 0 <= i < |sched|
      ensures sched[i].event in events && EventTime(h, sched[i].event) == Some(sched[i].time) && Upcoming(h, now, sched[i].time)
    {
      assert sched[i] in multiset(sched);
      assert sched[i] in KeepUpcoming(h, now, events);
    }
  }

  /** The three events the page shows after a successful load: the first three of the schedule. */
  function NextThree(h: Host, now: int, events: seq<Value>): (r: seq<Value>)
    ensures |r| <= 3
    ensures |r| == (if |Schedule(h, now, events)| < 3 then |Schedule(h, now, events)| else 3)
    ensures forall i :: 0 <= i < |r| ==> r[i] == Schedule(h, now, events)[i].event
  {
    EventsOf(Take(Schedule(h, now, events), 3))
  }

  /** The events of a list of dated events, in order. */
  function EventsOf(ds: seq<Dated>): (r: seq<Value>)
    ensures |r| == |ds| && forall i :: 0 <= i < |ds| ==> r[i] == ds[i].event
  {
    seq(|ds|, i requires 0 <= i < |ds| => ds[i].event)
  }

  /** What the shown events satisfy: each has a readable date on or after today, they are in
      date order, and no upcoming event left out is earlier than the last one shown. */
  lemma NextThreeProperties(h: Host, now: int, events: seq<Value>)
    ensures var r := NextThree(h, now, events);
      && (forall i :: 0 <= i < |r| ==> r[i] in events && EventTime(h, r[i]).Some? && Upcoming(h, now, EventTime(h, r[i]).value))
      && (forall i, j :: 0 <= i < j < |r| ==> EventTime(h, r[i]).value <= EventTime(h, r[j]).value)
      && (forall k :: |r| <= k < |Schedule(h, now, events)| ==> EventTime(h, r[|r| - 1]).value <= Schedule(h, now, events)[k].time)
  {
    var r := NextThree(h, now, events);
    var sched := Schedule(h, now, events);
    ScheduledIsUpcoming(h, now, events);
    assert forall i :: 0 <= i < |r| ==> r[i] == sched[i].event;
  }

  /** `setUpcomingEvents`: `payload` is the parsed body of `/api/events`, `None` when the
      request failed, was not 2xx or did not parse. Without an `events` array the initial three
      samples stay; a `null` or `undefined` event makes the filter throw, which also falls back
      to them. */
  function UpcomingEvents(h: Host, now: int, payload: Option<Value>, sample: seq<Value>): (r: seq<Value>)
    ensures payload.None? ==> r == Take(sample, 3)
    ensures payload.Some? && !Prop(payload.value, "events").Arr? ==> r == Take(sample, 3)
    ensures payload.Some? && Prop(payload.value, "events").Arr? ==>
      var events := Prop(payload.value, "events").items;
      && ((exists i :: 0 <= i < |events| && IsNullish(events[i])) ==> r == Take(sample, 3))
      && ((forall i :: 0 <= i < |events| ==> !IsNullish(events[i])) ==> r == NextThree(h, now, events))
    ensures |r| <= 3
  {
    if payload.None? || !Prop(payload.value, "events").Arr? then Take(sample, 3)
    else
      var events := Prop(payload.value, "events").items;
      if exists i :: 0 <= i < |events| && IsNullish(events[i]) then Take(sample, 3)
      else NextThree(h, now, events)
  }

  /** `setFeaturedProducts`: the first six products of a successful load; nothing otherwise. */
  function Featured(payload: Option<Value>): (r: seq<Value>)
    ensures |r| <= 6
    ensures payload.Some? && Prop(payload.value, "products").Arr? ==>
      var items := Prop(payload.value, "products").items;
      |r| == (if |items| < 6 then |items| else 6) && r == items[..|r|]
    ensures !(payload.Some? && Prop(payload.value, "products").Arr?) ==> r == []
  {
    if payload.Some? && Prop(payload.value, "products").Arr? then Take(Prop(payload.value, "products").items, 6)
    else []
  }
}
