/**
 * The live aggregator (app.py): `refresh_events` merges the Cozi feed and the
 * Outlook feed into the global list `combined_events`, and the `/` route
 * (`dashboard`) splits that list into today's events and the events of the
 * next seven days grouped by weekday name.
 *
 * Fetching and parsing a feed (`requests.get`, `ics.Calendar`) are library
 * calls: a feed arrives as a `Fetch`. The ISO-8601 text that
 * `refresh_events` stores and `dashboard` parses back is a `Stamp`.
 */
module LiveAggregator {
  import opened Basics
  import opened Clock

  // ---------------------------------------------------------------------
  // Data

  /** An event as the `ics` library yields it from `Calendar(text).events`. */
  datatype IcsEvent = IcsEvent(name: Option<string>, begin: Option<Ts>, end: Option<Ts>, allDay: bool)

  /**
   * One feed: the fetch or the parse raised (`FetchFailed`), or the events of
   * the calendar together with the index of the event at which reading the
   * events raised, if that happened.
   */
  datatype Fetch = FetchFailed | Fetched(events: seq<IcsEvent>, raisesAt: Option<nat>)

  /** ISO-8601 text: what `isoformat()` wrote for `ts`, or text `fromisoformat` rejects. */
  datatype Stamp = Stamp(ts: Ts) | Garbled(text: string)

  /** An entry of `combined_events`; `allDay` is None when the dict has no such key. */
  datatype Entry = Entry(title: string, start: Stamp, end: Option<Stamp>, allDay: Option<bool>, source: string)

  /** An event handed to the dashboard template. */
  datatype Shown = Shown(title: string, start: Ts, end: Option<Ts>, allDay: bool)

  /** What the `/` route produces: the two buckets, or an exception. */
  datatype View = Rendered(today: seq<Shown>, week: map<string, seq<Shown>>) | Failed

  /** The title prefix of each feed: none for Cozi, "NTC: " for Outlook. */
  const COZI_LABEL: string := ""
  const OUTLOOK_LABEL: string := "NTC: "

  // ---------------------------------------------------------------------
  // refresh_events

  /** `(prefix + event.name) if event.name else "Untitled"` */
  function Title(ev: IcsEvent, prefix: string): (t: string)
    ensures Truthy(ev.name) ==> HasPrefix(t, prefix) && t[|prefix|..] == ev.name.value
    ensures !Truthy(ev.name) ==> t == "Untitled"
  {
    if Truthy(ev.name) then prefix + ev.name.value else "Untitled"
  }

  /** The dict appended for an event that has a begin. */
  function ToEntry(ev: IcsEvent, prefix: string): (e: Entry)
    requires ev.begin.Some?
    ensures e.title == Title(ev, prefix)
    ensures e.start == Stamp(ev.begin.value)
    ensures e.end.None? <==> ev.end.None?
    ensures ev.end.Some? ==> e.end == Some(Stamp(ev.end.value))
    ensures e.allDay == Some(ev.allDay)
    ensures e.source == "outlook" <==> prefix != ""
    ensures e.source == "cozi" <==> prefix == ""
  {
    Entry(
      Title(ev, prefix),
      Stamp(ev.begin.value),
      if ev.end.Some? then Some(Stamp(ev.end.value)) else None,
      Some(ev.allDay),
      if prefix != "" then "outlook" else "cozi")
  }

  /** The entries the inner loop appends for `evs`: one per event with a begin. */
  function Normalize(evs: seq<IcsEvent>, prefix: string): seq<Entry> {
    if evs == [] then []
    else
      var ev := evs[|evs| - 1];
      Normalize(evs[..|evs| - 1], prefix) + (if ev.begin.Some? then [ToEntry(ev, prefix)] else [])
  }

  /** The events read before the exception, if one was raised. */
  function Processed(evs: seq<IcsEvent>, raisesAt: Option<nat>): (r: seq<IcsEvent>)
    ensures r <= evs
    ensures raisesAt.None? ==> r == evs
    ensures raisesAt.Some? && raisesAt.value < |evs| ==> r == evs[..raisesAt.value]
  {
    if raisesAt.Some? && raisesAt.value < |evs| then evs[..raisesAt.value] else evs
  }

  /** What one feed leaves in `combined_events`. */
  function Loaded(f: Fetch, prefix: string): seq<Entry> {
    match f
    case FetchFailed => []
    case Fetched(evs, raisesAt) => Normalize(Processed(evs, raisesAt), prefix)
  }

  /** The number of events that have a begin. */
  function CountWithBegin(evs: seq<IcsEvent>): nat {
    if evs == [] then 0 else (if evs[0].begin.Some? then 1 else 0) + CountWithBegin(evs[1..])
  }

  /** The holder of the module-level list `combined_events`. */
  class LiveCalendar {
    var combinedEvents: seq<Entry>

    constructor ()
      ensures combinedEvents == []
    {
      combinedEvents := [];
    }

    /**
     * Rebuilds the list from the Cozi feed, then the Outlook feed. A feed
     * that raises keeps what it appended before the exception, and the next
     * feed is still read.
     */
    method RefreshEvents(cozi: Fetch, outlook: Fetch)
      modifies this
      ensures combinedEvents == Loaded(cozi, COZI_LABEL) + Loaded(outlook, OUTLOOK_LABEL)
    {
      combinedEvents := [];
      var feeds := [(cozi, COZI_LABEL), (outlook, OUTLOOK_LABEL)];
      for f := 0 to |feeds|
        invariant combinedEvents == LoadedAll(feeds[..f])
      {
        assert feeds[..f + 1] == feeds[..f] + [feeds[f]];
        LoadFeed(feeds[f].0, feeds[f].1);
      }
      assert feeds[..2] == feeds;
    }

    /** The body of the `try` for one feed: append an entry per event that has a begin. */
    method LoadFeed(fetch: Fetch, prefix: string)
      modifies this
      ensures combinedEvents == old(combinedEvents) + Loaded(fetch, prefix)
    {
      if fetch.Fetched? {
        var evs := fetch.events;
        var stop := |Processed(evs, fetch.raisesAt)|;
        var i := 0;
        while i < stop
          invariant 0 <= i <= stop
          invariant combinedEvents == old(combinedEvents) + Normalize(evs[..i], prefix)
        {
          var event := evs[i];
          assert evs[..i + 1] == evs[..i] + [event];
          if event.begin.Some? {
            combinedEvents := combinedEvents + [ToEntry(event, prefix)];
          }
          i := i + 1;
        }
        assert evs[..stop] == Processed(evs, fetch.raisesAt);
      }
    }
  }

  /** What a list of feeds leaves in `combined_events`, feed after feed. */
  function LoadedAll(feeds: seq<(Fetch, string)>): seq<Entry> {
    if feeds == [] then []
    else LoadedAll(feeds[..|feeds| - 1]) + Loaded(feeds[|feeds| - 1].0, feeds[|feeds| - 1].1)
  }

  /** The entries of two pieces of a feed are those of the first piece, then those of the second. */
  lemma {:induction false} NormalizeAppend(a: seq<IcsEvent>, b: seq<IcsEvent>, prefix: string)
    ensures Normalize(a + b, prefix) == Normalize(a, prefix) + Normalize(b, prefix)
  {
    if b == [] {
      assert a + b == a;
    } else {
      var b' := b[..|b| - 1];
      assert (a + b)[..|a + b| - 1] == a + b';
      NormalizeAppend(a, b', prefix);
    }
  }

  /** No deduplication: every event with a begin gives its own entry, equal events included. */
  lemma {:induction false} NormalizeCount(evs: seq<IcsEvent>, prefix: string)
    ensures |Normalize(evs, prefix)| == CountWithBegin(evs)
  {
    if evs != [] {
      assert evs == [evs[0]] + evs[1..];
      NormalizeAppend([evs[0]], evs[1..], prefix);
      assert [evs[0]][..0] == [];
      NormalizeCount(evs[1..], prefix);
    }
  }

  /** An entry comes from an event of the feed that has a begin, and every such event gives one. */
  lemma {:induction false} NormalizeMembers(evs: seq<IcsEvent>, prefix: string)
    ensures forall e :: e in Normalize(evs, prefix) ==>
      exists i :: 0 <= i < |evs| && evs[i].begin.Some? && e == ToEntry(evs[i], prefix)
    ensures forall i :: 0 <= i < |evs| && evs[i].begin.Some? ==> ToEntry(evs[i], prefix) in Normalize(evs, prefix)
  {
    if evs != [] {
      var init := evs[..|evs| - 1];
      NormalizeMembers(init, prefix);
      forall i | 0 <= i < |init|
        ensures init[i] == evs[i]
      {
      }
    }
  }

  /**
   * In the merged list every Cozi entry precedes every Outlook entry, Cozi
   * titles are the event names verbatim or "Untitled", and Outlook titles
   * carry the "NTC: " prefix unless they are "Untitled".
   */
  lemma CombinedOrderAndTitles(cozi: Fetch, outlook: Fetch)
    ensures var c := Loaded(cozi, COZI_LABEL) + Loaded(outlook, OUTLOOK_LABEL);
      && (forall i :: 0 <= i < |c| ==> c[i].source == "cozi" || c[i].source == "outlook")
      && (forall i, j :: 0 <= i < j < |c| && c[j].source == "cozi" ==> c[i].source == "cozi")
      && (forall i :: 0 <= i < |c| && c[i].source == "outlook" ==>
            c[i].title == "Untitled" || HasPrefix(c[i].title, OUTLOOK_LABEL))
      && (forall i :: 0 <= i < |c| ==> (|c| - |Loaded(outlook, OUTLOOK_LABEL)| <= i <==> c[i].source == "outlook"))
  {
    var a, b := Loaded(cozi, COZI_LABEL), Loaded(outlook, OUTLOOK_LABEL);
    var c := a + b;
    CoziEntries(cozi);
    OutlookEntries(outlook);
    forall i | 0 <= i < |c|
      ensures i < |a| ==> c[i] in a
      ensures |a| <= i ==> c[i] in b
    {
      if i < |a| { assert c[i] == a[i]; } else { assert c[i] == b[i - |a|]; }
    }
  }

  lemma CoziEntries(cozi: Fetch)
    ensures forall e :: e in Loaded(cozi, COZI_LABEL) ==> e.source == "cozi"
  {
    if cozi.Fetched? {
      NormalizeMembers(Processed(cozi.events, cozi.raisesAt), COZI_LABEL);
    }
  }

  lemma OutlookEntries(outlook: Fetch)
    ensures forall e :: e in Loaded(outlook, OUTLOOK_LABEL) ==>
      e.source == "outlook" && (e.title == "Untitled" || HasPrefix(e.title, OUTLOOK_LABEL))
  {
    if outlook.Fetched? {
      NormalizeMembers(Processed(outlook.events, outlook.raisesAt), OUTLOOK_LABEL);
    }
  }

  // ---------------------------------------------------------------------
  // dashboard

  /** `datetime.fromisoformat(text)`, None where it raises. */
  function FromIso(s: Stamp): (t: Option<Ts>)
    ensures t.Some? <==> s.Stamp?
    ensures s.Stamp? ==> t == Some(s.ts)
  {
    match s
    case Stamp(ts) => Some(ts)
    case Garbled(_) => None
  }

  /** The start date equals today's date. */
  predicate IsToday(e: Entry, now: Ts) {
    FromIso(e.start).Some? && FromIso(e.start).value.day == now.day
  }

  /** `now.date() < start.date() <= (now + timedelta(days=7)).date()` */
  predicate IsUpcoming(e: Entry, now: Ts) {
    FromIso(e.start).Some? && now.day < FromIso(e.start).value.day <= AddDays(now, 7).day
  }

  /** `e.get("end")` is truthy and `fromisoformat` rejects it: building the bucket entry raises. */
  predicate EndRaises(e: Entry) {
    e.end.Some? && e.end.value.Garbled? && e.end.value.text != ""
  }

  /** The dict a bucket receives for an entry whose start parses. */
  function Show(e: Entry): (s: Shown)
    requires FromIso(e.start).Some?
    ensures s.title == e.title && s.start == e.start.ts
    ensures e.end.None? ==> s.end.None?
    ensures e.end.Some? && e.end.value.Stamp? ==> s.end == Some(e.end.value.ts)
    ensures e.end == Some(Garbled("")) ==> s.end.None?
    ensures s.allDay <==> e.allDay == Some(true)
  {
    Shown(
      e.title,
      e.start.ts,
      if e.end.Some? && e.end.value.Stamp? then Some(e.end.value.ts) else None,
      if e.allDay.Some? then e.allDay.value else false)
  }

  /** The today bucket for `es`. */
  function TodayList(es: seq<Entry>, now: Ts): seq<Shown> {
    if es == [] then []
    else
      var e := es[|es| - 1];
      TodayList(es[..|es| - 1], now) + (if IsToday(e, now) then [Show(e)] else [])
  }

  /** The upcoming events of `es` whose weekday name is `weekday`, in list order. */
  function WeekList(es: seq<Entry>, now: Ts, weekday: string): seq<Shown> {
    if es == [] then []
    else
      var e := es[|es| - 1];
      WeekList(es[..|es| - 1], now, weekday)
        + (if IsUpcoming(e, now) && WeekdayName(e.start.ts.day) == weekday then [Show(e)] else [])
  }

  /** `week_events_grouped` built by `setdefault(weekday, []).append(...)` over `es`. */
  function WeekMap(es: seq<Entry>, now: Ts): map<string, seq<Shown>> {
    if es == [] then map[]
    else
      var m := WeekMap(es[..|es| - 1], now);
      var e := es[|es| - 1];
      if IsUpcoming(e, now) then
        var weekday := WeekdayName(e.start.ts.day);
        m[weekday := (if weekday in m then m[weekday] else []) + [Show(e)]]
      else m
  }

  /** Some entry that lands in a bucket has an end that `fromisoformat` rejects. */
  predicate Raises(es: seq<Entry>, now: Ts) {
    exists i :: 0 <= i < |es| && (IsToday(es[i], now) || IsUpcoming(es[i], now)) && EndRaises(es[i])
  }

  function DashboardSpec(es: seq<Entry>, now: Ts): View {
    if Raises(es, now) then Failed else Rendered(TodayList(es, now), WeekMap(es, now))
  }

  /** The bucketing loop of the `/` route over `combined_events`. */
  method Dashboard(combined: seq<Entry>, now: Ts) returns (view: View)
    ensures view == DashboardSpec(combined, now)
  {
    var todayEvents: seq<Shown> := [];
    var weekEventsGrouped: map<string, seq<Shown>> := map[];
    var thisWeek := AddDays(now, 7);
    for i := 0 to |combined|
      invariant todayEvents == TodayList(combined[..i], now)
      invariant weekEventsGrouped == WeekMap(combined[..i], now)
      invariant !Raises(combined[..i], now)
    {
      var e := combined[i];
      assert combined[..i + 1] == combined[..i] + [e];
      var parsed := FromIso(e.start);
      if parsed.None? {
        continue;
      }
      var startDt := parsed.value;
      if startDt.day == now.day {
        if EndRaises(e) {
          assert IsToday(combined[i], now);
          return Failed;
        }
        todayEvents := todayEvents + [Show(e)];
      } else if now.day < startDt.day <= thisWeek.day {
        var weekday := WeekdayName(startDt.day);
        if EndRaises(e) {
          assert IsUpcoming(combined[i], now);
          return Failed;
        }
        var bucket := if weekday in weekEventsGrouped then weekEventsGrouped[weekday] else [];
        weekEventsGrouped := weekEventsGrouped[weekday := bucket + [Show(e)]];
      }
    }
    assert combined[..|combined|] == combined;
    view := Rendered(todayEvents, weekEventsGrouped);
  }

  /** Neither bucket is sorted: each keeps the order of the list, and an entry whose start does not parse only drops out. */
  lemma {:induction false} BucketsKeepListOrder(a: seq<Entry>, b: seq<Entry>, now: Ts, weekday: string)
    ensures TodayList(a + b, now) == TodayList(a, now) + TodayList(b, now)
    ensures WeekList(a + b, now, weekday) == WeekList(a, now, weekday) + WeekList(b, now, weekday)
    ensures forall e: Entry :: FromIso(e.start).None? ==> TodayList([e], now) == [] && WeekList([e], now, weekday) == []
  {
    if b == [] {
      assert a + b == a;
    } else {
      var b' := b[..|b| - 1];
      assert (a + b)[..|a + b| - 1] == a + b';
      BucketsKeepListOrder(a, b', now, weekday);
    }
    forall e: Entry | FromIso(e.start).None?
      ensures TodayList([e], now) == [] && WeekList([e], now, weekday) == []
    {
      assert [e][..0] == [];
    }
  }

  /** Every entry whose start parses lands in its bucket: today's, or the list of its weekday name. */
  lemma {:induction false} BucketMembers(es: seq<Entry>, now: Ts, i: nat)
    requires i < |es|
    ensures IsToday(es[i], now) ==> Show(es[i]) in TodayList(es, now)
    ensures IsUpcoming(es[i], now) ==> Show(es[i]) in WeekList(es, now, WeekdayName(es[i].start.ts.day))
  {
    var n := |es| - 1;
    if i < n {
      BucketMembers(es[..n], now, i);
      assert es[..n][i] == es[i];
    }
  }

  /** An upcoming entry whose start parses is listed in `week_events` under its `%A` name. */
  lemma UpcomingInWeekMap(es: seq<Entry>, now: Ts, i: nat)
    requires i < |es| && IsUpcoming(es[i], now)
    ensures var weekday := WeekdayName(es[i].start.ts.day);
      weekday in WeekMap(es, now) && Show(es[i]) in WeekMap(es, now)[weekday]
  {
    BucketMembers(es, now, i);
    WeekMapGroups(es, now);
  }

  /** `week_events` holds a weekday exactly when some upcoming event has that weekday, and then lists exactly those events. */
  lemma {:induction false} WeekMapGroups(es: seq<Entry>, now: Ts)
    ensures forall weekday :: weekday in WeekMap(es, now) <==> WeekList(es, now, weekday) != []
    ensures forall weekday :: weekday in WeekMap(es, now) ==> WeekMap(es, now)[weekday] == WeekList(es, now, weekday)
  {
    if es != [] {
      WeekMapGroups(es[..|es| - 1], now);
    }
  }

  /** Today's bucket holds events dated today; the weekday buckets hold events of the seven following days. */
  lemma {:induction false} BucketDates(es: seq<Entry>, now: Ts, weekday: string)
    ensures forall s :: s in TodayList(es, now) ==> s.start.day == now.day
    ensures forall s :: s in WeekList(es, now, weekday) ==>
      now.day < s.start.day <= now.day + 7 && WeekdayName(s.start.day) == weekday
  {
    if es != [] {
      BucketDates(es[..|es| - 1], now, weekday);
    }
  }

  /** Each weekday bucket holds the events of a single calendar date. */
  lemma OneDatePerWeekday(es: seq<Entry>, now: Ts)
    ensures forall weekday, s1, s2 ::
      weekday in WeekMap(es, now) && s1 in WeekMap(es, now)[weekday] && s2 in WeekMap(es, now)[weekday] ==>
        s1.start.day == s2.start.day
  {
    WeekMapGroups(es, now);
    forall weekday, s1, s2 | weekday in WeekMap(es, now) && s1 in WeekMap(es, now)[weekday] && s2 in WeekMap(es, now)[weekday]
      ensures s1.start.day == s2.start.day
    {
      BucketDates(es, now, weekday);
      if s1.start.day < s2.start.day {
        WeekdayNamesDistinct(s1.start.day, s2.start.day);
      } else if s2.start.day < s1.start.day {
        WeekdayNamesDistinct(s2.start.day, s1.start.day);
      }
    }
  }

  /** What `refresh_events` stores always parses back, so the dashboard over it never raises. */
  lemma {:induction false} RefreshedListRenders(cozi: Fetch, outlook: Fetch, now: Ts)
    ensures DashboardSpec(Loaded(cozi, COZI_LABEL) + Loaded(outlook, OUTLOOK_LABEL), now).Rendered?
  {
    var c := Loaded(cozi, COZI_LABEL) + Loaded(outlook, OUTLOOK_LABEL);
    if cozi.Fetched? {
      NormalizeMembers(Processed(cozi.events, cozi.raisesAt), COZI_LABEL);
    }
    if outlook.Fetched? {
      NormalizeMembers(Processed(outlook.events, outlook.raisesAt), OUTLOOK_LABEL);
    }
    forall i | 0 <= i < |c|
      ensures c[i].start.Stamp? && !EndRaises(c[i])
    {
      assert c[i] in Loaded(cozi, COZI_LABEL) || c[i] in Loaded(outlook, OUTLOOK_LABEL);
    }
  }
}
