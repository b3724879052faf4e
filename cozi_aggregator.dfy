/**
 * The older aggregator (app_working.py): `parse_ical` keeps the events of the
 * next fourteen days as display rows sorted by their labels, `events_json`
 * turns every VEVENT of the feed into a JSON record, `fetch_lists` picks the
 * shopping and to-do lists, and `refresh` publishes events, lists and the
 * refresh time into the module-level dict `data` in one update.
 *
 * The clock (`datetime.now`), the HTTP fetch and `Calendar.from_ical`, and the
 * Cozi client (`login`, `get_lists`) are parameters. `strftime("%a %b %d")`
 * is the parameter `dayLabel`, applied to the day number of a timestamp.
 */
module CoziAggregator {
  import opened Basics
  import opened Clock
  import opened Lex
  import opened Sorting
  import opened Ical

  /** `HORIZON`: the window of `parse_ical`, in days. */
  const HORIZON: int := 14

  // ---------------------------------------------------------------------
  // parse_ical

  /** A dict of the list `parse_ical` returns. */
  datatype Row = Row(day: string, time: string, title: string)

  /** `now <= start <= now + timedelta(days=HORIZON)`, compared as full timestamps. */
  predicate InWindow(start: Ts, now: Ts) {
    NotAfter(now, start) && NotAfter(start, AddDays(now, HORIZON))
  }

  /** The row of a component that has a DTSTART. */
  function MakeRow(c: Component, dayLabel: int -> string): Row
    requires c.dtstart.Some?
  {
    var start := Anchor(c.dtstart.value);
    Row(dayLabel(start.day), if ValueIsDate(c) then "" else TimeLabel(start.minute), SummaryText(c))
  }

  /** The rows the loop of `parse_ical` appends, in feed order. */
  function Kept(cs: seq<Component>, now: Ts, dayLabel: int -> string): seq<Row> {
    if cs == [] then []
    else
      var c := cs[|cs| - 1];
      Kept(cs[..|cs| - 1], now, dayLabel)
        + (if c.dtstart.Some? && InWindow(Anchor(c.dtstart.value), now) then [MakeRow(c, dayLabel)] else [])
  }

  /** `key=lambda e: (e["day"], e["time"])`, compared as tuples of strings. */
  predicate RowLe(a: Row, b: Row) {
    PairLe(a.day, a.time, b.day, b.time)
  }

  /** `sorted(upcoming, key=...)` */
  function SortRows(rows: seq<Row>): seq<Row> {
    SortBy(rows, RowLe)
  }

  /** A component without DTSTART makes `comp.decoded("dtstart")` raise, and the whole call with it. */
  function ParseIcalSpec(cs: seq<Component>, now: Ts, dayLabel: int -> string): Result<seq<Row>> {
    if AllHaveStart(cs) then Ok(SortRows(Kept(cs, now, dayLabel))) else Raised
  }

  /** `parse_ical` after `Calendar.from_ical`: `cs` are the VEVENTs, `now` the clock reading. */
  method ParseIcal(cs: seq<Component>, now: Ts, dayLabel: int -> string) returns (r: Result<seq<Row>>)
    ensures r == ParseIcalSpec(cs, now, dayLabel)
  {
    var horizon := AddDays(now, HORIZON);
    var upcoming: seq<Row> := [];
    for i := 0 to |cs|
      invariant upcoming == Kept(cs[..i], now, dayLabel)
      invariant !SomeLacksStart(cs[..i])
    {
      var comp := cs[i];
      assert cs[..i + 1][..i] == cs[..i];
      if comp.dtstart.None? {
        SomeLacksStartIff(cs);
        assert !AllHaveStart(cs);
        return Raised;
      }
      KeptStep(cs, i, now, dayLabel);
      var start := Anchor(comp.dtstart.value);
      if NotAfter(now, start) && NotAfter(start, horizon) {
        var allDay := ValueIsDate(comp);
        upcoming := upcoming + [Row(dayLabel(start.day), if allDay then "" else TimeLabel(start.minute), SummaryText(comp))];
      }
    }
    assert cs[..|cs|] == cs;
    SomeLacksStartIff(cs);
    r := Ok(SortRows(upcoming));
  }

  lemma KeptStep(cs: seq<Component>, i: nat, now: Ts, dayLabel: int -> string)
    requires i < |cs| && cs[i].dtstart.Some?
    ensures Kept(cs[..i + 1], now, dayLabel) == Kept(cs[..i], now, dayLabel)
      + (if InWindow(Anchor(cs[i].dtstart.value), now) then [MakeRow(cs[i], dayLabel)] else [])
  {
    assert cs[..i + 1][..i] == cs[..i];
  }

  lemma RowLeIsTotalPreorder()
    ensures TotalPreorder(RowLe)
  {
    forall a: Row, b: Row
      ensures RowLe(a, b) || RowLe(b, a)
    {
      PairLeTotal(a.day, a.time, b.day, b.time);
    }
    forall a: Row, b: Row, c: Row
      ensures RowLe(a, b) && RowLe(b, c) ==> RowLe(a, c)
    {
      PairLeTransitive(a.day, a.time, b.day, b.time, c.day, c.time);
    }
  }

  /**
   * The result is the kept rows, rearranged so that the (day label, time
   * label) pairs ascend as strings; rows with equal pairs keep feed order.
   */
  lemma ParseIcalSortedPermutation(cs: seq<Component>, now: Ts, dayLabel: int -> string)
    requires AllHaveStart(cs)
    ensures var rows := ParseIcalSpec(cs, now, dayLabel).value;
      && SortedBy(rows, RowLe)
      && multiset(rows) == multiset(Kept(cs, now, dayLabel))
      && forall k :: Ties(rows, k, RowLe) == Ties(Kept(cs, now, dayLabel), k, RowLe)
  {
    RowLeIsTotalPreorder();
    SortBySorted(Kept(cs, now, dayLabel), RowLe);
    forall k {
      SortByStable(Kept(cs, now, dayLabel), k, RowLe);
    }
  }

  /** A row is kept exactly for each component whose anchored start lies in the window. */
  lemma {:induction false} KeptMembers(cs: seq<Component>, now: Ts, dayLabel: int -> string)
    ensures forall r :: r in Kept(cs, now, dayLabel) ==>
      exists i :: 0 <= i < |cs| && cs[i].dtstart.Some? && InWindow(Anchor(cs[i].dtstart.value), now)
        && r == MakeRow(cs[i], dayLabel)
    ensures forall i :: 0 <= i < |cs| && cs[i].dtstart.Some? && InWindow(Anchor(cs[i].dtstart.value), now) ==>
      MakeRow(cs[i], dayLabel) in Kept(cs, now, dayLabel)
  {
    if cs != [] {
      var init := cs[..|cs| - 1];
      KeptMembers(init, now, dayLabel);
      forall i | 0 <= i < |init|
        ensures init[i] == cs[i]
      {
      }
    }
  }

  /** The number of components whose anchored start lies in the window. */
  function CountInWindow(cs: seq<Component>, now: Ts): nat {
    if cs == [] then 0
    else
      var here := if cs[0].dtstart.Some? && InWindow(Anchor(cs[0].dtstart.value), now) then 1 else 0;
      here + CountInWindow(cs[1..], now)
  }

  lemma {:induction false} KeptAppend(a: seq<Component>, b: seq<Component>, now: Ts, dayLabel: int -> string)
    ensures Kept(a + b, now, dayLabel) == Kept(a, now, dayLabel) + Kept(b, now, dayLabel)
  {
    if b == [] {
      assert a + b == a;
    } else {
      var b' := b[..|b| - 1];
      assert (a + b)[..|a + b| - 1] == a + b';
      KeptAppend(a, b', now, dayLabel);
    }
  }

  /** One row per component in the window: no component is dropped twice or kept twice. */
  lemma {:induction false} KeptCount(cs: seq<Component>, now: Ts, dayLabel: int -> string)
    ensures |Kept(cs, now, dayLabel)| == CountInWindow(cs, now)
  {
    if cs != [] {
      assert cs == [cs[0]] + cs[1..];
      KeptAppend([cs[0]], cs[1..], now, dayLabel);
      assert [cs[0]][..0] == [];
      KeptCount(cs[1..], now, dayLabel);
    }
  }

  /**
   * A date-only event dated today is anchored at midnight, so it drops out of
   * the window as soon as `now` is past midnight; at midnight itself it stays.
   */
  lemma DateOnlyTodayNeedsMidnight(c: Component, now: Ts, dayLabel: int -> string)
    requires c.dtstart == Some(Date(now.day))
    ensures Kept([c], now, dayLabel) == (if now.minute == 0 then [MakeRow(c, dayLabel)] else [])
  {
    assert [c][..0] == [];
  }

  /**
   * The time label is empty exactly for a DTSTART with VALUE=DATE; otherwise it
   * is the 12-hour clock label, whose hour is 1..12 without a leading zero.
   */
  lemma TimeLabelRule(c: Component, dayLabel: int -> string)
    requires c.dtstart.Some?
    ensures var r := MakeRow(c, dayLabel);
      var m := Anchor(c.dtstart.value).minute;
      && (r.time == "" <==> ValueIsDate(c))
      && (!ValueIsDate(c) ==> r.time == Decimal(Hour12(m)) + ClockTail(m))
      && (!ValueIsDate(c) ==> r.time[0] != '0' && 1 <= Hour12(m) <= 12)
  {
    TimeLabelShape(Anchor(c.dtstart.value).minute);
  }

  /** On one day, an event at 10:00 AM is listed before an event at 9:00 AM. */
  lemma LexicographicNotChronological(day: string, t9: string, t10: string)
    ensures SortRows([Row(day, TimeLabel(9 * 60), t9), Row(day, TimeLabel(10 * 60), t10)])
         == [Row(day, TimeLabel(10 * 60), t10), Row(day, TimeLabel(9 * 60), t9)]
  {
    TimeLabelNine();
    TimeLabelTen();
    var r9, r10 := Row(day, TimeLabel(9 * 60), t9), Row(day, TimeLabel(10 * 60), t10);
    assert !LexLe("9:00 AM", "10:00 AM");
    assert !RowLe(r9, r10);
    SortSwapsPair(r9, r10);
  }

  lemma SortSwapsPair(a: Row, b: Row)
    requires !RowLe(a, b)
    ensures SortRows([a, b]) == [b, a]
  {
    assert [a, b][1..] == [b];
    assert SortBy([b], RowLe) == [b];
    assert Insert(a, [b], RowLe) == [b] + Insert(a, [], RowLe);
  }

  // ---------------------------------------------------------------------
  // events_json

  /** A record of the `/events.json` response of this version. */
  datatype JsonEvent = JsonEvent(title: string, start: Ts, end: Ts, allDay: bool)

  /** The record of one VEVENT: the end falls back to the start, and each is anchored on its own. */
  function ToJson(c: Component): (j: JsonEvent)
    requires c.dtstart.Some?
    ensures j.start == Anchor(c.dtstart.value)
    ensures c.dtend.None? ==> j.end == j.start
    ensures c.dtend.Some? ==> j.end == Anchor(c.dtend.value)
    ensures j.allDay <==> ValueIsDate(c)
    ensures j.title == SummaryText(c)
  {
    var start := c.dtstart.value;
    var end := if c.dtend.Some? then c.dtend.value else start;
    JsonEvent(SummaryText(c), Anchor(start), Anchor(end), ValueIsDate(c))
  }

  /**
   * `/events.json`: one record per VEVENT, in feed order. Any exception, from
   * the fetch, the parse or a single VEVENT without DTSTART, yields the empty
   * list for the whole feed.
   */
  method EventsJson(feed: Result<seq<Component>>) returns (r: seq<JsonEvent>)
    ensures feed.Ok? && AllHaveStart(feed.value) ==>
      |r| == |feed.value| && forall i :: 0 <= i < |r| ==> r[i] == ToJson(feed.value[i])
    ensures !(feed.Ok? && AllHaveStart(feed.value)) ==> r == []
  {
    if feed.Raised? {
      return [];
    }
    var cs := feed.value;
    var events: seq<JsonEvent> := [];
    for i := 0 to |cs|
      invariant |events| == i
      invariant forall k :: 0 <= k < i ==> cs[k].dtstart.Some? && events[k] == ToJson(cs[k])
    {
      var comp := cs[i];
      if comp.dtstart.None? {
        return [];
      }
      var start := comp.dtstart.value;
      var end := if comp.dtend.Some? then comp.dtend.value else start;
      events := events + [JsonEvent(SummaryText(comp), Anchor(start), Anchor(end), ValueIsDate(comp))];
    }
    r := events;
  }

  // ---------------------------------------------------------------------
  // fetch_lists

  /** A list as `get_lists` returns it; fields missing from the dict are None. */
  datatype RawList = RawList(title: Option<string>, listType: Option<string>, items: Option<seq<string>>)

  /** `lst.get("listType") in ("shopping", "todo")` */
  predicate Wanted(l: RawList) {
    l.listType == Some("shopping") || l.listType == Some("todo")
  }

  /** `lst.get("title", f"Untitled-{i}")` */
  function ListKey(l: RawList, i: nat): string {
    if l.title.Some? then l.title.value else "Untitled-" + Decimal(i)
  }

  /** `lst.get("items", [])` */
  function ListItems(l: RawList): seq<string> {
    if l.items.Some? then l.items.value else []
  }

  /** The dict comprehension over `enumerate(raw)`: a later key overwrites an earlier one. */
  function Comprehension(raw: seq<RawList>): map<string, seq<string>> {
    if raw == [] then map[]
    else
      var i := |raw| - 1;
      var m := Comprehension(raw[..i]);
      if Wanted(raw[i]) then m[ListKey(raw[i], i) := ListItems(raw[i])] else m
  }

  /**
   * `fetch_lists`: nothing without the Cozi client or without a COZI_EMAIL;
   * otherwise the comprehension over what `get_lists` returned (`raw`), or the
   * exception of `login` or `get_lists`.
   */
  function FetchLists(coziInstalled: bool, email: Option<string>, raw: Result<seq<RawList>>): (r: Result<map<string, seq<string>>>)
    ensures !coziInstalled || !Truthy(email) ==> r == Ok(map[])
    ensures coziInstalled && Truthy(email) && raw.Raised? ==> r == Raised
  {
    if !coziInstalled || !Truthy(email) then Ok(map[])
    else
      match raw
      case Raised => Raised
      case Ok(ls) => Ok(Comprehension(ls))
  }

  /** The position of a shopping or to-do list among the first `n` lists that yields key `k`. */
  ghost predicate KeyAt(raw: seq<RawList>, n: int, k: string, i: int) {
    0 <= i < n <= |raw| && Wanted(raw[i]) && ListKey(raw[i], i) == k
  }

  /** The key set of the comprehension: the keys of the shopping and to-do lists. */
  lemma {:induction false} ComprehensionKeys(raw: seq<RawList>)
    ensures forall k :: k in Comprehension(raw) ==> exists i :: KeyAt(raw, |raw|, k, i)
    ensures forall k, i :: KeyAt(raw, |raw|, k, i) ==> k in Comprehension(raw)
  {
    if raw != [] {
      var n := |raw| - 1;
      var init := raw[..n];
      ComprehensionKeys(init);
      forall k | k in Comprehension(raw)
        ensures exists i :: KeyAt(raw, |raw|, k, i)
      {
        if Wanted(raw[n]) && ListKey(raw[n], n) == k {
          assert KeyAt(raw, |raw|, k, n);
        } else {
          assert k in Comprehension(init);
          var i :| KeyAt(init, n, k, i);
          assert init[i] == raw[i];
          assert KeyAt(raw, |raw|, k, i);
        }
      }
      forall k, i | KeyAt(raw, |raw|, k, i)
        ensures k in Comprehension(raw)
      {
        if i < n {
          assert init[i] == raw[i];
          assert KeyAt(init, n, k, i);
        }
      }
    }
  }

  /** Each key holds the items of the last shopping or to-do list that has that key. */
  lemma {:induction false} ComprehensionLastWins(raw: seq<RawList>, k: string)
    requires k in Comprehension(raw)
    ensures exists i ::
              && KeyAt(raw, |raw|, k, i)
              && Comprehension(raw)[k] == ListItems(raw[i])
              && (forall j :: i < j < |raw| && Wanted(raw[j]) ==> ListKey(raw[j], j) != k)
  {
    assert raw != [];
    var n := |raw| - 1;
    var init := raw[..n];
    if Wanted(raw[n]) && ListKey(raw[n], n) == k {
      assert KeyAt(raw, |raw|, k, n);
    } else {
      assert k in Comprehension(init);
      ComprehensionLastWins(init, k);
      var i :| KeyAt(init, n, k, i) &&
        Comprehension(init)[k] == ListItems(init[i]) &&
        (forall j :: i < j < n && Wanted(init[j]) ==> ListKey(init[j], j) != k);
      assert init[i] == raw[i];
      forall j | i < j < |raw| && Wanted(raw[j])
        ensures ListKey(raw[j], j) != k
      {
        if j < n {
          assert init[j] == raw[j];
        }
      }
      assert KeyAt(raw, |raw|, k, i);
    }
  }

  // ---------------------------------------------------------------------
  // refresh

  /** The module-level dict `data`. */
  class CoziData {
    var events: seq<Row>
    var lists: map<string, seq<string>>
    var updated: Option<Ts>

    constructor ()
      ensures events == [] && lists == map[] && updated == None
    {
      events, lists, updated := [], map[], None;
    }

    /**
     * `refresh`: fetch and parse the feed, parse the events, fetch the lists
     * (only when the Cozi client is installed), then update all three keys
     * at once. Any exception on the way leaves `data` as it was.
     */
    method Refresh(feed: Result<seq<Component>>, now: Ts, dayLabel: int -> string,
                   coziInstalled: bool, email: Option<string>, raw: Result<seq<RawList>>, clock: Ts)
      modifies this
      ensures var parsed := if feed.Ok? then ParseIcalSpec(feed.value, now, dayLabel) else Raised;
        var fetched := if coziInstalled then FetchLists(coziInstalled, email, raw) else Ok(map[]);
        if parsed.Ok? && fetched.Ok? then
          events == parsed.value && lists == fetched.value && updated == Some(clock)
        else
          unchanged(this)
    {
      if feed.Raised? {
        return;
      }
      var parsed := ParseIcal(feed.value, now, dayLabel);
      if parsed.Raised? {
        return;
      }
      var fetched := if coziInstalled then FetchLists(coziInstalled, email, raw) else Ok(map[]);
      if fetched.Raised? {
        return;
      }
      events, lists, updated := parsed.value, fetched.value, Some(clock);
    }
  }
}
