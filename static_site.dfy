/**
 * The static site generator (generate_site.py): `parse_events` keeps the
 * events of a feed whose start date lies between today and seven days on,
 * and `main` merges the Cozi and Outlook events, sorts them by start, and
 * writes a day heading at each change of day label followed by one line per
 * event.
 *
 * The environment variables are parameters, a feed is its VEVENTs or
 * `Raised` (the fetch, the HTTP status or the parse failed), each
 * `parse_events` call reads the clock once (`nowCozi`, `nowOutlook`), and
 * `strftime("%A %b %d")` is the parameter `dayLabel`, applied to the day
 * number of a start.
 */
module StaticSite {
  import opened Basics
  import opened Clock
  import opened Sorting
  import opened Ical
  import CoziAggregator

  /** The window of `parse_events`, in days. */
  const WEEK: int := 7

  /** The message of the `SystemExit` raised when a feed URL is missing. */
  const MISSING_URLS: string := "Missing ICS URLs"

  // ---------------------------------------------------------------------
  // parse_events

  /** A `(start, summary)` tuple of the event list. */
  datatype Pair = Pair(start: Ts, summary: string)

  /** `now.date() <= start.date() <= horizon.date()`: only the dates are compared. */
  predicate InWeek(start: Ts, now: Ts) {
    now.day <= start.day <= AddDays(now, WEEK).day
  }

  /** The tuple of a component that has a DTSTART; a date is anchored at midnight. */
  function ToPair(c: Component): Pair
    requires c.dtstart.Some?
  {
    Pair(Anchor(c.dtstart.value), SummaryText(c))
  }

  /** The tuples the loop of `parse_events` appends, in feed order. */
  function Window(cs: seq<Component>, now: Ts): seq<Pair> {
    if cs == [] then []
    else
      var c := cs[|cs| - 1];
      Window(cs[..|cs| - 1], now)
        + (if c.dtstart.Some? && InWeek(Anchor(c.dtstart.value), now) then [ToPair(c)] else [])
  }

  /** A component without DTSTART makes `comp.decoded("dtstart")` raise, and the call with it. */
  function ParseEventsSpec(cs: seq<Component>, now: Ts): Result<seq<Pair>> {
    if AllHaveStart(cs) then Ok(Window(cs, now)) else Raised
  }

  /** `parse_events` on the VEVENTs `cs` of a calendar, with the clock reading `now`. */
  method ParseEvents(cs: seq<Component>, now: Ts) returns (r: Result<seq<Pair>>)
    ensures r == ParseEventsSpec(cs, now)
  {
    var horizon := AddDays(now, WEEK);
    var events: seq<Pair> := [];
    for i := 0 to |cs|
      invariant events == Window(cs[..i], now)
      invariant !SomeLacksStart(cs[..i])
    {
      var comp := cs[i];
      assert cs[..i + 1][..i] == cs[..i];
      if comp.dtstart.None? {
        SomeLacksStartIff(cs);
        return Raised;
      }
      var start := Anchor(comp.dtstart.value);
      if now.day <= start.day <= horizon.day {
        events := events + [Pair(start, SummaryText(comp))];
      }
    }
    assert cs[..|cs|] == cs;
    SomeLacksStartIff(cs);
    r := Ok(events);
  }

  /** A tuple is kept exactly for each component whose start date lies in the week. */
  lemma {:induction false} WindowMembers(cs: seq<Component>, now: Ts)
    ensures forall p :: p in Window(cs, now) ==>
      exists i :: 0 <= i < |cs| && cs[i].dtstart.Some? && InWeek(Anchor(cs[i].dtstart.value), now)
        && p == ToPair(cs[i])
    ensures forall i :: 0 <= i < |cs| && cs[i].dtstart.Some? && InWeek(Anchor(cs[i].dtstart.value), now) ==>
      ToPair(cs[i]) in Window(cs, now)
  {
    if cs != [] {
      var init := cs[..|cs| - 1];
      WindowMembers(init, now);
      forall i | 0 <= i < |init|
        ensures init[i] == cs[i]
      {
      }
    }
  }

  /** The tuples of two pieces of a feed are those of the first piece, then those of the second. */
  lemma {:induction false} WindowAppend(a: seq<Component>, b: seq<Component>, now: Ts)
    ensures Window(a + b, now) == Window(a, now) + Window(b, now)
  {
    if b == [] {
      assert a + b == a;
    } else {
      var b' := b[..|b| - 1];
      assert (a + b)[..|a + b| - 1] == a + b';
      WindowAppend(a, b', now);
    }
  }

  /**
   * Only dates are compared: an event that started earlier today, or a
   * date-only event dated today once midnight has passed, is still listed
   * here, whereas the window of `parse_ical` in app_working.py, which
   * compares full timestamps, drops it.
   */
  lemma EarlierTodayKept(c: Component, now: Ts, dayLabel: int -> string)
    requires c.dtstart.Some?
    requires Anchor(c.dtstart.value).day == now.day && Anchor(c.dtstart.value).minute < now.minute
    ensures Window([c], now) == [ToPair(c)]
    ensures CoziAggregator.Kept([c], now, dayLabel) == []
  {
    assert [c][..0] == [];
  }

  /** An event whose DTSTART is a date is listed at midnight, so its line reads "12:00 AM". */
  lemma DateOnlyAtMidnight(c: Component)
    requires c.dtstart.Some? && c.dtstart.value.Date?
    ensures ToPair(c).start == Ts(c.dtstart.value.date, 0)
    ensures Html(LineOf(ToPair(c))) == "<div class='event'>- 12:00 AM " + SummaryText(c) + "</div>"
  {
    TimeLabelMidnight();
  }

  // ---------------------------------------------------------------------
  // main: collecting and sorting

  /** What one feed adds to `events`: nothing when fetching, parsing or `parse_events` raised. */
  function Loaded(feed: Result<seq<Component>>, now: Ts): seq<Pair> {
    if feed.Ok? && AllHaveStart(feed.value) then Window(feed.value, now) else []
  }

  /** What a list of feeds adds to `events`, feed after feed. */
  function LoadedAll(feeds: seq<(Result<seq<Component>>, Ts)>): seq<Pair> {
    if feeds == [] then []
    else LoadedAll(feeds[..|feeds| - 1]) + Loaded(feeds[|feeds| - 1].0, feeds[|feeds| - 1].1)
  }

  /** `key=lambda x: x[0]`: ordered by start. */
  predicate StartLe(a: Pair, b: Pair) {
    NotAfter(a.start, b.start)
  }

  /** `events.sort(key=lambda x: x[0])` */
  function SortPairs(es: seq<Pair>): seq<Pair> {
    SortBy(es, StartLe)
  }

  lemma StartLeIsTotalPreorder()
    ensures TotalPreorder(StartLe)
  {
    forall a: Pair, b: Pair, c: Pair
      ensures StartLe(a, b) || StartLe(b, a)
      ensures StartLe(a, b) && StartLe(b, c) ==> StartLe(a, c)
    {
      NotAfterIsTotalPreorder(a.start, b.start, c.start);
    }
  }

  /**
   * The sorted list is the merged list rearranged into chronological order;
   * events that start at the same moment keep their merged order, so a Cozi
   * event comes before an Outlook event with the same start.
   */
  lemma SortedMerge(cozi: seq<Pair>, outlook: seq<Pair>)
    ensures var es := SortPairs(cozi + outlook);
      && SortedBy(es, StartLe)
      && multiset(es) == multiset(cozi + outlook)
      && forall k :: Ties(es, k, StartLe) == Ties(cozi, k, StartLe) + Ties(outlook, k, StartLe)
  {
    StartLeIsTotalPreorder();
    SortBySorted(cozi + outlook, StartLe);
    forall k
      ensures Ties(SortPairs(cozi + outlook), k, StartLe) == Ties(cozi, k, StartLe) + Ties(outlook, k, StartLe)
    {
      SortByStable(cozi + outlook, k, StartLe);
      TiesAppend(cozi, outlook, k, StartLe);
    }
  }


  // ---------------------------------------------------------------------
  // main: headings and lines

  /** An element of `content_parts`: a day heading, or the line of an event starting at `minute` of its day. */
  datatype Part = DayHeading(text: string) | EventLine(minute: Minute, summary: string)

  /** The HTML text the f-strings write for a part. */
  function Html(p: Part): (s: string)
    ensures p.DayHeading? ==> HasPrefix(s, "<div class='event-day'>")
    ensures p.EventLine? ==> HasPrefix(s, "<div class='event'>- ")
  {
    match p
    case DayHeading(text) => "<div class='event-day'>" + text + "</div>"
    case EventLine(minute, summary) => "<div class='event'>- " + TimeLabel(minute) + " " + summary + "</div>"
  }

  /** `content_parts` as text. */
  function Render(parts: seq<Part>): seq<string> {
    if parts == [] then [] else Render(parts[..|parts| - 1]) + [Html(parts[|parts| - 1])]
  }

  /** One string per part, in order: the text of the k-th part is the k-th string. */
  lemma {:induction false} RenderEach(parts: seq<Part>)
    ensures |Render(parts)| == |parts|
    ensures forall k :: 0 <= k < |parts| ==> Render(parts)[k] == Html(parts[k])
  {
    if parts != [] {
      var n := |parts| - 1;
      RenderEach(parts[..n]);
      SnocIndex(Render(parts), Render(parts[..n]), Html(parts[n]));
      SnocIndex(parts, parts[..n], parts[n]);
    }
  }

  /** The elements of a list built by appending one element to another list. */
  lemma SnocIndex<T>(r: seq<T>, init: seq<T>, x: T)
    requires r == init + [x]
    ensures |r| == |init| + 1 && r[|init|] == x
    ensures forall k :: 0 <= k < |init| ==> r[k] == init[k]
  {
  }

  /** The line of an event, written with `start.strftime("%I:%M %p").lstrip("0")` and the summary. */
  function LineOf(e: Pair): (p: Part)
    ensures p.EventLine?
  {
    EventLine(e.start.minute, e.summary)
  }

  /** The day label of each event, in order. */
  function Labels(es: seq<Pair>, dayLabel: int -> string): (ls: seq<string>)
    ensures |ls| == |es|
  {
    if es == [] then [] else Labels(es[..|es| - 1], dayLabel) + [dayLabel(es[|es| - 1].start.day)]
  }

  /** The line of each event, in order. */
  function LinesOf(es: seq<Pair>): (lines: seq<Part>)
    ensures |lines| == |es|
  {
    if es == [] then [] else LinesOf(es[..|es| - 1]) + [LineOf(es[|es| - 1])]
  }

  lemma {:induction false} LabelsIndex(es: seq<Pair>, dayLabel: int -> string, i: nat)
    requires i < |es|
    ensures Labels(es, dayLabel)[i] == dayLabel(es[i].start.day)
  {
    var n := |es| - 1;
    if i < n {
      LabelsIndex(es[..n], dayLabel, i);
    }
  }

  lemma {:induction false} LinesOfIndex(es: seq<Pair>, i: nat)
    requires i < |es|
    ensures LinesOf(es)[i] == LineOf(es[i])
  {
    var n := |es| - 1;
    if i < n {
      LinesOfIndex(es[..n], i);
    }
  }

  /**
   * The parts written for events with day labels `ls` and lines `lines`:
   * before each line, a heading whenever its label differs from the previous
   * event's (`current_day`, which is None before the first event).
   */
  function Layout(ls: seq<string>, lines: seq<Part>): seq<Part>
    requires |ls| == |lines|
  {
    if ls == [] then []
    else
      var n := |ls| - 1;
      Layout(ls[..n], lines[..n]) + HeadingFor(ls) + [lines[n]]
  }

  /** The heading written before the last event's line: one when its label differs from the previous event's. */
  function HeadingFor(ls: seq<string>): (head: seq<Part>)
    requires ls != []
    ensures head == [] || (|head| == 1 && head[0].DayHeading?)
  {
    var n := |ls| - 1;
    if n == 0 || ls[n - 1] != ls[n] then [DayHeading(ls[n])] else []
  }

  /** The parts the loop of `main` writes for the sorted events `es`. */
  function Grouped(es: seq<Pair>, dayLabel: int -> string): seq<Part> {
    Layout(Labels(es, dayLabel), LinesOf(es))
  }

  /** The outcome of `main` up to the HTML template: the exit, or `content_parts`. */
  datatype Outcome = Exit(message: string) | Content(parts: seq<string>)

  function GenerateSiteSpec(coziUrl: Option<string>, outlookUrl: Option<string>,
                            coziFeed: Result<seq<Component>>, outlookFeed: Result<seq<Component>>,
                            nowCozi: Ts, nowOutlook: Ts, dayLabel: int -> string): Outcome {
    if !(Truthy(coziUrl) && Truthy(outlookUrl)) then Exit(MISSING_URLS)
    else
      var events := SortPairs(Loaded(coziFeed, nowCozi) + Loaded(outlookFeed, nowOutlook));
      Content(Render(Grouped(events, dayLabel)))
  }

  /**
   * `main` up to `TEMPLATE.format`: both URLs must be set; the events of both
   * feeds are collected, sorted by start and written out as parts.
   */
  method GenerateSite(coziUrl: Option<string>, outlookUrl: Option<string>,
                      coziFeed: Result<seq<Component>>, outlookFeed: Result<seq<Component>>,
                      nowCozi: Ts, nowOutlook: Ts, dayLabel: int -> string) returns (out: Outcome)
    ensures out == GenerateSiteSpec(coziUrl, outlookUrl, coziFeed, outlookFeed, nowCozi, nowOutlook, dayLabel)
  {
    if !(Truthy(coziUrl) && Truthy(outlookUrl)) {
      return Exit(MISSING_URLS);
    }
    var events := CollectEvents(coziFeed, outlookFeed, nowCozi, nowOutlook);
    events := SortPairs(events);
    var contentParts := WriteParts(events, dayLabel);
    out := Content(contentParts);
  }

  /** The loop over the two feeds: a feed whose fetch, parse or `parse_events` raises adds nothing. */
  method CollectEvents(coziFeed: Result<seq<Component>>, outlookFeed: Result<seq<Component>>,
                       nowCozi: Ts, nowOutlook: Ts) returns (events: seq<Pair>)
    ensures events == Loaded(coziFeed, nowCozi) + Loaded(outlookFeed, nowOutlook)
  {
    var feeds := [(coziFeed, nowCozi), (outlookFeed, nowOutlook)];
    events := [];
    for f := 0 to |feeds|
      invariant events == LoadedAll(feeds[..f])
    {
      assert feeds[..f + 1] == feeds[..f] + [feeds[f]];
      var feed := feeds[f].0;
      if feed.Ok? {
        var parsed := ParseEvents(feed.value, feeds[f].1);
        if parsed.Ok? {
          events := events + parsed.value;
        }
      }
    }
    assert feeds[..2] == feeds;
    assert feeds[..1][..0] == [];
  }

  /** The loop that turns the sorted events into `content_parts`. */
  method WriteParts(events: seq<Pair>, dayLabel: int -> string) returns (contentParts: seq<string>)
    ensures contentParts == Render(Grouped(events, dayLabel))
  {
    contentParts := [];
    var currentDay: Option<string> := None;
    ghost var parts: seq<Part> := [];
    for i := 0 to |events|
      invariant parts == Grouped(events[..i], dayLabel)
      invariant contentParts == Render(parts)
      invariant currentDay == if i == 0 then None else Some(dayLabel(events[i - 1].start.day))
    {
      var start, summary := events[i].start, events[i].summary;
      var dayLabelText := dayLabel(start.day);
      GroupedStep(events, i, dayLabel);
      if currentDay != Some(dayLabelText) {
        RenderSnoc(parts, DayHeading(dayLabelText));
        contentParts := contentParts + [Html(DayHeading(dayLabelText))];
        parts := parts + [DayHeading(dayLabelText)];
        currentDay := Some(dayLabelText);
      }
      RenderSnoc(parts, EventLine(start.minute, summary));
      contentParts := contentParts + [Html(EventLine(start.minute, summary))];
      parts := parts + [EventLine(start.minute, summary)];
    }
    assert events[..|events|] == events;
  }

  lemma RenderSnoc(parts: seq<Part>, p: Part)
    ensures Render(parts + [p]) == Render(parts) + [Html(p)]
  {
    assert (parts + [p])[..|parts|] == parts;
  }

  /** One step of the loop that writes `content_parts`. */
  lemma GroupedStep(es: seq<Pair>, i: nat, dayLabel: int -> string)
    requires i < |es|
    ensures var text := dayLabel(es[i].start.day);
      Grouped(es[..i + 1], dayLabel) == Grouped(es[..i], dayLabel)
        + (if i == 0 || dayLabel(es[i - 1].start.day) != text then [DayHeading(text)] else [])
        + [LineOf(es[i])]
  {
    var p := es[..i + 1];
    assert p[..i] == es[..i];
    var ls, lines := Labels(p, dayLabel), LinesOf(p);
    assert ls[..i] == Labels(es[..i], dayLabel);
    assert lines[..i] == LinesOf(es[..i]);
    if i > 0 {
      LabelsIndex(es[..i], dayLabel, i - 1);
    }
  }

  // ---------------------------------------------------------------------
  // Properties of the headings and lines

  /** Every element is an event line. */
  predicate AllLines(lines: seq<Part>) {
    forall i :: 0 <= i < |lines| ==> lines[i].EventLine?
  }

  /** The event lines among the parts, in order. */
  function Lines(parts: seq<Part>): seq<Part> {
    if parts == [] then []
    else Lines(parts[..|parts| - 1]) + (if parts[|parts| - 1].EventLine? then [parts[|parts| - 1]] else [])
  }

  /** The texts of the day headings among the parts, in order. */
  function Headings(parts: seq<Part>): seq<string> {
    if parts == [] then []
    else
      var p := parts[|parts| - 1];
      Headings(parts[..|parts| - 1]) + (if p.DayHeading? then [p.text] else [])
  }

  /** The text of the last heading among the parts. */
  function LastHeading(parts: seq<Part>): Option<string> {
    if parts == [] then None
    else
      var p := parts[|parts| - 1];
      if p.DayHeading? then Some(p.text) else LastHeading(parts[..|parts| - 1])
  }

  /** Each event line with the text of the heading it stands under, as a reader of the page sees them. */
  function Sections(parts: seq<Part>): seq<(Option<string>, Part)> {
    if parts == [] then []
    else
      var init := parts[..|parts| - 1];
      var p := parts[|parts| - 1];
      Sections(init) + (if p.EventLine? then [(LastHeading(init), p)] else [])
  }

  /** Each line paired with its label. */
  function Labelled(ls: seq<string>, lines: seq<Part>): seq<(Option<string>, Part)>
    requires |ls| == |lines|
  {
    if ls == [] then []
    else
      var n := |ls| - 1;
      Labelled(ls[..n], lines[..n]) + [(Some(ls[n]), lines[n])]
  }

  /** A list with every run of equal neighbours cut down to one element. */
  function CollapseRuns(ls: seq<string>): seq<string> {
    if ls == [] then []
    else
      var n := |ls| - 1;
      CollapseRuns(ls[..n]) + (if n == 0 || ls[n - 1] != ls[n] then [ls[n]] else [])
  }

  lemma {:induction false} PartsAppend(a: seq<Part>, b: seq<Part>)
    ensures Lines(a + b) == Lines(a) + Lines(b)
    ensures Headings(a + b) == Headings(a) + Headings(b)
  {
    if b == [] {
      assert a + b == a;
    } else {
      var b' := b[..|b| - 1];
      assert (a + b)[..|a + b| - 1] == a + b';
      PartsAppend(a, b');
    }
  }

  /** The lines and headings of the parts for one more event, whatever came before. */
  lemma {:induction false} PartsStep(before: seq<Part>, head: seq<Part>, line: Part)
    requires head == [] || (|head| == 1 && head[0].DayHeading?)
    ensures Lines(before + head + [line]) == Lines(before) + Lines([line])
    ensures Headings(before + head + [line]) == Headings(before) + Headings(head) + Headings([line])
  {
    PartsAppend(before + head, [line]);
    PartsAppend(before, head);
    if head != [] {
      assert head[..0] == [];
      assert Lines(head) == [];
    } else {
      assert before + head == before;
    }
  }

  /** The sections and the current heading after a line, maybe preceded by a heading. */
  lemma SectionsStep(before: seq<Part>, head: seq<Part>, line: Part)
    requires head == [] || (|head| == 1 && head[0].DayHeading?)
    requires line.EventLine?
    ensures var current := if head == [] then LastHeading(before) else Some(head[0].text);
      && LastHeading(before + head + [line]) == current
      && Sections(before + head + [line]) == Sections(before) + [(current, line)]
  {
    var all := before + head + [line];
    assert all[..|all| - 1] == before + head;
    if head == [] {
      assert before + head == before;
    } else {
      var bh := before + head;
      assert bh[..|bh| - 1] == before;
    }
  }

  /** A non-empty list is its front followed by its last element. */
  lemma SplitLast<T>(s: seq<T>)
    requires s != []
    ensures s == s[..|s| - 1] + [s[|s| - 1]]
  {
  }

  lemma AllLinesPrefix(lines: seq<Part>, n: nat)
    requires AllLines(lines) && n <= |lines|
    ensures AllLines(lines[..n])
  {
    forall i | 0 <= i < n
      ensures lines[..n][i] == lines[i]
    {
    }
  }

  /** The lines are the events' lines, one for one and in order. */
  lemma {:induction false} LayoutLines(ls: seq<string>, lines: seq<Part>)
    requires |ls| == |lines| && AllLines(lines)
    ensures Lines(Layout(ls, lines)) == lines
  {
    if ls != [] {
      var n := |ls| - 1;
      AllLinesPrefix(lines, n);
      LayoutLines(ls[..n], lines[..n]);
      var head := HeadingFor(ls);
      var before := Layout(ls[..n], lines[..n]);
      assert Layout(ls, lines) == before + head + [lines[n]];
      PartsStep(before, head, lines[n]);
      assert lines[n].EventLine?;
      assert Lines([lines[n]]) == [lines[n]] by {
        assert [lines[n]][..0] == [];
      }
      SplitLast(lines);
    }
  }

  /** The headings are the labels with each run of equal labels written once. */
  lemma {:induction false} LayoutHeadings(ls: seq<string>, lines: seq<Part>)
    requires |ls| == |lines| && AllLines(lines)
    ensures Headings(Layout(ls, lines)) == CollapseRuns(ls)
  {
    if ls != [] {
      var n := |ls| - 1;
      AllLinesPrefix(lines, n);
      LayoutHeadings(ls[..n], lines[..n]);
      var head := HeadingFor(ls);
      var before := Layout(ls[..n], lines[..n]);
      assert Layout(ls, lines) == before + head + [lines[n]];
      PartsStep(before, head, lines[n]);
      assert [lines[n]][..0] == [];
      if head != [] {
        assert head[..0] == [];
      }
    }
  }

  /** Every part is a line or a heading. */
  lemma {:induction false} PartsCount(parts: seq<Part>)
    ensures |parts| == |Lines(parts)| + |Headings(parts)|
  {
    if parts != [] {
      PartsCount(parts[..|parts| - 1]);
    }
  }

  /** Each heading is the label of some event. */
  lemma {:induction false} HeadingsAreLabels(ls: seq<string>, lines: seq<Part>)
    requires |ls| == |lines| && AllLines(lines)
    ensures forall h :: h in Headings(Layout(ls, lines)) ==> h in ls
  {
    LayoutHeadings(ls, lines);
    CollapseRunsMembers(ls);
  }

  /** Collapsing runs keeps only elements of the list. */
  lemma {:induction false} CollapseRunsMembers(ls: seq<string>)
    ensures forall h :: h in CollapseRuns(ls) ==> h in ls
  {
    if ls != [] {
      var n := |ls| - 1;
      CollapseRunsMembers(ls[..n]);
      assert ls == ls[..n] + [ls[n]];
    }
  }

  /** After the parts of a non-empty list, the current heading is the label of its last event. */
  lemma {:induction false} LayoutLastHeading(ls: seq<string>, lines: seq<Part>)
    requires |ls| == |lines| && AllLines(lines) && ls != []
    ensures LastHeading(Layout(ls, lines)) == Some(ls[|ls| - 1])
  {
    var n := |ls| - 1;
    var head := HeadingFor(ls);
    var before := Layout(ls[..n], lines[..n]);
    assert Layout(ls, lines) == before + head + [lines[n]];
    SectionsStep(before, head, lines[n]);
    if head == [] {
      AllLinesPrefix(lines, n);
      LayoutLastHeading(ls[..n], lines[..n]);
    }
  }

  /**
   * Every event's line stands under the heading of its own day label: read
   * from the top, the page pairs each line with the label of its event.
   */
  lemma {:induction false} LayoutSections(ls: seq<string>, lines: seq<Part>)
    requires |ls| == |lines| && AllLines(lines)
    ensures Sections(Layout(ls, lines)) == Labelled(ls, lines)
  {
    if ls != [] {
      var n := |ls| - 1;
      AllLinesPrefix(lines, n);
      LayoutSections(ls[..n], lines[..n]);
      var head := HeadingFor(ls);
      var before := Layout(ls[..n], lines[..n]);
      assert Layout(ls, lines) == before + head + [lines[n]];
      SectionsStep(before, head, lines[n]);
      if head == [] {
        LayoutLastHeading(ls[..n], lines[..n]);
      }
    }
  }

  /** Equal labels stand next to each other. */
  ghost predicate Contiguous(ls: seq<string>) {
    forall i, j, k :: 0 <= i < j < k < |ls| && ls[i] == ls[k] ==> ls[j] == ls[i]
  }

  /** No element occurs twice. */
  ghost predicate Distinct(s: seq<string>) {
    forall i, j :: 0 <= i < j < |s| ==> s[i] != s[j]
  }

  /** When equal labels stand together, collapsing their runs leaves no label twice. */
  lemma {:induction false} CollapseRunsDistinct(ls: seq<string>)
    requires Contiguous(ls)
    ensures Distinct(CollapseRuns(ls))
  {
    if ls != [] {
      var n := |ls| - 1;
      var init := ls[..n];
      assert Contiguous(init);
      CollapseRunsDistinct(init);
      CollapseRunsMembers(init);
      var old_hs, hs := CollapseRuns(init), CollapseRuns(ls);
      if n > 0 && ls[n - 1] != ls[n] {
        forall i | 0 <= i < |old_hs|
          ensures old_hs[i] != ls[n]
        {
          assert old_hs[i] in old_hs;
          var k :| 0 <= k < n && init[k] == old_hs[i];
          assert init[k] == ls[k];
          var here, prev, last := ls[k], ls[n - 1], ls[n];
          assert k < n - 1 && here == last ==> prev == here;
        }
        assert hs == old_hs + [ls[n]];
        forall i, j | 0 <= i < j < |hs|
          ensures hs[i] != hs[j]
        {
          assert hs[i] == old_hs[i];
          if j < |old_hs| {
            assert hs[j] == old_hs[j];
            assert old_hs[i] != old_hs[j];
          } else {
            assert hs[j] == ls[n];
          }
        }
      } else if n > 0 {
        assert hs == old_hs;
        assert Distinct(old_hs);
      }
    }
  }

  /** The day labels tell apart the different days of the listed events. */
  ghost predicate LabelsIdentifyDays(es: seq<Pair>, dayLabel: int -> string) {
    forall i, j :: 0 <= i < |es| && 0 <= j < |es| && dayLabel(es[i].start.day) == dayLabel(es[j].start.day) ==>
      es[i].start.day == es[j].start.day
  }

  /** On the sorted events, equal day labels stand together when the labels tell the days apart. */
  lemma SortedLabelsContiguous(es: seq<Pair>, dayLabel: int -> string)
    requires SortedBy(es, StartLe)
    requires LabelsIdentifyDays(es, dayLabel)
    ensures Contiguous(Labels(es, dayLabel))
  {
    var ls := Labels(es, dayLabel);
    forall i, j, k | 0 <= i < j < k < |ls| && ls[i] == ls[k]
      ensures ls[j] == ls[i]
    {
      LabelsIndex(es, dayLabel, i);
      LabelsIndex(es, dayLabel, j);
      LabelsIndex(es, dayLabel, k);
      assert StartLe(es[i], es[j]) && StartLe(es[j], es[k]);
    }
  }

  /**
   * The page for the sorted events: each event's line, in order, under the
   * heading of its own day label; the headings are the labels with each run
   * written once; and when the labels tell the days apart no day has two
   * headings.
   */
  lemma GroupedPage(es: seq<Pair>, dayLabel: int -> string)
    ensures Sections(Grouped(es, dayLabel)) == Labelled(Labels(es, dayLabel), LinesOf(es))
    ensures Lines(Grouped(es, dayLabel)) == LinesOf(es)
    ensures Headings(Grouped(es, dayLabel)) == CollapseRuns(Labels(es, dayLabel))
    ensures |Grouped(es, dayLabel)| == |es| + |CollapseRuns(Labels(es, dayLabel))|
    ensures SortedBy(es, StartLe) && LabelsIdentifyDays(es, dayLabel) ==> Distinct(Headings(Grouped(es, dayLabel)))
  {
    var ls, lines := Labels(es, dayLabel), LinesOf(es);
    forall i | 0 <= i < |lines|
      ensures lines[i].EventLine?
    {
      LinesOfIndex(es, i);
    }
    LayoutLines(ls, lines);
    LayoutHeadings(ls, lines);
    PartsCount(Layout(ls, lines));
    LayoutSections(ls, lines);
    if SortedBy(es, StartLe) && LabelsIdentifyDays(es, dayLabel) {
      SortedLabelsContiguous(es, dayLabel);
      CollapseRunsDistinct(ls);
    }
  }
}
