# Cozyup calendar core, modelled in Dafny

Cozyup is a family dashboard that merges two calendar feeds: a Cozi feed and
an Outlook feed. The events are shown as "today" and "this week", or written
out as a static HTML page. This project models the calendar logic of its
three programs and proves properties of it:

- `app.py`, the live aggregator (module `LiveAggregator`).
  `refresh_events` rebuilds the global list `combined_events` from both feeds.
  Outlook titles get the prefix "NTC: " and an event without a name is
  "Untitled". The `/` route (`dashboard`) splits the list into today's events
  and a map from weekday name to the events of the next seven days.
- `app_working.py`, the older aggregator (module `CoziAggregator`).
  `parse_ical` keeps the events of the next fourteen days as display rows.
  The rows are sorted by their day and time labels, as strings.
  `events_json` turns every VEVENT into a JSON record. `fetch_lists` picks
  the shopping and to-do lists. `refresh` publishes all of it into the dict
  `data` in one update.
- `generate_site.py`, the static site generator (module `StaticSite`).
  `parse_events` keeps the events whose start date lies in the coming week.
  `main` merges both feeds, sorts the events by start, and writes a day
  heading at each change of day label, followed by one line per event.

Shared modules:

- `Basics`: `Option`, and `Result` for "returned a value or raised".
- `Clock`: a timestamp is a day number and a minute of the day. Day 0 is
  Thursday 1 January 1970. The module also holds the 12-hour clock label
  `strftime("%I:%M %p").lstrip("0")` and the weekday name `%A`.
- `Lex`: Python's ordering of strings and of pairs of strings.
- `Sorting`: Python's stable `sorted`, written as an insertion sort.
- `Ical`: the decoded VEVENT record the `icalendar` library hands out.

The parts with state are imperative. `LiveAggregator.LiveCalendar` holds
`combined_events`. `CoziAggregator.CoziData` holds `data`. The loops of
`refresh_events`, `dashboard`, `parse_ical`, `events_json`, `parse_events`
and `main` are methods. Each method is proved equal to a specification
function, and the lemmas prove what those functions promise.

Properties of the code that a reader might not expect:

- No copy of the code removes duplicate events. `LiveAggregator.NormalizeCount`
  proves one entry per event that has a begin.
- The dashboard buckets keep the order of `combined_events`; they are not
  sorted by start (`LiveAggregator.BucketsKeepListOrder`).
- `parse_ical` sorts by the text of its labels, so "10:00 AM" comes before
  "9:00 AM" on the same day (`CoziAggregator.LexicographicNotChronological`).
- A date-only event is placed at midnight. `parse_ical` compares full
  timestamps, so a date-only event dated today drops out once midnight has
  passed (`CoziAggregator.DateOnlyTodayNeedsMidnight`). `parse_events`
  compares dates only and keeps it (`StaticSite.EarlierTodayKept`).
- The end of an event is not checked against its start. `events_json` falls
  back to the start only when DTEND is missing.
- In `generate_site.py` an all-day event gets the time label "12:00 AM"
  (`StaticSite.DateOnlyAtMidnight`). It does not get an empty label.

## Model

| member | source | states |
|---|---|---|
| Clock.AddDays | generate_site.py:61 | `now + timedelta(days=n)` keeps the time of day and moves the date by exactly n days |
| Clock.Anchor | app_working.py:30-31 | a bare date becomes midnight of that date; a date-time is kept as it is |
| Clock.NotAfterIsTotalPreorder | generate_site.py:88 | comparing datetimes is total and transitive, and two starts that are each not after the other are equal |
| Clock.Hour12 | generate_site.py:94 | `%I` is an hour from 1 to 12 that agrees with the 24-hour hour modulo 12 |
| Clock.LStripZerosSpec | generate_site.py:94 | `lstrip("0")` removes exactly the leading zeros: the result is a suffix, it does not start with '0', and every removed character is '0' |
| Clock.TimeLabelShape | generate_site.py:94 | the time label is the hour 1..12 in decimal without a leading zero, then ":", the two-digit minute, a space and AM/PM; it is never empty |
| Clock.TimeLabelMidnight | app_working.py:36 | midnight is labelled "12:00 AM" |
| Clock.TimeLabelNine | app_working.py:36 | 9:00 is labelled "9:00 AM": the zero of "09" is stripped |
| Clock.TimeLabelTen | app_working.py:36 | 10:00 is labelled "10:00 AM": nothing is stripped |
| Clock.TimeLabel | generate_site.py:94 | `strftime("%I:%M %p").lstrip("0")`; its properties are stated by `Clock.TimeLabelShape` and the three example lemmas |
| Clock.WeekdayName | app.py:75 | `strftime("%A")`, with 1 January 1970 a Thursday; stated by `Clock.WeekdayNamesDistinct` |
| Clock.WeekdayNamesDistinct | app.py:75 | two different days less than a week apart have different `%A` names |
| Lex.LexLe | app_working.py:40 | Python's `<=` on strings, by code points; a total order by the three lemmas below |
| Lex.PairLe | app_working.py:40 | Python's `<=` on tuples of two strings; a total preorder by `Lex.PairLeTotal` and `Lex.PairLeTransitive` |
| Lex.LexLeTotal | app_working.py:40 | any two strings are comparable |
| Lex.LexLeAntisymmetric | app_working.py:40 | strings that are each `<=` the other are equal |
| Lex.LexLeTransitive | app_working.py:40 | string `<=` is transitive |
| Lex.PairLeTotal | app_working.py:40 | any two (day, time) key tuples are comparable |
| Lex.PairLeTransitive | app_working.py:40 | the key tuple order is transitive |
| Sorting.Insert | app_working.py:40 | inserting adds exactly one occurrence of the element |
| Sorting.SortBy | app_working.py:40 | sorting is a permutation of its input |
| Sorting.SortBySorted | app_working.py:40 | `sorted` returns its input ordered by the key |
| Sorting.SortByStable | generate_site.py:88 | the sort is stable: elements with equal keys keep their input order |
| Sorting.TiesAppend | generate_site.py:85 | the equal-key elements of a concatenation are those of the first part, then those of the second |
| Ical.SummaryText | app_working.py:37 | `str(comp.get("summary"))` is the summary, or "None" when it is missing |
| LiveAggregator.Title | app.py:27 | a non-empty name gets the feed prefix with the name after it; a missing or empty name gives "Untitled" |
| LiveAggregator.ToEntry | app.py:26-32 | the entry carries the title, the start, the end exactly when the event has one, the all-day flag, and the source "outlook" exactly when the prefix is non-empty |
| LiveAggregator.Processed | app.py:21-34 | a feed that raises at event i keeps exactly the events before i; one that does not raise keeps all of them |
| LiveAggregator.Normalize | app.py:24-32 | the entries the inner loop appends; stated by `LiveAggregator.NormalizeMembers`, `LiveAggregator.NormalizeCount` and `LiveAggregator.NormalizeAppend` |
| LiveAggregator.LiveCalendar.constructor | app.py:14 | `combined_events` starts empty |
| LiveAggregator.LiveCalendar.RefreshEvents | app.py:16-34 | the list is rebuilt as the Cozi entries followed by the Outlook entries; a feed that fails adds nothing, and one that raises part-way keeps what it appended |
| LiveAggregator.LiveCalendar.LoadFeed | app.py:21-34 | one feed appends one entry per event with a begin, in feed order, up to the event that raises |
| LiveAggregator.NormalizeAppend | app.py:24-32 | the entries of two pieces of a feed are those of the first piece, then those of the second |
| LiveAggregator.NormalizeCount | app.py:24-32 | the number of entries is the number of events with a begin: nothing is deduplicated |
| LiveAggregator.NormalizeMembers | app.py:24-32 | every entry comes from an event with a begin, and every such event gives an entry |
| LiveAggregator.CombinedOrderAndTitles | app.py:20-32 | every entry is "cozi" or "outlook"; all Cozi entries precede all Outlook entries; exactly the last entries, as many as the Outlook feed gave, are Outlook's; Outlook titles are "Untitled" or start with "NTC: " |
| LiveAggregator.FromIso | app.py:62-65 | `fromisoformat` succeeds exactly on the text `isoformat` wrote, and then returns the timestamp that was written |
| LiveAggregator.Show | app.py:68-73 | the shown event keeps the title and start; the end is parsed when present and None when missing or empty; `allDay` defaults to false |
| LiveAggregator.TodayList | app.py:67-73 | `today_events`; stated by `LiveAggregator.BucketDates`, `LiveAggregator.BucketMembers` and `LiveAggregator.BucketsKeepListOrder` |
| LiveAggregator.WeekMap | app.py:74-81 | `week_events_grouped`; stated by `LiveAggregator.WeekMapGroups` and `LiveAggregator.OneDatePerWeekday` |
| LiveAggregator.Dashboard | app.py:56-81 | the loop produces the today bucket and the weekday map of the specification, or raises when an end does not parse |
| LiveAggregator.BucketsKeepListOrder | app.py:61-81 | each bucket of a concatenated list is the bucket of the first part followed by that of the second, and an unparsable start only drops out: the buckets are in list order |
| LiveAggregator.WeekMapGroups | app.py:74-76 | `week_events` has a weekday key exactly when some upcoming event falls on that weekday, and the key lists exactly those events |
| LiveAggregator.BucketDates | app.py:67-76 | the today bucket holds events dated today; a weekday bucket holds events of the next seven days with that weekday name |
| LiveAggregator.BucketMembers | app.py:61-76 | every entry whose start parses and is dated today is in `today_events`; every one dated in the next seven days is in the list of its weekday name |
| LiveAggregator.UpcomingInWeekMap | app.py:74-76 | an entry whose start parses and is dated in the next seven days is listed in `week_events` under its `%A` name |
| LiveAggregator.OneDatePerWeekday | app.py:59-76 | each weekday bucket holds events of a single calendar date |
| LiveAggregator.RefreshedListRenders | app.py:26-32 | the dashboard over a list built by `refresh_events` never raises, because what `isoformat` wrote always parses back |
| CoziAggregator.InWindow | app_working.py:32 | `now <= start <= now + 14 days` on full timestamps; used by `CoziAggregator.KeptMembers` |
| CoziAggregator.MakeRow | app_working.py:33-38 | the row of a component; its time label is stated by `CoziAggregator.TimeLabelRule` |
| CoziAggregator.Kept | app_working.py:28-38 | the rows the loop appends; stated by `CoziAggregator.KeptMembers`, `CoziAggregator.KeptCount` and `CoziAggregator.KeptAppend` |
| CoziAggregator.ParseIcal | app_working.py:22-40 | the loop result is the specification: a component without DTSTART raises for the whole call; otherwise the kept rows, sorted |
| CoziAggregator.RowLeIsTotalPreorder | app_working.py:40 | the sort key `(day, time)` orders the rows totally and transitively |
| CoziAggregator.ParseIcalSortedPermutation | app_working.py:22-40 | the result is sorted by (day label, time label), is a permutation of the kept rows, and keeps rows with equal keys in feed order |
| CoziAggregator.KeptMembers | app_working.py:28-38 | a row is kept exactly for each component whose anchored start lies within fourteen days from now |
| CoziAggregator.KeptAppend | app_working.py:28-38 | the rows of two pieces of a feed are those of the first piece, then those of the second |
| CoziAggregator.KeptCount | app_working.py:28-38 | there is one row per component in the window |
| CoziAggregator.DateOnlyTodayNeedsMidnight | app_working.py:30-32 | a date-only event dated today is kept only when now is exactly midnight |
| CoziAggregator.TimeLabelRule | app_working.py:33-36 | the time label is empty exactly for VALUE=DATE; otherwise it is the 12-hour label with the hour 1..12 and no leading zero |
| CoziAggregator.LexicographicNotChronological | app_working.py:36-40 | on one day, the 10:00 AM row is sorted before the 9:00 AM row |
| CoziAggregator.ToJson | app_working.py:85-99 | the record holds the summary text and the anchored start; the end is the anchored DTEND, or the start when DTEND is missing; `allDay` holds exactly for VALUE=DATE |
| CoziAggregator.EventsJson | app_working.py:79-103 | one record per VEVENT, in order, when the feed loads and every VEVENT has a DTSTART; otherwise the empty list |
| CoziAggregator.Wanted | app_working.py:51 | the list type is "shopping" or "todo"; used by `CoziAggregator.ComprehensionKeys` |
| CoziAggregator.ListKey | app_working.py:49-50 | the title, or `Untitled-<index>` when it is missing; used by `CoziAggregator.ComprehensionKeys` |
| CoziAggregator.Comprehension | app_working.py:48-52 | the dict comprehension; stated by `CoziAggregator.ComprehensionKeys` and `CoziAggregator.ComprehensionLastWins` |
| CoziAggregator.FetchLists | app_working.py:42-52 | without the Cozi client or a non-empty COZI_EMAIL the lists are empty; a failing client call raises |
| CoziAggregator.ComprehensionKeys | app_working.py:48-52 | the keys are exactly the titles, or `Untitled-<index>`, of the shopping and to-do lists |
| CoziAggregator.ComprehensionLastWins | app_working.py:48-52 | each key maps to the items of the last shopping or to-do list with that key |
| CoziAggregator.CoziData.constructor | app_working.py:20 | `data` starts with no events, no lists and no update time |
| CoziAggregator.CoziData.Refresh | app_working.py:54-63 | when the feed, `parse_ical` and `fetch_lists` all succeed, the three keys are set together to their results and the clock reading; otherwise `data` is unchanged |
| StaticSite.InWeek | generate_site.py:69 | today's date <= the start date <= the date seven days on; used by `StaticSite.WindowMembers` |
| StaticSite.ToPair | generate_site.py:64-71 | the `(start, summary)` tuple, a date anchored at midnight; stated by `StaticSite.DateOnlyAtMidnight` |
| StaticSite.Window | generate_site.py:63-71 | the tuples the loop appends; stated by `StaticSite.WindowMembers` and `StaticSite.WindowAppend` |
| StaticSite.ParseEvents | generate_site.py:58-72 | the loop result is the specification: a component without DTSTART raises; otherwise the tuples of the components whose start date lies within seven days from now, in feed order |
| StaticSite.WindowMembers | generate_site.py:63-71 | a tuple is kept exactly for each component whose start date lies in the week |
| StaticSite.WindowAppend | generate_site.py:63-71 | the tuples of two pieces of a feed are those of the first piece, then those of the second |
| StaticSite.EarlierTodayKept | generate_site.py:64-69 | an event whose anchored start is earlier today, whether a timed event or a date-only event after midnight, is listed here, while `parse_ical` (app_working.py:32) drops it |
| StaticSite.DateOnlyAtMidnight | generate_site.py:65-68 | a date-only event starts at midnight of its date, and its line reads "- 12:00 AM" followed by the summary |
| StaticSite.StartLeIsTotalPreorder | generate_site.py:88 | ordering by start is total and transitive |
| StaticSite.SortedMerge | generate_site.py:81-88 | the sorted events are in start order and are a permutation of the merged events; events with the same start keep the Cozi ones first, then the Outlook ones, each in feed order |
| StaticSite.Html | generate_site.py:96-98 | a heading is written as an `event-day` div and an event line as an `event` div starting with "- " |
| StaticSite.RenderEach | generate_site.py:96-98 | `content_parts` holds one string per part, in order: the k-th string is the text of the k-th part |
| StaticSite.GenerateSite | generate_site.py:75-98 | without both URLs, exit with "Missing ICS URLs"; otherwise `content_parts` for the merged events sorted by start |
| StaticSite.CollectEvents | generate_site.py:81-87 | the Cozi events, then the Outlook events; a feed whose fetch or `parse_events` raises adds nothing |
| StaticSite.WriteParts | generate_site.py:89-98 | the loop writes exactly the rendered layout of the events: a heading at each change of day label, then the event's line |
| StaticSite.GroupedStep | generate_site.py:92-98 | one more event adds its line, preceded by a heading exactly when its label differs from the previous event's or it is the first event |
| StaticSite.Layout | generate_site.py:92-98 | the parts written for labels and lines; stated by `StaticSite.GroupedPage` and the layout lemmas below |
| StaticSite.HeadingFor | generate_site.py:95-97 | the heading before an event's line: one exactly when its label differs from the previous event's or it is the first |
| StaticSite.LayoutLines | generate_site.py:92-98 | the event lines of the page are the events' lines, one for one and in order |
| StaticSite.LayoutHeadings | generate_site.py:95-97 | the headings are the day labels with each run of equal labels written once |
| StaticSite.PartsCount | generate_site.py:92-98 | every part is a heading or an event line |
| StaticSite.HeadingsAreLabels | generate_site.py:95-97 | every heading is the day label of some event |
| StaticSite.CollapseRunsMembers | generate_site.py:95-97 | collapsing runs keeps only labels of the list |
| StaticSite.LayoutLastHeading | generate_site.py:95-97 | after the parts for some events, the current heading is the last event's day label |
| StaticSite.LayoutSections | generate_site.py:92-98 | read from the top, each event's line stands under the heading of its own day label |
| StaticSite.CollapseRunsDistinct | generate_site.py:95-97 | when equal labels stand together, no label is written twice as a heading |
| StaticSite.SortedLabelsContiguous | generate_site.py:88-93 | on events sorted by start, equal day labels stand together when the labels tell the days apart |
| StaticSite.GroupedPage | generate_site.py:89-98 | the page lists every event's line in order under its own day heading; there are as many parts as events plus headings; on sorted events whose labels tell the days apart, each day has one heading |

## Left out

- Fetching over HTTP (`requests.get`, `raise_for_status`) and parsing iCalendar text (`ics.Calendar`, `Calendar.from_ical`, `walk("vevent")`) are library code. A feed is given as its decoded events, or as `Raised` (`FetchFailed` in app.py).
- The order in which the `ics` library yields `cal.events` (a set) is not modelled: a feed is the sequence it yields.
- A feed in app.py that raises while its events are read is given by the index of the event that raises (`Fetched.raisesAt`). Which events make the library raise is not modelled.
- Time zones are left out: all times are local wall-clock times in one zone. The `tzlocal()` attachment in app_working.py is not modelled. Neither is the `TypeError` that `events.sort` in generate_site.py:88 raises when naive and aware datetimes are mixed. Nor is the `TypeError` of app_working.py:32: `now` is aware, so a floating DATE-TIME DTSTART (no TZID and no "Z") decodes to a naive datetime and `now <= start` raises. `parse_ical` then raises and `refresh` keeps the old `data`, whereas `CoziAggregator.ParseIcal` returns rows and `CoziAggregator.CoziData.Refresh` updates all three keys.
- Seconds and microseconds are not modelled; a timestamp is a day and a minute.
- The ISO text that `refresh_events` stores is a `Stamp`: either the timestamp `isoformat` wrote, or text that `fromisoformat` rejects. The characters of ISO 8601 are not modelled.
- `strftime("%a %b %d")` (app_working.py:35) and `strftime("%A %b %d")` (generate_site.py:93) are the parameter `dayLabel`. Month names and day-of-month digits are not modelled. `%A` in app.py is modelled (`Clock.WeekdayName`).
- The clock (`datetime.now`) is a parameter of each operation that reads it. `main` calls `parse_events` twice, so it reads the clock twice (`nowCozi`, `nowOutlook`).
- The scheduler (app.py:36-39, app_working.py:65-68) and the start-up calls of `refresh_events` and `refresh` are not modelled. Neither are concurrent refreshes and requests.
- The joke fetch of `dashboard` (app.py:50-54), `current_day` and `current_date` (app.py:46-47) are left out; they do not touch the events.
- Flask routes, `render_template` and `jsonify` are not modelled: `dashboard` returns its two buckets and `events_json` returns its records. An exception inside `dashboard` is `Failed`.
- `print` calls (app.py:34, app_working.py:56, 61, 63, 102, generate_site.py:87, 103) are left out.
- The Cozi client (`Cozi`, `login`, `get_lists`, `asyncio.run`) is a parameter. Whether it is installed is a flag, and what `get_lists` returns is `raw`. `FetchLists` reads COZI_EMAIL as given; COZI_PASSWORD is not modelled.
- LiveAggregator.WeekMap: the order of the keys of `week_events_grouped` is not modelled. A Python dict keeps insertion order, so the weekday groups come in the order their first events appear in `combined_events`; a Dafny `map` has no key order.
- CoziAggregator.Comprehension: the order of the keys of the dict `fetch_lists` returns is not modelled. A later list with the same key replaces the items but keeps the key's first position; a Dafny `map` has no key order.
- CoziAggregator.FetchLists: its contract states the two early cases and the raising case. What the comprehension builds is stated by `ComprehensionKeys` and `ComprehensionLastWins`.
- CoziAggregator.CoziData.Refresh: the second clock reading (`updated`) is the parameter `clock`. The HTTP timeout is not modelled.
- The HTML page of generate_site.py is left out: `TEMPLATE`, the password gate (generate_site.py:19-37) and `TEMPLATE.format` (generate_site.py:100) are not modelled. As written, `format` would raise on the CSS braces of generate_site.py:15-17. Writing `index.html` is not modelled. The model stops at `content_parts`.
- StaticSite.WriteParts: the `time_label` local variable of generate_site.py:94 is computed inside `Html` (via `Clock.TimeLabel`) instead of in the loop body.
- Stray merge-conflict lines (generate_site.py:6, 73, 99) make the file fail to parse as written. The model follows the evident intent: the code around them, with those lines removed.
- `app_working.py`'s `dashboard` and `calendar_view` routes and app.py's `calendar_view` and `events_json` routes only render templates or return stored data, so they are not modelled.
- `hash_password.py` and `game/game.js` are not part of this model.
