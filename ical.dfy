/**
 * A VEVENT component as the `icalendar` library hands it out after
 * `Calendar.from_ical(text).walk("vevent")`. Parsing the iCalendar text is
 * library code and is not modelled: a feed is the sequence of components.
 */
module Ical {
  import opened Basics
  import opened Clock

  datatype Component = Component(
    dtstart: Option<DateOrTime>,   // `comp.decoded("dtstart")`; None when it is missing (KeyError)
    dtend: Option<DateOrTime>,     // `comp.decoded("dtend")`; None when it is missing
    valueParam: Option<string>,    // `comp.get("dtstart").params.get("VALUE")`
    summary: Option<string>        // `comp.get("summary")`
  )

  /** The DTSTART property carries the parameter VALUE=DATE (RFC 5545, section 3.2.20). */
  predicate ValueIsDate(c: Component) {
    c.valueParam == Some("DATE")
  }

  /** `str(comp.get("summary"))`: a missing summary prints as "None". */
  function SummaryText(c: Component): (s: string)
    ensures c.summary.Some? ==> s == c.summary.value
    ensures c.summary.None? ==> s == "None"
  {
    match c.summary
    case Some(text) => text
    case None => "None"
  }

  /** Every component has a DTSTART, so `comp.decoded("dtstart")` raises for none of them. */
  predicate AllHaveStart(cs: seq<Component>) {
    forall i :: 0 <= i < |cs| ==> cs[i].dtstart.Some?
  }

  /** Some component lacks a DTSTART: the form a loop over the components checks step by step. */
  predicate SomeLacksStart(cs: seq<Component>) {
    cs != [] && (cs[|cs| - 1].dtstart.None? || SomeLacksStart(cs[..|cs| - 1]))
  }

  lemma {:induction false} SomeLacksStartIff(cs: seq<Component>)
    ensures SomeLacksStart(cs) <==> !AllHaveStart(cs)
  {
    if cs != [] {
      var init := cs[..|cs| - 1];
      SomeLacksStartIff(init);
      assert forall i :: 0 <= i < |init| ==> init[i] == cs[i];
    }
  }
}
