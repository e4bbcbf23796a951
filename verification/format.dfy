/** The formatting half of the four tools: how a list of API items becomes the
    text block a tool returns. The four tools share the per-event line. */
module Format {
  import opened Wrappers
  import opened Text
  import opened Items

  /** Every event or calendar line starts with a bullet and a space. */
  const Bullet: string := "\U{2022} "
  const NoTitle: string := "(No title)"
  const NoName: string := "(No name)"
  const PrimarySuffix: string := " (primary)"
  const IdPrefix: string := "  ID: "
  const CalendarsHeader: string := "Available calendars:"
  const NoUpcomingEvents: string := "No upcoming events found."
  const NoCalendars: string := "No calendars found."

  function NoEventsForDate(date: string): string {
    "No events found for " + date + "."
  }

  function NoEventsMatching(query: string): string {
    "No events found matching '" + query + "'."
  }

  function DateHeader(date: string): string {
    "Events for " + date + ":"
  }

  function SearchHeader(query: string): string {
    "Events matching '" + query + "':"
  }

  /** `start.get("dateTime", start.get("date"))`, as `f"{...}"` renders it. */
  function StartText(start: EventStart): string {
    match start.dateTime
    case Some(t) => t
    case None => Render(start.date)
  }

  /** `event.get("summary", "(No title)")`. */
  function SummaryText(e: Event): string {
    e.summary.GetOr(NoTitle)
  }

  /** `f"• {start}: {summary}"`; subscripting a missing `start` raises `KeyError`. */
  function EventLine(e: Event): (r: Result<string, Exception>)
    ensures r.Success? <==> e.start.Some?
    ensures r.Failure? ==> r.error == KeyError("start")
    ensures r.Success? ==> Bullet <= r.value
  {
    match e.start
    case None => Failure(KeyError("start"))
    case Some(st) => Success(Bullet + StartText(st) + FieldSep + SummaryText(e))
  }

  /** The loop over the items: one line per event, in item order, or the `KeyError`
      of the first event that has no `start`. */
  function EventLines(events: seq<Event>): (r: Result<seq<string>, Exception>)
    ensures r.Success? <==> forall i :: 0 <= i < |events| ==> events[i].start.Some?
    ensures r.Success? ==> |r.value| == |events|
    ensures r.Success? ==> forall i :: 0 <= i < |events| ==> EventLine(events[i]) == Success(r.value[i])
    ensures r.Failure? ==> r.error == KeyError("start")
  {
    if |events| == 0 then Success([])
    else
      var first :- EventLine(events[0]);
      var rest :- EventLines(events[1..]);
      Success([first] + rest)
  }

  /** The body shared by the three event tools: the empty-list sentence, or the
      optional header followed by one line per event, joined by newlines. */
  function EventsText(header: seq<string>, emptyText: string, events: seq<Event>): (r: Result<string, Exception>)
    ensures |events| == 0 ==> r == Success(emptyText)
    ensures |events| > 0 ==> (r.Success? <==> forall i :: 0 <= i < |events| ==> events[i].start.Some?)
    ensures r.Failure? ==> r.error == KeyError("start")
  {
    if |events| == 0 then Success(emptyText)
    else
      var lines :- EventLines(events);
      Success(Join(header + lines, NL))
  }

  /** `get_upcoming_events` output: no header. */
  function UpcomingText(events: seq<Event>): (r: Result<string, Exception>)
    ensures |events| == 0 ==> r == Success("No upcoming events found.")
    ensures |events| > 0 && r.Success? ==> Bullet <= r.value
  {
    var r := EventsText([], NoUpcomingEvents, events);
    assert |events| > 0 && r.Success? ==> Bullet <= r.value by {
      if |events| > 0 && r.Success? {
        var lines := EventLines(events).value;
        assert [] + lines == lines;
        JoinStartsWithFirst(lines, NL);
        assert Bullet <= lines[0];
      }
    }
    r
  }

  /** `get_events_for_date` output: headed by the date as given. */
  function DateText(date: string, events: seq<Event>): (r: Result<string, Exception>)
    ensures |events| == 0 ==> r == Success("No events found for " + date + ".")
    ensures |events| > 0 && r.Success? ==> "Events for " + date + ":" + [NL] + Bullet <= r.value
  {
    HeadedText(DateHeader(date), NoEventsForDate(date), events)
  }

  /** `search_events` output: headed by the query as given. */
  function SearchText(query: string, events: seq<Event>): (r: Result<string, Exception>)
    ensures |events| == 0 ==> r == Success("No events found matching '" + query + "'.")
    ensures |events| > 0 && r.Success? ==> "Events matching '" + query + "':" + [NL] + Bullet <= r.value
  {
    HeadedText(SearchHeader(query), NoEventsMatching(query), events)
  }

  /** An event text with one header line: the header, a newline, then the first bullet. */
  function HeadedText(header: string, emptyText: string, events: seq<Event>): (r: Result<string, Exception>)
    ensures |events| == 0 ==> r == Success(emptyText)
    ensures |events| > 0 && r.Success? ==> header + [NL] + Bullet <= r.value
  {
    var r := EventsText([header], emptyText, events);
    assert |events| > 0 && r.Success? ==> header + [NL] + Bullet <= r.value by {
      if |events| > 0 && r.Success? {
        var lines := EventLines(events).value;
        var all := [header] + lines;
        assert all[1..] == lines;
        assert r.value == header + [NL] + Join(lines, NL);
        JoinStartsWithFirst(lines, NL);
        assert Bullet <= lines[0];
      }
    }
    r
  }

  /** `cal.get("summary", "(No name)")`. */
  function CalendarName(c: Calendar): string {
    c.summary.GetOr(NoName)
  }

  /** First physical line of a calendar entry: bullet, name, and the primary marker. */
  function NameLine(c: Calendar): string {
    Bullet + CalendarName(c) + (if Truthy(c.primary) then PrimarySuffix else "")
  }

  /** Second physical line of a calendar entry; a missing id renders as `None`. */
  function IdLine(c: Calendar): string {
    IdPrefix + Render(c.id)
  }

  /** `f"• {name}{primary}\n  ID: {cal_id}"`: one list element spanning two lines. */
  function CalendarEntry(c: Calendar): string {
    NameLine(c) + [NL] + IdLine(c)
  }

  function CalendarEntries(cals: seq<Calendar>): (entries: seq<string>)
    ensures |entries| == |cals|
  {
    if |cals| == 0 then [] else [CalendarEntry(cals[0])] + CalendarEntries(cals[1..])
  }

  /** `list_calendars` output: the header and one entry per calendar; cannot raise. */
  function CalendarsText(cals: seq<Calendar>): (r: string)
    ensures |cals| == 0 ==> r == "No calendars found."
    ensures |cals| > 0 ==> "Available calendars:" + [NL] + Bullet <= r
  {
    if |cals| == 0 then NoCalendars
    else
      var entries := CalendarEntries(cals);
      assert CalendarsHeader + [NL] + Bullet <= Join([CalendarsHeader] + entries, NL) by {
        assert ([CalendarsHeader] + entries)[1..] == entries;
        assert entries[0] == CalendarEntry(cals[0]);
        JoinStartsWithFirst(entries, NL);
      }
      Join([CalendarsHeader] + entries, NL)
  }

  // ---------------------------------------------------------------------------
  // Reading the output back

  /** The start and summary shown on a bullet line, split at the first ": ". */
  function ParseEventLine(line: string): Option<(string, string)> {
    if |line| >= |Bullet| && line[..|Bullet|] == Bullet then SplitAtFieldSep(line[|Bullet|..])
    else None
  }

  /** Every field a formatted line of `e` shows is newline-free, and the start holds no ": ". */
  predicate PlainEvent(e: Event) {
    && e.start.Some?
    && NoChar(StartText(e.start.value), NL)
    && NoFieldSep(StartText(e.start.value))
    && (e.summary.Some? ==> NoChar(e.summary.value, NL))
  }

  /** A formatted event line shows the event's `dateTime` when it has one and its
      all-day `date` otherwise, then its summary verbatim, or "(No title)" only when
      the summary key is absent. */
  lemma EventLineRoundTrip(e: Event)
    requires e.start.Some? && NoFieldSep(StartText(e.start.value))
    ensures EventLine(e).Success?
    ensures ParseEventLine(EventLine(e).value) ==
      Some((if e.start.value.dateTime.Some? then e.start.value.dateTime.value else Render(e.start.value.date),
            if e.summary.Some? then e.summary.value else NoTitle))
  {
    var line := EventLine(e).value;
    var st := StartText(e.start.value);
    assert line[..|Bullet|] == Bullet;
    assert line[|Bullet|..] == st + FieldSep + SummaryText(e);
    SplitAtFieldSepAfter(st, SummaryText(e));
  }

  /** A formatted line of a plain event is a single physical line. */
  lemma EventLineNoNewline(e: Event)
    requires PlainEvent(e)
    ensures NoChar(EventLine(e).value, NL)
  {
  }

  /** The event part of an event tool's output: after the header, line `k` shows
      event `k`, and there is nothing else. */
  lemma {:induction false} EventsLayout(header: seq<string>, emptyText: string, events: seq<Event>)
    requires |events| > 0
    requires forall i :: 0 <= i < |header| ==> NoChar(header[i], NL)
    requires forall i :: 0 <= i < |events| ==> PlainEvent(events[i])
    ensures EventsText(header, emptyText, events).Success?
    ensures |Split(EventsText(header, emptyText, events).value, NL)| == |header| + |events|
    ensures Split(EventsText(header, emptyText, events).value, NL)[..|header|] == header
    ensures forall k :: 0 <= k < |events| ==>
      ParseEventLine(Split(EventsText(header, emptyText, events).value, NL)[|header| + k]) ==
        Some((StartText(events[k].start.value), SummaryText(events[k])))
  {
    var lines := EventLines(events).value;
    var all := header + lines;
    forall i | 0 <= i < |all|
      ensures NoChar(all[i], NL)
    {
      if i >= |header| {
        EventLineNoNewline(events[i - |header|]);
      }
    }
    SplitJoin(all, NL);
    forall k | 0 <= k < |events|
      ensures ParseEventLine(all[|header| + k]) == Some((StartText(events[k].start.value), SummaryText(events[k])))
    {
      EventLineRoundTrip(events[k]);
    }
  }

  /** Non-empty `get_upcoming_events` output is exactly one line per event, no header,
      in item order. */
  lemma UpcomingLayout(events: seq<Event>)
    requires |events| > 0
    requires forall i :: 0 <= i < |events| ==> PlainEvent(events[i])
    ensures UpcomingText(events).Success?
    ensures |Split(UpcomingText(events).value, NL)| == |events|
    ensures forall k :: 0 <= k < |events| ==>
      ParseEventLine(Split(UpcomingText(events).value, NL)[k]) ==
        Some((StartText(events[k].start.value), SummaryText(events[k])))
  {
    EventsLayout([], NoUpcomingEvents, events);
  }

  /** Non-empty `get_events_for_date` output is the "Events for {date}:" header and
      then one line per event, in item order. */
  lemma DateLayout(date: string, events: seq<Event>)
    requires |events| > 0 && NoChar(date, NL)
    requires forall i :: 0 <= i < |events| ==> PlainEvent(events[i])
    ensures DateText(date, events).Success?
    ensures |Split(DateText(date, events).value, NL)| == 1 + |events|
    ensures Split(DateText(date, events).value, NL)[0] == "Events for " + date + ":"
    ensures forall k :: 0 <= k < |events| ==>
      ParseEventLine(Split(DateText(date, events).value, NL)[1 + k]) ==
        Some((StartText(events[k].start.value), SummaryText(events[k])))
  {
    EventsLayout([DateHeader(date)], NoEventsForDate(date), events);
    assert NoChar(DateHeader(date), NL);
  }

  /** Non-empty `search_events` output is the "Events matching '{query}':" header and
      then one line per event, in item order. */
  lemma SearchLayout(query: string, events: seq<Event>)
    requires |events| > 0 && NoChar(query, NL)
    requires forall i :: 0 <= i < |events| ==> PlainEvent(events[i])
    ensures SearchText(query, events).Success?
    ensures |Split(SearchText(query, events).value, NL)| == 1 + |events|
    ensures Split(SearchText(query, events).value, NL)[0] == "Events matching '" + query + "':"
    ensures forall k :: 0 <= k < |events| ==>
      ParseEventLine(Split(SearchText(query, events).value, NL)[1 + k]) ==
        Some((StartText(events[k].start.value), SummaryText(events[k])))
  {
    EventsLayout([SearchHeader(query)], NoEventsMatching(query), events);
    assert NoChar(SearchHeader(query), NL);
  }

  /** The two physical lines of every calendar entry, in list order. */
  function CalendarLines(cals: seq<Calendar>): (lines: seq<string>)
    ensures |lines| == 2 * |cals|
  {
    if |cals| == 0 then [] else [NameLine(cals[0]), IdLine(cals[0])] + CalendarLines(cals[1..])
  }

  lemma {:induction false} CalendarLinesAt(cals: seq<Calendar>, i: int)
    requires 0 <= i < |cals|
    ensures CalendarLines(cals)[2 * i] == NameLine(cals[i])
    ensures CalendarLines(cals)[2 * i + 1] == IdLine(cals[i])
    decreases |cals|
  {
    if i > 0 {
      CalendarLinesAt(cals[1..], i - 1);
    }
  }

  /** Joining two-line entries equals joining their physical lines. */
  lemma {:induction false} JoinCalendarEntries(cals: seq<Calendar>)
    requires |cals| > 0
    ensures Join(CalendarEntries(cals), NL) == Join(CalendarLines(cals), NL)
    decreases |cals|
  {
    var c := cals[0];
    var rest := cals[1..];
    var lines := CalendarLines(cals);
    assert lines[1..] == [IdLine(c)] + CalendarLines(rest);
    if |rest| == 0 {
      assert CalendarLines(rest) == [];
      assert lines[1..][1..] == [];
    } else {
      JoinCalendarEntries(rest);
      assert lines[1..][1..] == CalendarLines(rest);
      assert CalendarEntries(cals)[1..] == CalendarEntries(rest);
    }
  }

  /** Every field a calendar entry shows is newline-free. */
  predicate PlainCalendar(c: Calendar) {
    && (c.summary.Some? ==> NoChar(c.summary.value, NL))
    && NoChar(Render(c.id), NL)
  }

  /** The physical lines of newline-free calendars are newline-free. */
  lemma {:induction false} CalendarLinesPlain(cals: seq<Calendar>)
    requires forall i :: 0 <= i < |cals| ==> PlainCalendar(cals[i])
    ensures forall j :: 0 <= j < |CalendarLines(cals)| ==> NoChar(CalendarLines(cals)[j], NL)
    decreases |cals|
  {
    if |cals| > 0 {
      var c := cals[0];
      assert PlainCalendar(c);
      assert NoChar(CalendarName(c), NL);
      assert NoChar(NameLine(c), NL);
      assert NoChar(IdLine(c), NL);
      CalendarLinesPlain(cals[1..]);
    }
  }

  /** Non-empty `list_calendars` output is the "Available calendars:" header and two
      physical lines per calendar, in list order: the bullet and name ("(No name)"
      only when the name is absent) carrying " (primary)" exactly when `primary` is
      truthy, then the indented id. */
  lemma CalendarsLayout(cals: seq<Calendar>)
    requires |cals| > 0
    requires forall i :: 0 <= i < |cals| ==> PlainCalendar(cals[i])
    ensures |Split(CalendarsText(cals), NL)| == 1 + 2 * |cals|
    ensures Split(CalendarsText(cals), NL)[0] == "Available calendars:"
    ensures forall i :: 0 <= i < |cals| ==>
      Split(CalendarsText(cals), NL)[1 + 2 * i] ==
        Bullet + (if cals[i].summary.Some? then cals[i].summary.value else NoName)
          + (if cals[i].primary == Some(true) then " (primary)" else "")
    ensures forall i :: 0 <= i < |cals| ==>
      Split(CalendarsText(cals), NL)[2 + 2 * i] == "  ID: " + Render(cals[i].id)
  {
    var lines := CalendarLines(cals);
    var all := [CalendarsHeader] + lines;
    JoinCalendarEntries(cals);
    assert CalendarsText(cals) == Join(all, NL) by {
      assert ([CalendarsHeader] + CalendarEntries(cals))[1..] == CalendarEntries(cals);
      assert all[1..] == lines;
    }
    CalendarLinesPlain(cals);
    assert forall j :: 0 <= j < |all| ==> NoChar(all[j], NL) by {
      forall j | 0 <= j < |all| ensures NoChar(all[j], NL) {
        if j > 0 {
          assert all[j] == lines[j - 1];
          assert NoChar(lines[j - 1], NL);
        } else {
          assert all[j] == CalendarsHeader;
        }
      }
    }
    SplitJoin(all, NL);
    forall i | 0 <= i < |cals|
      ensures all[1 + 2 * i] == NameLine(cals[i]) && all[2 + 2 * i] == IdLine(cals[i])
    {
      CalendarLinesAt(cals, i);
    }
  }

  /** A calendar's name line carries the " (primary)" suffix if and only if its
      `primary` flag is truthy. */
  lemma PrimarySuffixIff(c: Calendar)
    ensures NameLine(c) == Bullet + CalendarName(c) + PrimarySuffix <==> Truthy(c.primary)
  {
  }
}
