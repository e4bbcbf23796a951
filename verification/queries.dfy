/** The `events().list(...)` queries the three event tools send, and the UTC day
    window of `get_events_for_date`. Instants are microseconds since
    1970-01-01T00:00:00Z; the ISO-8601 text the source sends is not modelled. */
module Queries {
  import opened Wrappers

  type Instant = int

  const MicrosPerSecond: int := 1_000_000
  const MicrosPerDay: int := 86_400 * MicrosPerSecond

  type Hour = h: int | 0 <= h < 24
  type Minute = m: int | 0 <= m < 60
  type Second = s: int | 0 <= s < 60
  type Microsecond = u: int | 0 <= u < 1_000_000

  /** The day numbers of `datetime.min` (0001-01-01) and `datetime.max` (9999-12-31). */
  const FirstDay: int := -719_162
  const LastDay: int := 2_932_896

  /** A day Python's `datetime` can represent. */
  type Day = d: int | FirstDay <= d <= LastDay

  /** What `datetime.fromisoformat(date)` yields: a day number (days since
      1970-01-01) and a wall-clock time of day. Any offset the string carried is
      discarded by `replace(tzinfo=timezone.utc)`, so it is not kept here. */
  datatype DateTimeFields = DateTimeFields(day: Day, hour: Hour, minute: Minute, second: Second, microsecond: Microsecond)

  /** The instant of a wall-clock reading taken as UTC. */
  function InstantOf(f: DateTimeFields): Instant {
    f.day * MicrosPerDay + ((f.hour * 60 + f.minute) * 60 + f.second) * MicrosPerSecond + f.microsecond
  }

  /** The UTC day an instant falls on (floor division: correct before 1970 too). */
  function DayOf(t: Instant): int {
    t / MicrosPerDay
  }

  /** 00:00:00.000000 UTC of a day. */
  function Midnight(day: int): Instant {
    day * MicrosPerDay
  }

  /** An instant lies on a UTC day exactly when it lies in `[midnight, next midnight)`. */
  lemma DayOfIff(t: Instant, day: int)
    ensures DayOf(t) == day <==> Midnight(day) <= t < Midnight(day) + MicrosPerDay
  {
  }

  /** A `[timeMin, timeMax)` query window. */
  datatype Window = Window(timeMin: Instant, timeMax: Instant)

  /** The window exactly as written: `replace(hour=0, minute=0, second=0, tzinfo=utc)`
      leaves the microsecond field alone, then `+ timedelta(days=1)`. */
  function DayWindowAsWritten(f: DateTimeFields): (w: Window)
    ensures w.timeMin == Midnight(f.day) + f.microsecond
    ensures w.timeMax - w.timeMin == MicrosPerDay
  {
    var start := InstantOf(f.(hour := 0, minute := 0, second := 0));
    Window(start, start + MicrosPerDay)
  }

  /** An input for which the as-written window leaves out the first instant of its
      own day: "2024-03-15T10:30:00.500" (day 19797) gives timeMin 00:00:00.500000. */
  lemma AsWrittenWindowMissesMidnight()
    ensures var f := DateTimeFields(19797, 10, 30, 0, 500_000);
      && DayOf(Midnight(f.day)) == f.day
      && !(DayWindowAsWritten(f).timeMin <= Midnight(f.day))
  {
    DayOfIff(Midnight(19797), 19797);
  }

  /** The intended window: 00:00:00 UTC of the requested day up to the next
      midnight, holding exactly the instants of that UTC day. */
  function DayWindow(f: DateTimeFields): (w: Window)
    ensures w.timeMin == Midnight(f.day)
    ensures w.timeMax == w.timeMin + MicrosPerDay
    ensures forall t :: w.timeMin <= t < w.timeMax <==> DayOf(t) == f.day
  {
    var start := InstantOf(f.(hour := 0, minute := 0, second := 0, microsecond := 0));
    assert forall t :: DayOf(t) == f.day <==> start <= t < start + MicrosPerDay by {
      forall t ensures DayOf(t) == f.day <==> start <= t < start + MicrosPerDay {
        DayOfIff(t, f.day);
      }
    }
    Window(start, start + MicrosPerDay)
  }

  /** For a date-only string (`YYYY-MM-DD`, microsecond 0) the two windows agree. */
  lemma WindowsAgreeOnDateOnly(f: DateTimeFields)
    requires f.microsecond == 0
    ensures DayWindowAsWritten(f) == DayWindow(f)
  {
  }

  /** The keyword arguments of one `events().list(...)` call. */
  datatype EventsQuery = EventsQuery(
    calendarId: string,
    timeMin: Instant,
    timeMax: Option<Instant>,
    maxResults: Option<int>,
    singleEvents: bool,
    orderBy: string,
    q: Option<string>)

  /** `get_upcoming_events`: from now, at most `maxResults`, expanded and ordered. */
  function UpcomingQuery(now: Instant, maxResults: int, calendarId: string): (r: EventsQuery)
    ensures r.calendarId == calendarId && r.timeMin == now && r.timeMax.None?
    ensures r.maxResults == Some(maxResults) && r.q.None?
    ensures r.singleEvents && r.orderBy == "startTime"
  {
    EventsQuery(calendarId, now, None, Some(maxResults), true, "startTime", None)
  }

  /** `search_events`: the upcoming query with the keyword added. */
  function SearchQuery(now: Instant, query: string, maxResults: int, calendarId: string): (r: EventsQuery)
    ensures r.q == Some(query)
    ensures r.(q := None) == UpcomingQuery(now, maxResults, calendarId)
  {
    EventsQuery(calendarId, now, None, Some(maxResults), true, "startTime", Some(query))
  }

  /** `get_events_for_date`: the day window, and no `maxResults`. */
  function DateQuery(f: DateTimeFields, calendarId: string): (r: EventsQuery)
    ensures r.calendarId == calendarId && r.timeMin == Midnight(f.day)
    ensures r.timeMax == Some(r.timeMin + MicrosPerDay)
    ensures r.maxResults.None? && r.q.None?
    ensures r.singleEvents && r.orderBy == "startTime"
  {
    var w := DayWindow(f);
    EventsQuery(calendarId, w.timeMin, Some(w.timeMax), None, true, "startTime", None)
  }

  /** The date query covers exactly the instants of the requested UTC day, ends one
      day after it starts, and unlike the other two queries passes no page size. */
  lemma DateQueryBounds(f: DateTimeFields, calendarId: string)
    ensures DateQuery(f, calendarId).timeMin == Midnight(f.day)
    ensures DateQuery(f, calendarId).timeMax == Some(DateQuery(f, calendarId).timeMin + MicrosPerDay)
    ensures forall t :: DateQuery(f, calendarId).timeMin <= t < DateQuery(f, calendarId).timeMin + MicrosPerDay
                        <==> DayOf(t) == f.day
    ensures DateQuery(f, calendarId).maxResults == None
    ensures DateQuery(f, calendarId).singleEvents && DateQuery(f, calendarId).orderBy == "startTime"
  {
  }

  /** The search query is the upcoming query plus the keyword, and nothing else. */
  lemma SearchExtendsUpcoming(now: Instant, query: string, maxResults: int, calendarId: string)
    ensures SearchQuery(now, query, maxResults, calendarId)
         == UpcomingQuery(now, maxResults, calendarId).(q := Some(query))
    ensures UpcomingQuery(now, maxResults, calendarId).q == None
  {
  }
}
