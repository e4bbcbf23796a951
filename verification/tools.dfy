/** The four tools: obtain the service, query the API, format the items, all inside
    `try: ... except HttpError as error: return f"Error ...: {error}"`. The tool
    bodies are the same in src/gcal_mcp/__init__.py and server.py; they take the
    outcome of `get_calendar_service` as a parameter, so either variant plugs in.
    The API is a parameter too: any function from query to page or HTTP error. */
module Tools {
  import opened Wrappers
  import opened Items
  import opened Queries
  import opened Format
  import Auth

  const FetchPrefix: string := "Error fetching events: "
  const SearchPrefix: string := "Error searching events: "
  const ListPrefix: string := "Error listing calendars: "

  /** `events().list(**query).execute()`: a page, or the text of an `HttpError`. */
  type EventsApi = EventsQuery -> Result<Page<Event>, string>

  /** `calendarList().list().execute()`. */
  type CalendarsReply = Result<Page<Calendar>, string>

  /** The API call inside the `try`: a failed request raises `HttpError`. */
  function Execute<T>(reply: Result<Page<T>, string>): Result<seq<T>, Exception> {
    match reply
    case Success(page) => Success(ItemsOf(page))
    case Failure(detail) => Failure(HttpError(detail))
  }

  /** The `except HttpError` clause: only an `HttpError` becomes a returned string,
      with the tool's prefix; every other exception escapes unchanged. */
  function Guard(prefix: string, body: Result<string, Exception>): (r: ToolResult)
    ensures r.Raised? <==> body.Failure? && !body.error.HttpError?
    ensures r.Raised? ==> r.error == body.error
    ensures body.Failure? && body.error.HttpError? ==> r == Text(prefix + body.error.detail)
    ensures body.Success? ==> r == Text(body.value)
  {
    match body
    case Success(text) => Text(text)
    case Failure(HttpError(detail)) => Text(prefix + detail)
    case Failure(e) => Raised(e)
  }

  /** `get_upcoming_events`. */
  function UpcomingEvents(service: Result<Auth.Creds, Exception>, now: Instant, maxResults: int,
                          calendarId: string, api: EventsApi): (r: ToolResult)
    ensures service.Failure? && !service.error.HttpError? ==> r == Raised(service.error)
    ensures service.Success? && api(UpcomingQuery(now, maxResults, calendarId)).Failure? ==>
      r == Text("Error fetching events: " + api(UpcomingQuery(now, maxResults, calendarId)).error)
    ensures service.Success? && api(UpcomingQuery(now, maxResults, calendarId)).Success?
            && ItemsOf(api(UpcomingQuery(now, maxResults, calendarId)).value) == [] ==>
      r == Text("No upcoming events found.")
    ensures service.Success? && api(UpcomingQuery(now, maxResults, calendarId)).Success?
            && |ItemsOf(api(UpcomingQuery(now, maxResults, calendarId)).value)| > 0 ==>
      && (r.Text? <==> UpcomingText(ItemsOf(api(UpcomingQuery(now, maxResults, calendarId)).value)).Success?)
      && (r.Text? ==> r.text == UpcomingText(ItemsOf(api(UpcomingQuery(now, maxResults, calendarId)).value)).value)
      && (r.Raised? ==> r.error == KeyError("start"))
    ensures r.Raised? ==> !r.error.HttpError?
  {
    Guard(FetchPrefix,
      var _ :- service;
      var events :- Execute(api(UpcomingQuery(now, maxResults, calendarId)));
      UpcomingText(events))
  }

  /** `get_events_for_date`. `parsed` is what `datetime.fromisoformat(date)` returns,
      `None` when it raises `ValueError`; `date` itself is echoed in the text. Adding
      a day to 9999-12-31 raises `OverflowError` before the API is called. */
  function EventsForDate(service: Result<Auth.Creds, Exception>, date: string, parsed: Option<DateTimeFields>,
                         calendarId: string, api: EventsApi): (r: ToolResult)
    ensures service.Failure? && !service.error.HttpError? ==> r == Raised(service.error)
    ensures service.Success? && parsed.None? ==> r == Raised(ValueError)
    ensures service.Success? && parsed.Some? && parsed.value.day == LastDay ==> r == Raised(OverflowError)
    ensures service.Success? && parsed.Some? && parsed.value.day < LastDay
            && api(DateQuery(parsed.value, calendarId)).Failure? ==>
      r == Text("Error fetching events: " + api(DateQuery(parsed.value, calendarId)).error)
    ensures service.Success? && parsed.Some? && parsed.value.day < LastDay
            && api(DateQuery(parsed.value, calendarId)).Success?
            && ItemsOf(api(DateQuery(parsed.value, calendarId)).value) == [] ==>
      r == Text("No events found for " + date + ".")
    ensures service.Success? && parsed.Some? && parsed.value.day < LastDay
            && api(DateQuery(parsed.value, calendarId)).Success?
            && |ItemsOf(api(DateQuery(parsed.value, calendarId)).value)| > 0 ==>
      && (r.Text? <==> DateText(date, ItemsOf(api(DateQuery(parsed.value, calendarId)).value)).Success?)
      && (r.Text? ==> r.text == DateText(date, ItemsOf(api(DateQuery(parsed.value, calendarId)).value)).value)
      && (r.Raised? ==> r.error == KeyError("start"))
    ensures r.Raised? ==> !r.error.HttpError?
  {
    Guard(FetchPrefix,
      var _ :- service;
      var day :- if parsed.Some? then Success(parsed.value) else Failure(ValueError);
      var _ :- if day.day < LastDay then Success(()) else Failure(OverflowError);
      var events :- Execute(api(DateQuery(day, calendarId)));
      DateText(date, events))
  }

  /** `search_events`. */
  function SearchEvents(service: Result<Auth.Creds, Exception>, query: string, now: Instant, maxResults: int,
                        calendarId: string, api: EventsApi): (r: ToolResult)
    ensures service.Failure? && !service.error.HttpError? ==> r == Raised(service.error)
    ensures service.Success? && api(SearchQuery(now, query, maxResults, calendarId)).Failure? ==>
      r == Text("Error searching events: " + api(SearchQuery(now, query, maxResults, calendarId)).error)
    ensures service.Success? && api(SearchQuery(now, query, maxResults, calendarId)).Success?
            && ItemsOf(api(SearchQuery(now, query, maxResults, calendarId)).value) == [] ==>
      r == Text("No events found matching '" + query + "'.")
    ensures service.Success? && api(SearchQuery(now, query, maxResults, calendarId)).Success?
            && |ItemsOf(api(SearchQuery(now, query, maxResults, calendarId)).value)| > 0 ==>
      && (r.Text? <==> SearchText(query, ItemsOf(api(SearchQuery(now, query, maxResults, calendarId)).value)).Success?)
      && (r.Text? ==> r.text == SearchText(query, ItemsOf(api(SearchQuery(now, query, maxResults, calendarId)).value)).value)
      && (r.Raised? ==> r.error == KeyError("start"))
    ensures r.Raised? ==> !r.error.HttpError?
  {
    Guard(SearchPrefix,
      var _ :- service;
      var events :- Execute(api(SearchQuery(now, query, maxResults, calendarId)));
      SearchText(query, events))
  }

  /** `list_calendars`. Formatting a calendar cannot raise. */
  function ListCalendars(service: Result<Auth.Creds, Exception>, reply: CalendarsReply): (r: ToolResult)
    ensures service.Failure? && !service.error.HttpError? ==> r == Raised(service.error)
    ensures service.Success? && reply.Failure? ==> r == Text("Error listing calendars: " + reply.error)
    ensures service.Success? && reply.Success? && ItemsOf(reply.value) == [] ==> r == Text("No calendars found.")
    ensures service.Success? && reply.Success? && |ItemsOf(reply.value)| > 0 ==>
      r == Text(CalendarsText(ItemsOf(reply.value)))
    ensures service.Success? ==> r.Text?
  {
    Guard(ListPrefix,
      var _ :- service;
      var cals :- Execute(reply);
      Success(CalendarsText(cals)))
  }

  /** Some event of `events` has no `start` key exactly when the formatting loop fails. */
  lemma MissingStartIff(events: seq<Event>)
    ensures (exists e :: e in events && e.start.None?) <==> EventLines(events).Failure?
  {
    if EventLines(events).Failure? {
      var i :| 0 <= i < |events| && events[i].start.None?;
      assert events[i] in events;
    }
  }

  /** Once the service is obtained, `get_upcoming_events` escapes with an exception
      exactly when the API returned an event without a `start` key. */
  lemma UpcomingRaisesOnlyOnMissingStart(service: Result<Auth.Creds, Exception>, now: Instant, maxResults: int,
                                         calendarId: string, api: EventsApi)
    requires service.Success?
    ensures UpcomingEvents(service, now, maxResults, calendarId, api).Raised? <==>
      && api(UpcomingQuery(now, maxResults, calendarId)).Success?
      && exists e :: e in ItemsOf(api(UpcomingQuery(now, maxResults, calendarId)).value) && e.start.None?
  {
    var reply := api(UpcomingQuery(now, maxResults, calendarId));
    if reply.Success? {
      MissingStartIff(ItemsOf(reply.value));
    }
  }

  /** Once the service is obtained, `search_events` escapes with an exception exactly
      when the API returned an event without a `start` key. */
  lemma SearchRaisesOnlyOnMissingStart(service: Result<Auth.Creds, Exception>, query: string, now: Instant,
                                       maxResults: int, calendarId: string, api: EventsApi)
    requires service.Success?
    ensures SearchEvents(service, query, now, maxResults, calendarId, api).Raised? <==>
      && api(SearchQuery(now, query, maxResults, calendarId)).Success?
      && exists e :: e in ItemsOf(api(SearchQuery(now, query, maxResults, calendarId)).value) && e.start.None?
  {
    var reply := api(SearchQuery(now, query, maxResults, calendarId));
    if reply.Success? {
      MissingStartIff(ItemsOf(reply.value));
    }
  }

  /** Once the service is obtained, `get_events_for_date` escapes with an exception
      exactly when `fromisoformat` rejects the date, the date is 9999-12-31, or the
      API returned an event without a `start` key. */
  lemma DateRaisesOnlyOnBadDateOrMissingStart(service: Result<Auth.Creds, Exception>, date: string,
                                              parsed: Option<DateTimeFields>, calendarId: string, api: EventsApi)
    requires service.Success?
    ensures EventsForDate(service, date, parsed, calendarId, api).Raised? <==>
      || parsed.None?
      || parsed.value.day == LastDay
      || (&& api(DateQuery(parsed.value, calendarId)).Success?
          && exists e :: e in ItemsOf(api(DateQuery(parsed.value, calendarId)).value) && e.start.None?)
  {
    if parsed.Some? {
      var reply := api(DateQuery(parsed.value, calendarId));
      if reply.Success? {
        MissingStartIff(ItemsOf(reply.value));
      }
    }
  }

  /** The date tool reads the API only through the query for the requested UTC day:
      two APIs that agree on that one query give the same result. */
  lemma DateToolAsksOnlyForTheDay(service: Result<Auth.Creds, Exception>, date: string, f: DateTimeFields,
                                  calendarId: string, api1: EventsApi, api2: EventsApi)
    requires api1(DateQuery(f, calendarId)) == api2(DateQuery(f, calendarId))
    ensures EventsForDate(service, date, Some(f), calendarId, api1) == EventsForDate(service, date, Some(f), calendarId, api2)
    ensures forall t :: DateQuery(f, calendarId).timeMin <= t < DateQuery(f, calendarId).timeMax.value <==> DayOf(t) == f.day
  {
    DateQueryBounds(f, calendarId);
  }
}
