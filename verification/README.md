# gcal-mcp in Dafny

A model of the Google Calendar tool server `gcal-mcp`: four read-only tools
(`get_upcoming_events`, `get_events_for_date`, `search_events`, `list_calendars`)
and the credential step `get_calendar_service` that each of them runs first. The
repository carries the logic twice: the packaged module `src/gcal_mcp/__init__.py`
(embedded client configuration, token under `~/.config/gcal-mcp/`) and the standalone
`server.py` (`credentials.json` and `token.json` in the working directory). The
tool bodies are identical in both files (server.py:44-204 is
src/gcal_mcp/__init__.py:60-222 apart from line wrapping), so one model of them serves both.
The credential step differs, and both variants are modelled.

Modules:

- `Wrappers` (wrappers.dfy): `Option` for JSON keys that may be absent. `Result` for values that a Python exception may replace.
- `Text` (text.dfy): `"\n".join` and its inverse `split`, proved to undo each other. Also splitting a bullet line at its first `": "`.
- `Items` (items.dfy): the API records that the tools read (`Event`, `EventStart`, `Calendar`, `Page`), the exceptions a tool can meet, and `ToolResult`, which is either a returned `Text` or a `Raised` exception.
- `Format` (format.dfy): the four formatters, and lemmas that read their output back line by line.
- `Queries` (queries.dfy): the `events().list` keyword arguments and the UTC day window of the date tool. Instants are microseconds since the epoch, and days are day numbers.
- `Auth` (auth.dfy): both variants of `get_calendar_service`. Each returns the list of effects it performs (`ReadToken`, `Refresh`, `InteractiveFlow`, `MakeConfigDir`, `WriteToken`) and either the credentials or an exception.
- `Tools` (tools.dfy): the four tools. Each one is wrapped in the `except HttpError` clause, takes the credential outcome as input, and takes the calendar API as an arbitrary function from query to page or HTTP error.
- `Variants` (variants.dfy): which exceptions escape the tools under each credential variant.

Two points about error handling:

- The tools catch only `HttpError`. An authorization failure, a missing `credentials.json`, an unloadable token file in server.py, a bad date string, the date 9999-12-31 (whose next day overflows `datetime`) and an event without `start` all escape the tool as exceptions (`Tools.Guard`, `Variants`).
- Only the packaged variant treats a malformed token file like a missing one; server.py lets the load error escape (`Auth.ScriptCorruptTokenRaises`).

## Model

| member | source | states |
|---|---|---|
| Text.SplitJoin | src/gcal_mcp/__init__.py:97 | splitting `"\n".join(lines)` at newlines gives back exactly `lines` when no line contains a newline, so the text has `len(lines)` physical lines in order |
| Text.JoinSplit | src/gcal_mcp/__init__.py:97 | joining the pieces of any split string gives back the string, so join and split are inverses |
| Format.EventLines | src/gcal_mcp/__init__.py:91-95 | the loop succeeds exactly when every event has a `start` key; it then gives one line per event in item order, and otherwise raises `KeyError('start')` |
| Format.EventsText | src/gcal_mcp/__init__.py:88-97 | an empty item list gives the tool's fixed sentence; a non-empty list succeeds exactly when every event has `start`; the only failure is `KeyError('start')` |
| Format.EventLine | src/gcal_mcp/__init__.py:93-95 | an event line exists exactly when the event has a `start` key and begins with the bullet; an event without `start` raises `KeyError('start')` |
| Format.EventLineRoundTrip | src/gcal_mcp/__init__.py:93-95 | a bullet line reads back as the `dateTime` if present, otherwise the all-day `date`, followed by the summary: shown verbatim when the key is present (even empty), and replaced by `"(No title)"` only when the key is absent |
| Format.UpcomingText | src/gcal_mcp/__init__.py:88-97 | an empty list gives `"No upcoming events found."`; non-empty output has no header and starts directly with the first bullet |
| Format.DateText | src/gcal_mcp/__init__.py:135-144 | an empty list gives `"No events found for {date}."`; non-empty output starts with the line `"Events for {date}:"` followed by the first bullet |
| Format.SearchText | src/gcal_mcp/__init__.py:182-191 | an empty list gives `"No events found matching '{query}'."`; non-empty output starts with the line `"Events matching '{query}':"` followed by the first bullet |
| Format.CalendarsText | src/gcal_mcp/__init__.py:209-219 | an empty list gives `"No calendars found."`; non-empty output starts with the line `"Available calendars:"` followed by the first bullet |
| Format.EventsLayout | src/gcal_mcp/__init__.py:138-144 | after the header lines come exactly one line per event, in item order, each showing that event's start and summary |
| Format.UpcomingLayout | src/gcal_mcp/__init__.py:91-97 | non-empty upcoming output has exactly n physical lines, no header, and line k shows event k |
| Format.DateLayout | src/gcal_mcp/__init__.py:135-144 | non-empty date output is `"Events for {date}:"` followed by n event lines in item order |
| Format.SearchLayout | src/gcal_mcp/__init__.py:182-191 | non-empty search output is `"Events matching '{query}':"` followed by n event lines in item order |
| Format.CalendarsLayout | server.py:191-201 | non-empty calendar output is `"Available calendars:"` followed by two physical lines per calendar: first the bullet, the name (`"(No name)"` only when absent) and `" (primary)"` exactly when `primary` is truthy, then `"  ID: {id}"` |
| Format.PrimarySuffixIff | server.py:198-199 | a calendar's name line equals bullet + name + `" (primary)"` exactly when its `primary` flag is truthy (a name that itself ends in `" (primary)"` is shown verbatim) |
| Queries.DayWindowAsWritten | src/gcal_mcp/__init__.py:117-120 | the window as coded starts at midnight of the parsed day plus the parsed microsecond, and is exactly one day long |
| Queries.AsWrittenWindowMissesMidnight | src/gcal_mcp/__init__.py:117-119 | for the input `"2024-03-15T10:30:00.500"`, the coded window starts after 00:00:00 of its own day |
| Queries.DayWindow | src/gcal_mcp/__init__.py:117-120 | the intended window runs from 00:00:00 UTC of the day to exactly one day later, and holds exactly the instants of that UTC day |
| Queries.WindowsAgreeOnDateOnly | server.py:101-104 | for a date-only string (microsecond 0) the coded and intended windows coincide |
| Queries.UpcomingQuery | src/gcal_mcp/__init__.py:73-83 | the upcoming call sends the calendar id, `timeMin = now`, no `timeMax`, `maxResults`, `singleEvents` and start-time ordering, and no keyword |
| Queries.SearchQuery | src/gcal_mcp/__init__.py:166-177 | the search call sends the keyword `q`, and apart from it exactly the upcoming call's arguments |
| Queries.DateQuery | src/gcal_mcp/__init__.py:117-131 | the date call, built from the corrected window (see Findings), sends `timeMin` at the day's midnight, `timeMax` exactly one day later, and neither `maxResults` nor a keyword |
| Queries.DateQueryBounds | src/gcal_mcp/__init__.py:117-131 | the date query, built from the corrected window (see Findings), has `timeMin` at the day's midnight and `timeMax = timeMin + 1 day`, covers exactly that UTC day, and passes no `maxResults` |
| Queries.SearchExtendsUpcoming | src/gcal_mcp/__init__.py:168-177 | the search query is the upcoming-events query plus the keyword `q`, and nothing else differs |
| Auth.PackagedService | src/gcal_mcp/__init__.py:30-57 | the token file is read exactly when it exists; the only failure is an authorization error; the directory is created exactly when new credentials were obtained, and the last step then writes those credentials |
| Auth.ScriptService | server.py:19-41 | the token file is read exactly when it exists; no directory is created; an unloadable token file is the one case that fails with the load error; every failure is a load error, a missing `credentials.json` or an authorization error; new credentials are written as the last step |
| Auth.PackagedValidTokenReused | src/gcal_mcp/__init__.py:38-45 | a valid stored token is read and used with no refresh, no browser flow and no write |
| Auth.PackagedAcquiresOnce | src/gcal_mcp/__init__.py:45-55 | without a valid token exactly one of refresh or browser flow runs; refresh runs exactly when the token is expired and has a refresh token; on success the last step is one write of the returned credentials; the only failure is an authorization error |
| Auth.PackagedServiceValid | src/gcal_mcp/__init__.py:36-57 | the service is always built with valid credentials, and the token is written at most once |
| Auth.CorruptTokenTreatedAsAbsent | src/gcal_mcp/__init__.py:38-43 | a token file that fails with a JSON or value error gives the same outcome as no file; apart from the read attempt the steps are the same, and they include the browser flow |
| Auth.ScriptCorruptTokenRaises | server.py:25-26 | in server.py an unloadable token file raises before any refresh, flow or write |
| Auth.ScriptDecision | server.py:28-39 | a valid token is used without a write; an expired token with a refresh token is refreshed and then written once; otherwise a missing `credentials.json` raises `FileNotFoundError` with no flow and no write; at most one write happens, and returned credentials are valid |
| Auth.PackagedPersistedTokenReused | src/gcal_mcp/__init__.py:38-55 | reloading a token just persisted reuses it (no second refresh, flow or write) when it carries a refresh token; a token without one no longer loads, and the next call runs the browser flow again |
| Auth.ScriptPersistedTokenReused | server.py:25-39 | the same round trip for server.py, where a persisted token without a refresh token makes the next call raise |
| Auth.VariantsAgree | server.py:19-41 | with a loadable (or no) token file and a `credentials.json`, server.py reaches the same outcome as the packaged variant through the same steps, except that it does not create the token directory |
| Tools.Guard | src/gcal_mcp/__init__.py:99-100 | only `HttpError` becomes a returned `prefix + detail` string; every other exception escapes unchanged, and a successful body is returned as is |
| Tools.UpcomingEvents | src/gcal_mcp/__init__.py:71-100 | a credential failure escapes; an API error gives `"Error fetching events: …"`; an empty or missing item list gives `"No upcoming events found."`; a non-empty list gives exactly the `UpcomingText` of the items, or raises `KeyError('start')` exactly when that formatting fails; an `HttpError` never escapes |
| Tools.EventsForDate | src/gcal_mcp/__init__.py:114-147 | a credential failure escapes first; an unparsable date then escapes as `ValueError`, and 9999-12-31 as `OverflowError` before any API call; an API error gives `"Error fetching events: …"` (the same prefix as the upcoming tool); an empty list gives `"No events found for {date}."`; a non-empty list gives exactly the `DateText` of the items, or `KeyError('start')` exactly when that fails |
| Tools.SearchEvents | src/gcal_mcp/__init__.py:164-194 | an API error gives `"Error searching events: …"`; an empty list gives `"No events found matching '{query}'."`; a non-empty list gives exactly the `SearchText` of the items, or `KeyError('start')` exactly when that fails; credential failures escape |
| Tools.ListCalendars | server.py:186-204 | an API error gives `"Error listing calendars: …"`; an empty list gives `"No calendars found."`; a non-empty list gives exactly the `CalendarsText` of the items; once credentials are obtained the tool always returns text |
| Tools.UpcomingRaisesOnlyOnMissingStart | src/gcal_mcp/__init__.py:86-100 | once credentials are obtained, the upcoming tool raises if and only if the API returned an event without a `start` key |
| Tools.SearchRaisesOnlyOnMissingStart | src/gcal_mcp/__init__.py:180-194 | once credentials are obtained, the search tool raises if and only if the API returned an event without a `start` key |
| Tools.DateRaisesOnlyOnBadDateOrMissingStart | src/gcal_mcp/__init__.py:117-147 | once credentials are obtained, the date tool raises if and only if the date is unparsable, is 9999-12-31, or the API returned an event without `start` |
| Tools.DateToolAsksOnlyForTheDay | src/gcal_mcp/__init__.py:117-133 | the date tool's result depends on the API only through the one query for the requested UTC day |
| Variants.ScriptTokenErrorEscapesTools | server.py:21-26 | in server.py an unloadable token file escapes every one of the four tools as an exception |
| Variants.ScriptMissingSecretsEscapeTools | server.py:32-36 | in server.py, with no usable token and no `credentials.json`, every tool raises `FileNotFoundError` |
| Variants.PackagedToolsRaiseOnlyAuthErrors | src/gcal_mcp/__init__.py:36-55 | in the packaged variant the credential step fails only with an authorization error, which escapes all four tools; with a corrupt token file and a working browser flow, the tool returns text |

## Left out

- FastMCP server construction, `@mcp.tool` registration and `main` / `mcp.run` are runtime plumbing and are not modelled.
- The calendar API (`build`, `events().list`, `calendarList().list`, `.execute()`) is a network service. A tool receives it as an arbitrary function from query to page or HTTP error text. Pagination is not modelled.
- The OAuth library (`Credentials.from_authorized_user_*`, `creds.refresh`, `InstalledAppFlow`) is reduced to the booleans `valid`, `expired` and has-refresh-token, plus whether refresh and the browser flow succeed. `CLIENT_CONFIG`, `SCOPES` and the token paths are constants with no behaviour here.
- File I/O appears only as effects. Read failures other than a parse error (`OSError`) and failures of `mkdir` or of the token write are not modelled.
- `datetime.now`, `fromisoformat` and `isoformat` are library behaviour. The date tool receives the parsed fields, or `None` for a string that `fromisoformat` rejects. `now` is an abstract instant.
- `str(HttpError)` is library behaviour and is given as the error's detail text.
- API records keep only string-valued keys. A key that is present with a JSON `null` value, or with a non-string value, is not modelled. A `primary` flag other than true, false or absent is not modelled either.
- Concurrent tool calls racing on the token file are not modelled; the source does no locking.
- Dates are limited to Python's `datetime` range, 0001-01-01 to 9999-12-31; `fromisoformat` rejects anything outside it, and the model counts that as the unparsable case.
- Tool parameters have no defaults in the model. The source's `max_results=10` and `calendar_id="primary"` are ordinary arguments here, given explicitly on every call.
- Tools.EventsForDate: uses the intended midnight window `Queries.DayWindow` rather than the coded one (see Findings). The two agree on every date-only string.
- Format.UpcomingLayout: the physical-line statements, like those of Format.DateLayout, Format.SearchLayout and Format.EventsLayout, assume that no shown field contains a newline and that no start text contains `": "`. A field with a newline would add physical lines.
- Format.CalendarsLayout: stated only for names and ids without newlines, for the same reason.
- Tools.DateToolAsksOnlyForTheDay: its exact-UTC-day coverage is stated for the corrected query. For a date string with fractional seconds, the code's query starts that many microseconds after midnight (see Findings).
- Queries.DateQueryBounds: states the query built from the corrected window. The code's query starts at midnight plus the parsed microsecond (see Findings).
- Auth.PackagedServiceValid: that credentials are valid after a refresh or the browser flow is assumed of the OAuth library, not derived. So is the claim in Auth.ScriptDecision.
- Variants.PackagedToolsRaiseOnlyAuthErrors: the token state `Corrupt` stands only for the load failures the packaged variant catches (`json.JSONDecodeError` and `ValueError`). A token file holding valid JSON that is not an object makes google-auth fail with a different error (`AttributeError`). That error escapes the packaged variant too, and it is not modelled.
- Auth.PackagedPersistedTokenReused: which saved tokens load back (`Auth.Reload`) follows google-auth's `to_json` and `from_authorized_user_info`, which are not part of this model. The reload is assumed to happen before the access token expires.
- Auth.ScriptPersistedTokenReused: rests on the same library assumptions as the packaged round trip.
- Tools.UpcomingEvents: the tool contracts describe only the tool's result. The credential effects are stated separately in `Auth`.

## Findings

| source | as written | input that shows it | evidently intended | confidence | as-written member | corrected member |
|---|---|---|---|---|---|---|
| src/gcal_mcp/__init__.py:117-119 (also server.py:101-103) | `fromisoformat(date).replace(hour=0, minute=0, second=0, tzinfo=utc)` keeps the microsecond field | `"2024-03-15T10:30:00.500"` gives `timeMin` 2024-03-15T00:00:00.500000+00:00, so the first half second of the day lies outside the window | `timeMin` at 00:00:00 of the requested UTC day | not executed; follows from `datetime.replace` semantics, and only inputs with fractional seconds are affected | Queries.AsWrittenWindowMissesMidnight | Queries.DayWindow |
