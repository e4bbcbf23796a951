/** The records the calendar API hands back, the exceptions the tools can meet, and
    what a tool call ends in. Only the JSON keys the tools read are kept. */
module Items {
  import opened Wrappers

  /** An event's `start` object: a timed event has `dateTime`, an all-day event `date`. */
  datatype EventStart = EventStart(dateTime: Option<string>, date: Option<string>)

  /** One element of `events().list(...)["items"]`. A missing `start` key is kept
      representable because reading it is an unguarded subscript. */
  datatype Event = Event(start: Option<EventStart>, summary: Option<string>)

  /** One element of `calendarList().list()["items"]`; `primary` is absent on
      every calendar but the user's own. */
  datatype Calendar = Calendar(summary: Option<string>, id: Option<string>, primary: Option<bool>)

  /** A list response; `items` is absent when the service omits it. */
  datatype Page<T> = Page(items: Option<seq<T>>)

  /** `response.get("items", [])`. */
  function ItemsOf<T>(page: Page<T>): seq<T> {
    page.items.GetOr([])
  }

  /** The exceptions that can arise inside a tool call. */
  datatype Exception =
    | HttpError(detail: string)   // raised by the API client; `detail` is `str(error)`
    | KeyError(key: string)       // an event without a `start` key
    | ValueError                  // `datetime.fromisoformat` rejected the date string
    | OverflowError               // the day after 9999-12-31 is past `datetime.max`
    | TokenFileInvalid            // server.py: `token.json` could not be loaded
    | FileNotFoundError           // server.py: `credentials.json` is missing
    | AuthError                   // the token refresh or the browser flow failed

  /** What the host runtime sees: a returned string, or an exception that escaped the tool. */
  datatype ToolResult = Text(text: string) | Raised(error: Exception)

  /** Python's `f"{x}"` of an optional string: a missing value renders as `None`. */
  function Render(x: Option<string>): string {
    match x
    case Some(s) => s
    case None => "None"
  }

  /** Python truthiness of the optional `primary` flag. */
  predicate Truthy(flag: Option<bool>) {
    flag == Some(true)
  }
}
