/** How the two credential variants show through the tools: which exceptions
    escape a tool call in each. */
module Variants {
  import opened Wrappers
  import opened Items
  import opened Queries
  import opened Auth
  import opened Tools

  /** server.py: an unloadable token file escapes every tool as an exception
      instead of becoming an error string or a fresh authorization. */
  lemma ScriptTokenErrorEscapesTools(env: Env, date: string, parsed: Option<DateTimeFields>, query: string,
                                     now: Instant, maxResults: int, calendarId: string,
                                     api: EventsApi, reply: CalendarsReply)
    requires env.token.Corrupt?
    ensures UpcomingEvents(ScriptService(env).service, now, maxResults, calendarId, api) == Raised(TokenFileInvalid)
    ensures EventsForDate(ScriptService(env).service, date, parsed, calendarId, api) == Raised(TokenFileInvalid)
    ensures SearchEvents(ScriptService(env).service, query, now, maxResults, calendarId, api) == Raised(TokenFileInvalid)
    ensures ListCalendars(ScriptService(env).service, reply) == Raised(TokenFileInvalid)
  {
    ScriptCorruptTokenRaises(env);
  }

  /** server.py: with no usable token and no `credentials.json`, every tool escapes
      with `FileNotFoundError`, and the API is never consulted. */
  lemma ScriptMissingSecretsEscapeTools(env: Env, date: string, parsed: Option<DateTimeFields>, query: string,
                                        now: Instant, maxResults: int, calendarId: string,
                                        api: EventsApi, reply: CalendarsReply)
    requires !env.token.Corrupt? && !StoredValid(env.token) && !StoredRefreshable(env.token) && !env.secretsFile
    ensures UpcomingEvents(ScriptService(env).service, now, maxResults, calendarId, api) == Raised(FileNotFoundError)
    ensures EventsForDate(ScriptService(env).service, date, parsed, calendarId, api) == Raised(FileNotFoundError)
    ensures SearchEvents(ScriptService(env).service, query, now, maxResults, calendarId, api) == Raised(FileNotFoundError)
    ensures ListCalendars(ScriptService(env).service, reply) == Raised(FileNotFoundError)
  {
    ScriptDecision(env);
  }

  /** src/gcal_mcp/__init__.py: the only exception the credential step lets out of a
      tool is an authorization failure, and it escapes every one of the four tools;
      a corrupt token file never surfaces. */
  lemma PackagedToolsRaiseOnlyAuthErrors(env: Env, date: string, parsed: Option<DateTimeFields>, query: string,
                                         now: Instant, maxResults: int, calendarId: string,
                                         api: EventsApi, reply: CalendarsReply)
    ensures PackagedService(env).service.Failure? ==>
      && PackagedService(env).service.error == AuthError
      && UpcomingEvents(PackagedService(env).service, now, maxResults, calendarId, api) == Raised(AuthError)
      && EventsForDate(PackagedService(env).service, date, parsed, calendarId, api) == Raised(AuthError)
      && SearchEvents(PackagedService(env).service, query, now, maxResults, calendarId, api) == Raised(AuthError)
      && ListCalendars(PackagedService(env).service, reply) == Raised(AuthError)
    ensures env.token.Corrupt? && env.flowSucceeds ==>
      PackagedService(env).service.Success?
      && ListCalendars(PackagedService(env).service, reply).Text?
  {
    if !StoredValid(env.token) {
      PackagedAcquiresOnce(env);
    }
  }
}
