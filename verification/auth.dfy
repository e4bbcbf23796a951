/** `get_calendar_service` in its two variants: the packaged one
    (src/gcal_mcp/__init__.py, embedded client configuration, token under
    ~/.config/gcal-mcp) and the standalone script (server.py, `credentials.json`
    and `token.json` in the working directory). File and network I/O appear
    as effects; the OAuth library is reduced to three booleans. */
module Auth {
  import opened Wrappers
  import opened Items

  /** The parts of a google-auth `Credentials` object the decision reads. */
  datatype Creds = Creds(valid: bool, expired: bool, hasRefreshToken: bool)

  /** The token file as found on disk. */
  datatype TokenFile = NoFile | Corrupt | Stored(creds: Creds)

  /** The world the decision runs in: the token file, whether `credentials.json`
      exists (server.py only), and how the refresh call and the browser flow turn out. */
  datatype Env = Env(
    token: TokenFile,
    secretsFile: bool,
    refreshSucceeds: bool,
    flowSucceeds: bool,
    flowRefreshToken: bool)

  /** Observable steps, in order. */
  datatype Effect =
    | ReadToken              // load token.json
    | Refresh                // `creds.refresh(Request())`
    | InteractiveFlow        // `flow.run_local_server(port=0)`
    | MakeConfigDir          // `TOKEN_PATH.parent.mkdir(...)`, packaged variant only
    | WriteToken(creds: Creds)

  /** The effects of one call and the credentials the service is built with, or the
      exception that escaped. */
  datatype Run = Run(effects: seq<Effect>, service: Result<Creds, Exception>)

  /** A refreshed token is valid, no longer expired, and keeps its refresh token. */
  function Refreshed(c: Creds): Creds {
    Creds(true, false, c.hasRefreshToken)
  }

  /** The token the browser flow issues. */
  function Issued(env: Env): Creds {
    Creds(true, false, env.flowRefreshToken)
  }

  /** The file is only read when it exists. */
  function TokenReads(token: TokenFile): seq<Effect> {
    if token.NoFile? then [] else [ReadToken]
  }

  /** The stored token can be used as it is. */
  predicate StoredValid(token: TokenFile) {
    token.Stored? && token.creds.valid
  }

  /** The stored token is invalid but `creds.expired and creds.refresh_token`. */
  predicate StoredRefreshable(token: TokenFile) {
    token.Stored? && !token.creds.valid && token.creds.expired && token.creds.hasRefreshToken
  }

  /** Packaged variant. A token file that fails to parse is dropped silently and the
      call proceeds as if there were none; a refresh or flow failure escapes. */
  function PackagedService(env: Env): (run: Run)
    ensures ReadToken in run.effects <==> !env.token.NoFile?
    ensures run.service.Failure? ==> run.service.error == AuthError
    ensures MakeConfigDir in run.effects <==> run.service.Success? && !StoredValid(env.token)
    ensures run.service.Success? && !StoredValid(env.token) ==>
      |run.effects| > 0 && run.effects[|run.effects| - 1] == WriteToken(run.service.value)
  {
    var loads := TokenReads(env.token);
    if StoredValid(env.token) then
      Run(loads, Success(env.token.creds))
    else if StoredRefreshable(env.token) then
      if env.refreshSucceeds then
        var c := Refreshed(env.token.creds);
        Run(loads + [Refresh, MakeConfigDir, WriteToken(c)], Success(c))
      else
        Run(loads + [Refresh], Failure(AuthError))
    else if env.flowSucceeds then
      var c := Issued(env);
      Run(loads + [InteractiveFlow, MakeConfigDir, WriteToken(c)], Success(c))
    else
      Run(loads + [InteractiveFlow], Failure(AuthError))
  }

  /** Script variant. A token file that fails to load escapes as an exception, the
      browser flow needs `credentials.json`, and no directory is created. */
  function ScriptService(env: Env): (run: Run)
    ensures ReadToken in run.effects <==> !env.token.NoFile?
    ensures MakeConfigDir !in run.effects
    ensures run.service == Failure(TokenFileInvalid) <==> env.token.Corrupt?
    ensures run.service.Failure? ==> run.service.error in {TokenFileInvalid, FileNotFoundError, AuthError}
    ensures run.service.Success? && !StoredValid(env.token) ==>
      |run.effects| > 0 && run.effects[|run.effects| - 1] == WriteToken(run.service.value)
  {
    var loads := TokenReads(env.token);
    if env.token.Corrupt? then
      Run(loads, Failure(TokenFileInvalid))
    else if StoredValid(env.token) then
      Run(loads, Success(env.token.creds))
    else if StoredRefreshable(env.token) then
      if env.refreshSucceeds then
        var c := Refreshed(env.token.creds);
        Run(loads + [Refresh, WriteToken(c)], Success(c))
      else
        Run(loads + [Refresh], Failure(AuthError))
    else if !env.secretsFile then
      Run(loads, Failure(FileNotFoundError))
    else if env.flowSucceeds then
      var c := Issued(env);
      Run(loads + [InteractiveFlow, WriteToken(c)], Success(c))
    else
      Run(loads + [InteractiveFlow], Failure(AuthError))
  }

  // ---------------------------------------------------------------------------
  // Counting effects

  predicate IsWrite(e: Effect) {
    e.WriteToken?
  }

  predicate IsAcquisition(e: Effect) {
    e == Refresh || e == InteractiveFlow
  }

  /** How many effects of `effects` satisfy `p`. */
  function Count(effects: seq<Effect>, p: Effect -> bool): nat {
    if |effects| == 0 then 0
    else (if p(effects[0]) then 1 else 0) + Count(effects[1..], p)
  }

  /** Counting over the short effect lists the decision produces. */
  lemma CountSmall(s: seq<Effect>, p: Effect -> bool)
    requires |s| <= 4
    ensures Count(s, p) == (if |s| == 0 then 0 else (if p(s[0]) then 1 else 0) + Count(s[1..], p))
    ensures |s| == 1 ==> Count(s, p) == (if p(s[0]) then 1 else 0)
    ensures |s| == 2 ==> Count(s, p) == (if p(s[0]) then 1 else 0) + (if p(s[1]) then 1 else 0)
    ensures |s| == 3 ==> Count(s, p) == (if p(s[0]) then 1 else 0) + (if p(s[1]) then 1 else 0)
                                        + (if p(s[2]) then 1 else 0)
    ensures |s| == 4 ==> Count(s, p) == (if p(s[0]) then 1 else 0) + (if p(s[1]) then 1 else 0)
                                        + (if p(s[2]) then 1 else 0) + (if p(s[3]) then 1 else 0)
  {
  }

  // ---------------------------------------------------------------------------
  // Properties of the decision

  /** Packaged variant, valid token: read it and use it, with no refresh, no browser
      flow and no write. */
  lemma PackagedValidTokenReused(env: Env)
    requires StoredValid(env.token)
    ensures PackagedService(env).effects == [ReadToken]
    ensures PackagedService(env).service == Success(env.token.creds)
  {
  }

  /** Packaged variant, no usable token: exactly one of refresh (precisely when the
      stored token is expired and refreshable) or the browser flow runs, then, if it
      succeeded, exactly one write, of the credentials handed back, as the last step. */
  lemma {:induction false} PackagedAcquiresOnce(env: Env)
    requires !StoredValid(env.token)
    ensures Count(PackagedService(env).effects, IsAcquisition) == 1
    ensures Refresh in PackagedService(env).effects <==> StoredRefreshable(env.token)
    ensures InteractiveFlow in PackagedService(env).effects <==> !StoredRefreshable(env.token)
    ensures Count(PackagedService(env).effects, IsWrite) == (if PackagedService(env).service.Success? then 1 else 0)
    ensures PackagedService(env).service.Success? ==>
      PackagedService(env).effects[|PackagedService(env).effects| - 1] == WriteToken(PackagedService(env).service.value)
    ensures PackagedService(env).service.Failure? ==> PackagedService(env).service.error == AuthError
  {
    var loads := TokenReads(env.token);
    var step := if StoredRefreshable(env.token) then Refresh else InteractiveFlow;
    var other := if StoredRefreshable(env.token) then InteractiveFlow else Refresh;
    var run := PackagedService(env);
    if run.service.Success? {
      AcquiredTail(loads, step, other, run.service.value);
    } else {
      FailedTail(loads, step, other);
    }
  }

  /** The effects of an acquisition that succeeded: one acquisition, one write. */
  lemma AcquiredTail(loads: seq<Effect>, step: Effect, other: Effect, c: Creds)
    requires loads == [] || loads == [ReadToken]
    requires {step, other} == {Refresh, InteractiveFlow}
    ensures Count(loads + [step, MakeConfigDir, WriteToken(c)], IsAcquisition) == 1
    ensures Count(loads + [step, MakeConfigDir, WriteToken(c)], IsWrite) == 1
    ensures other !in loads + [step, MakeConfigDir, WriteToken(c)]
  {
    var s := loads + [step, MakeConfigDir, WriteToken(c)];
    CountSmall(s, IsAcquisition);
    CountSmall(s, IsWrite);
    assert forall i :: 0 <= i < |s| ==> s[i] != other;
  }

  /** The effects of an acquisition that failed: one acquisition, no write. */
  lemma FailedTail(loads: seq<Effect>, step: Effect, other: Effect)
    requires loads == [] || loads == [ReadToken]
    requires {step, other} == {Refresh, InteractiveFlow}
    ensures Count(loads + [step], IsAcquisition) == 1
    ensures Count(loads + [step], IsWrite) == 0
    ensures other !in loads + [step]
  {
    var s := loads + [step];
    CountSmall(s, IsAcquisition);
    CountSmall(s, IsWrite);
    assert forall i :: 0 <= i < |s| ==> s[i] != other;
  }

  /** Every packaged call that hands back credentials hands back valid ones, and
      writes the token at most once. */
  lemma {:induction false} PackagedServiceValid(env: Env)
    ensures PackagedService(env).service.Success? ==> PackagedService(env).service.value.valid
    ensures Count(PackagedService(env).effects, IsWrite) <= 1
  {
    if StoredValid(env.token) {
      assert Count([ReadToken], IsWrite) == 0;
    } else {
      PackagedAcquiresOnce(env);
    }
  }

  /** Packaged variant: a token file that fails to parse is treated exactly like a
      missing one, apart from the attempt to read it. */
  lemma CorruptTokenTreatedAsAbsent(env: Env)
    requires env.token.Corrupt?
    ensures PackagedService(env).service == PackagedService(env.(token := NoFile)).service
    ensures PackagedService(env).effects == [ReadToken] + PackagedService(env.(token := NoFile)).effects
    ensures InteractiveFlow in PackagedService(env).effects
  {
  }

  /** Script variant: a token file that fails to load escapes as an exception,
      before any refresh, flow or write. */
  lemma ScriptCorruptTokenRaises(env: Env)
    requires env.token.Corrupt?
    ensures ScriptService(env) == Run([ReadToken], Failure(TokenFileInvalid))
  {
  }

  /** Script variant, valid token: no write. Expired and refreshable: refresh, then
      one write of the refreshed token. Otherwise a missing `credentials.json`
      raises `FileNotFoundError` with no flow and no write. */
  lemma {:induction false} ScriptDecision(env: Env)
    requires !env.token.Corrupt?
    ensures StoredValid(env.token) ==>
      ScriptService(env) == Run([ReadToken], Success(env.token.creds))
    ensures StoredRefreshable(env.token) && env.refreshSucceeds ==>
      ScriptService(env).effects == [ReadToken, Refresh, WriteToken(Refreshed(env.token.creds))]
    ensures !StoredValid(env.token) && !StoredRefreshable(env.token) && !env.secretsFile ==>
      ScriptService(env).service == Failure(FileNotFoundError)
      && Count(ScriptService(env).effects, IsWrite) == 0
      && InteractiveFlow !in ScriptService(env).effects
    ensures Count(ScriptService(env).effects, IsWrite) <= 1
    ensures ScriptService(env).service.Success? ==> ScriptService(env).service.value.valid
  {
    var run := ScriptService(env);
    CountSmall(run.effects, IsWrite);
    if !StoredValid(env.token) && !StoredRefreshable(env.token) && !env.secretsFile {
      assert InteractiveFlow !in run.effects by {
        assert forall i :: 0 <= i < |run.effects| ==> run.effects[i] == ReadToken;
      }
    }
  }

  /** What the next call finds in a token file holding `c`. `to_json` leaves out a
      missing refresh token, and `from_authorized_user_info` rejects a file without
      one with `ValueError`, so only a token with a refresh token loads back. */
  function Reload(c: Creds): TokenFile {
    if c.hasRefreshToken then Stored(c) else Corrupt
  }

  /** Reloading a token the packaged variant just persisted reuses it (no second
      refresh, no browser flow, no second write) when it carries a refresh token;
      a token without one no longer loads, and the browser flow runs again. */
  lemma PackagedPersistedTokenReused(env: Env)
    requires PackagedService(env).service.Success?
    requires WriteToken(PackagedService(env).service.value) in PackagedService(env).effects
    ensures var c := PackagedService(env).service.value;
      c.hasRefreshToken ==> PackagedService(env.(token := Reload(c))) == Run([ReadToken], Success(c))
    ensures var c := PackagedService(env).service.value;
      !c.hasRefreshToken ==> InteractiveFlow in PackagedService(env.(token := Reload(c))).effects
  {
    PackagedServiceValid(env);
    var c := PackagedService(env).service.value;
    if !c.hasRefreshToken {
      CorruptTokenTreatedAsAbsent(env.(token := Reload(c)));
    }
  }

  /** The same round trip for the script variant, where a token that no longer
      loads makes the next call raise. */
  lemma ScriptPersistedTokenReused(env: Env)
    requires ScriptService(env).service.Success?
    requires WriteToken(ScriptService(env).service.value) in ScriptService(env).effects
    ensures var c := ScriptService(env).service.value;
      c.hasRefreshToken ==> ScriptService(env.(token := Reload(c))) == Run([ReadToken], Success(c))
    ensures var c := ScriptService(env).service.value;
      !c.hasRefreshToken ==> ScriptService(env.(token := Reload(c))) == Run([ReadToken], Failure(TokenFileInvalid))
  {
    ScriptDecision(env);
  }

  /** `effects` with the directory creation removed. */
  function WithoutMakeDir(effects: seq<Effect>): (r: seq<Effect>)
    ensures MakeConfigDir !in r
  {
    if |effects| == 0 then []
    else (if effects[0] == MakeConfigDir then [] else [effects[0]]) + WithoutMakeDir(effects[1..])
  }

  lemma {:induction false} WithoutMakeDirConcat(a: seq<Effect>, b: seq<Effect>)
    ensures WithoutMakeDir(a + b) == WithoutMakeDir(a) + WithoutMakeDir(b)
    decreases |a|
  {
    if |a| > 0 {
      assert (a + b)[1..] == a[1..] + b;
      WithoutMakeDirConcat(a[1..], b);
    } else {
      assert a + b == b;
    }
  }

  lemma {:induction false} WithoutMakeDirAbsent(effects: seq<Effect>)
    requires MakeConfigDir !in effects
    ensures WithoutMakeDir(effects) == effects
    decreases |effects|
  {
    if |effects| > 0 {
      assert effects[0] in effects;
      assert forall e :: e in effects[1..] ==> e in effects;
      WithoutMakeDirAbsent(effects[1..]);
      assert [effects[0]] + effects[1..] == effects;
    }
  }

  /** Where the script finds a loadable token file (or none) and `credentials.json`,
      the two variants reach the same outcome through the same steps, except that
      only the packaged one creates the token directory. */
  lemma {:induction false} VariantsAgree(env: Env)
    requires !env.token.Corrupt? && env.secretsFile
    ensures ScriptService(env).service == PackagedService(env).service
    ensures ScriptService(env).effects == WithoutMakeDir(PackagedService(env).effects)
  {
    var loads := TokenReads(env.token);
    var p := PackagedService(env);
    if StoredValid(env.token) {
      WithoutMakeDirAbsent(loads);
    } else if StoredRefreshable(env.token) {
      if env.refreshSucceeds {
        DropMakeDir(loads, Refresh, p.effects[|p.effects| - 1]);
      } else {
        WithoutMakeDirAbsent(loads + [Refresh]);
      }
    } else if env.flowSucceeds {
      DropMakeDir(loads, InteractiveFlow, p.effects[|p.effects| - 1]);
    } else {
      WithoutMakeDirAbsent(loads + [InteractiveFlow]);
    }
  }

  /** The packaged tail `[step, MakeConfigDir, write]` loses only its middle step. */
  lemma DropMakeDir(loads: seq<Effect>, step: Effect, write: Effect)
    requires loads == [] || loads == [ReadToken]
    requires step != MakeConfigDir && write != MakeConfigDir
    ensures WithoutMakeDir(loads + [step, MakeConfigDir, write]) == loads + [step, write]
  {
    WithoutMakeDirConcat(loads, [step, MakeConfigDir, write]);
    WithoutMakeDirAbsent(loads);
    assert [step, MakeConfigDir, write] == [step] + ([MakeConfigDir] + [write]);
    WithoutMakeDirConcat([step], [MakeConfigDir] + [write]);
    WithoutMakeDirConcat([MakeConfigDir], [write]);
    WithoutMakeDirAbsent([step]);
    WithoutMakeDirAbsent([write]);
    assert WithoutMakeDir([MakeConfigDir]) == [] by {
      assert [MakeConfigDir][1..] == [];
    }
  }
}
