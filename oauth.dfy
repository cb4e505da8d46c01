/** The OAuth 2.0 authorization code grant of src/auth/oauth.ts (section 4.1 of
    RFC 6749): the consent request, the exchange of a code for a token record,
    the local callback that settles the flow once, and the refresh of an expired
    stored token (section 6 of RFC 6749). Google's token endpoint is an oracle:
    each call's answer is a parameter. */
module OAuth {
  import opened Wrappers
  import opened Strings
  import opened Host
  import opened Credentials

  const WebmastersScope := "https://www.googleapis.com/auth/webmasters"
  const RedirectUri := "http://localhost:3000/oauth/callback"
  const CallbackPath := "/oauth/callback"
  /** The lifetime assumed for a token that comes without an expiry. */
  const DefaultLifetimeMs := 3600 * 1000

  datatype OAuth2Client = OAuth2Client(clientId: string, clientSecret: string, redirectUri: string)

  /** `createOAuth2Client`: throws when the credentials are missing. */
  function CreateOAuth2Client(env: Env): (r: Result<OAuth2Client, string>)
    ensures r.Success? <==> GetOAuthCredentials(env).Success?
    ensures r.Success? ==>
      && r.value.clientId == env[ClientIdVariable]
      && r.value.clientSecret == env[ClientSecretVariable]
      && r.value.redirectUri == RedirectUri
    ensures r.Failure? ==> r.error == MissingOAuthMessage
  {
    match GetOAuthCredentials(env)
    case Failure(e) => Failure(e)
    case Success(c) => Success(OAuth2Client(c.clientId, c.clientSecret, RedirectUri))
  }

  /** The options `getAuthUrl` passes to `generateAuthUrl`. */
  datatype ConsentOptions = ConsentOptions(accessType: string, scope: seq<string>, prompt: string)

  /** Offline access, so that Google issues a refresh token, and consent forced
      every time, for the one webmasters scope. */
  function ConsentRequest(): (o: ConsentOptions)
    ensures o.accessType == "offline" && o.prompt == "consent"
    ensures o.scope == [WebmastersScope]
  {
    ConsentOptions("offline", [WebmastersScope], "consent")
  }

  // ---------------------------------------------------------------- token records

  /** The `tokens` of `getToken(code)`: every field may be missing. */
  datatype IssuedTokens = IssuedTokens(
    accessToken: Option<string>,
    refreshToken: Option<string>,
    tokenType: Option<string>,
    expiryDate: Option<int>,
    scope: Option<string>)

  /** `TokenData`: the record kept in the token file. */
  datatype TokenData = TokenData(accessToken: string, refreshToken: string, tokenType: string, expiryDate: int, scope: Option<string>)

  const NoTokensMessage := "Failed to obtain tokens from Google"

  /** `exchangeCodeForTokens`: `issued` is what `getToken` answered (a failure
      is its thrown message); `now` is `Date.now()`. */
  function ExchangeCodeForTokens(issued: Result<IssuedTokens, string>, now: int): (r: Result<TokenData, string>)
    ensures r.Success? <==> issued.Success? && Truthy(issued.value.accessToken) && Truthy(issued.value.refreshToken)
    ensures issued.Failure? ==> r == Failure(issued.error)
    ensures issued.Success? && r.Failure? ==> r.error == NoTokensMessage
    ensures r.Success? ==>
      && r.value.accessToken == issued.value.accessToken.value
      && r.value.refreshToken == issued.value.refreshToken.value
      && r.value.tokenType == issued.value.tokenType.GetOr("Bearer")
      && r.value.expiryDate == issued.value.expiryDate.GetOr(now + DefaultLifetimeMs)
      && r.value.scope == issued.value.scope
  {
    match issued
    case Failure(e) => Failure(e)
    case Success(t) =>
      if !Truthy(t.accessToken) || !Truthy(t.refreshToken) then Failure(NoTokensMessage)
      else Success(TokenData(
        t.accessToken.value,
        t.refreshToken.value,
        t.tokenType.GetOr("Bearer"),
        t.expiryDate.GetOr(now + DefaultLifetimeMs),
        t.scope))
  }

  /** The JSON value `saveToken` writes; an absent scope writes no key. */
  function TokenJson(t: TokenData): (j: Json)
    ensures j.JObj?
    ensures "scope" in j.fields <==> t.scope.Some?
  {
    var fields := map[
      "access_token" := JStr(t.accessToken),
      "refresh_token" := JStr(t.refreshToken),
      "token_type" := JStr(t.tokenType),
      "expiry_date" := JNum(t.expiryDate as real)];
    JObj(if t.scope.Some? then fields["scope" := JStr(t.scope.value)] else fields)
  }

  /** The fields of a stored token as `TokenData`, when they have its types. */
  function TokenFromJson(j: Json): (r: Option<TokenData>)
    ensures r.Some? ==> j.JObj?
  {
    match (Field(j, "access_token"), Field(j, "refresh_token"), Field(j, "token_type"), Field(j, "expiry_date"))
    case (Some(JStr(a)), Some(JStr(rt)), Some(JStr(tt)), Some(JNum(e))) =>
      if e.Floor as real != e then None
      else
        var scope := Field(j, "scope");
        if scope.None? then Some(TokenData(a, rt, tt, e.Floor, None))
        else if scope.value.JStr? then Some(TokenData(a, rt, tt, e.Floor, Some(scope.value.s)))
        else None
    case _ => None
  }

  /** The written record reads back as the same record. */
  lemma TokenJsonRoundTrip(t: TokenData)
    ensures TokenFromJson(TokenJson(t)) == Some(t)
  {
    var j := TokenJson(t);
    assert Field(j, "access_token") == Some(JStr(t.accessToken));
    assert Field(j, "refresh_token") == Some(JStr(t.refreshToken));
    assert Field(j, "token_type") == Some(JStr(t.tokenType));
    assert Field(j, "expiry_date") == Some(JNum(t.expiryDate as real));
    assert (t.expiryDate as real).Floor == t.expiryDate;
    if t.scope.Some? {
      assert Field(j, "scope") == Some(JStr(t.scope.value));
    } else {
      assert Field(j, "scope") == None;
    }
  }

  /** `saveToken`: overwrites the token path with the whole record. */
  method SaveToken(env: Env, disk: Disk, token: Json) returns (r: Outcome<string>)
    modifies disk
    ensures r == WriteOutcome(disk.readOnly, GetTokenPath(env))
    ensures disk.files == if r.Pass? then old(disk.files)[GetTokenPath(env) := JsonText(token)] else old(disk.files)
  {
    r := disk.WriteJson(GetTokenPath(env), token);
  }

  /** After a save that did not throw, loading the token gives what was saved. */
  lemma SaveThenLoad(env: Env, files: Files, readOnly: set<string>, token: Json)
    requires WriteOutcome(readOnly, GetTokenPath(env)).Pass?
    ensures LoadStoredToken(env, files[GetTokenPath(env) := JsonText(token)]) == Some(token)
  {
  }

  // ---------------------------------------------------------------- the callback flow

  /** How the one promise of `runOAuthFlow` stands. */
  datatype Settlement = Pending | Resolved(token: TokenData) | Rejected(message: string)

  /** A request to the local server: its path and its `code` and `error` query
      parameters (`searchParams.get`, `None` for `null`). */
  datatype Request = Request(pathname: string, code: Option<string>, error: Option<string>)

  /** What the handler does with one request: the status it answers with (none
      for paths it ignores), how it settles the flow, the record it saved, and
      whether it closes the server at once. */
  datatype Handling = Handling(status: Option<int>, settle: Settlement, saved: Option<TokenData>, closeNow: bool)

  const NoCodeMessage := "No authorization code received"
  const FlowTimeoutMessage := "OAuth timeout - no callback received within 5 minutes"

  function OAuthErrorMessage(error: string): string {
    "OAuth error: " + error
  }

  /** The request handler of `runOAuthFlow`. An `error` parameter wins over a
      missing code, which wins over a present one; a code is exchanged and the
      token saved before the flow resolves, and a failure of either answers 500
      and rejects with the thrown message. `save` is what writing the token file
      would do. */
  function HandleCallback(req: Request, issued: Result<IssuedTokens, string>, now: int, save: Outcome<string>): (h: Handling)
    ensures req.pathname != CallbackPath ==> h == Handling(None, Pending, None, false)
    ensures req.pathname == CallbackPath && Truthy(req.error) ==>
      h == Handling(Some(400), Rejected(OAuthErrorMessage(req.error.value)), None, true)
    ensures req.pathname == CallbackPath && !Truthy(req.error) && !Truthy(req.code) ==>
      h == Handling(Some(400), Rejected(NoCodeMessage), None, true)
    ensures req.pathname == CallbackPath && !Truthy(req.error) && Truthy(req.code) ==>
      match ExchangeCodeForTokens(issued, now)
      case Failure(e) => h == Handling(Some(500), Rejected(e), None, true)
      case Success(t) =>
        match save
        case Fail(e) => h == Handling(Some(500), Rejected(e), None, true)
        case Pass => h == Handling(Some(200), Resolved(t), Some(t), false)
  {
    if req.pathname != CallbackPath then Handling(None, Pending, None, false)
    else if Truthy(req.error) then Handling(Some(400), Rejected(OAuthErrorMessage(req.error.value)), None, true)
    else if !Truthy(req.code) then Handling(Some(400), Rejected(NoCodeMessage), None, true)
    else match ExchangeCodeForTokens(issued, now)
      case Failure(e) => Handling(Some(500), Rejected(e), None, true)
      case Success(t) =>
        match save
        case Fail(e) => Handling(Some(500), Rejected(e), None, true)
        case Pass => Handling(Some(200), Resolved(t), Some(t), false)
  }

  /** The flow's state: the promise and whether the server still accepts requests. */
  datatype FlowState = FlowState(outcome: Settlement, listening: bool)

  /** What can happen to a running flow: a request arrives (with the answer of
      the token endpoint and of the token write at that moment), the 5-minute
      timer fires, or the 1-second close timer armed by a success fires. */
  datatype Event =
    | Arrive(req: Request, issued: Result<IssuedTokens, string>, now: int, save: Outcome<string>)
    | TimeoutFired
    | CloseTimerFired

  /** A promise settles once: later calls of `resolve` or `reject` do nothing. */
  function Settle(current: Settlement, next: Settlement): (r: Settlement)
    ensures current.Pending? ==> r == next
    ensures !current.Pending? ==> r == current
  {
    if current.Pending? then next else current
  }

  const FlowStart := FlowState(Pending, true)

  /** One event of the flow. A closed server stays closed, the timeout always
      closes it, and only a callback request can resolve the flow. */
  function Step(s: FlowState, e: Event): (r: FlowState)
    ensures !s.listening ==> !r.listening
    ensures e.TimeoutFired? ==> !r.listening
    ensures r.outcome.Resolved? && !s.outcome.Resolved? ==> e.Arrive?
  {
    match e
    case Arrive(req, issued, now, save) =>
      if !s.listening then s
      else
        var h := HandleCallback(req, issued, now, save);
        FlowState(Settle(s.outcome, h.settle), !h.closeNow)
    case TimeoutFired => FlowState(Settle(s.outcome, Rejected(FlowTimeoutMessage)), false)
    case CloseTimerFired => if s.outcome.Resolved? then FlowState(s.outcome, false) else s
  }

  /** The flow after a sequence of events: a closed server never reopens. */
  function Run(s: FlowState, events: seq<Event>): (r: FlowState)
    ensures events == [] ==> r == s
    ensures !s.listening ==> !r.listening
    decreases |events|
  {
    if events == [] then s else Step(Run(s, events[..|events| - 1]), events[|events| - 1])
  }

  /** Once settled, no event changes the outcome: a timeout after success, a
      second callback, nothing. */
  lemma StepKeepsSettlement(s: FlowState, e: Event)
    requires !s.outcome.Pending?
    ensures Step(s, e).outcome == s.outcome
  {
  }

  lemma {:induction false} RunKeepsSettlement(s: FlowState, events: seq<Event>)
    requires !s.outcome.Pending?
    ensures Run(s, events).outcome == s.outcome
    decreases |events|
  {
    if events != [] {
      RunKeepsSettlement(s, events[..|events| - 1]);
      StepKeepsSettlement(Run(s, events[..|events| - 1]), events[|events| - 1]);
    }
  }

  lemma {:induction false} RunAppend(s: FlowState, a: seq<Event>, b: seq<Event>)
    ensures Run(s, a + b) == Run(Run(s, a), b)
    decreases |b|
  {
    if b == [] {
      assert a + b == a;
    } else {
      assert (a + b)[..|a + b| - 1] == a + b[..|b| - 1];
      RunAppend(s, a, b[..|b| - 1]);
    }
  }

  /** The first event that settles the flow decides its outcome for good. */
  lemma FirstSettlementWins(events: seq<Event>, i: nat)
    requires i < |events|
    requires Run(FlowStart, events[..i]).outcome.Pending?
    requires !Step(Run(FlowStart, events[..i]), events[i]).outcome.Pending?
    ensures Run(FlowStart, events).outcome == Step(Run(FlowStart, events[..i]), events[i]).outcome
  {
    var settling := events[..i + 1];
    var rest := events[i + 1..];
    RunSnoc(FlowStart, events, i);
    assert events == settling + rest;
    RunAppend(FlowStart, settling, rest);
    RunKeepsSettlement(Run(FlowStart, settling), rest);
  }

  /** Running one more event is one more step. */
  lemma RunSnoc(s: FlowState, events: seq<Event>, i: nat)
    requires i < |events|
    ensures Run(s, events[..i + 1]) == Step(Run(s, events[..i]), events[i])
  {
    var prefix := events[..i + 1];
    assert prefix[..|prefix| - 1] == events[..i];
  }

  /** The timeout rejects only a flow nothing has settled yet. */
  lemma TimeoutRejectsOnlyPending(s: FlowState)
    ensures s.outcome.Pending? ==> Step(s, TimeoutFired).outcome == Rejected(FlowTimeoutMessage)
    ensures !s.outcome.Pending? ==> Step(s, TimeoutFired).outcome == s.outcome
    ensures !Step(s, TimeoutFired).listening
  {
  }

  /** The flow resolves only with a record it has saved, answering 200. */
  lemma ResolvedOnlyAfterSave(req: Request, issued: Result<IssuedTokens, string>, now: int, save: Outcome<string>)
    ensures HandleCallback(req, issued, now, save).settle.Resolved? ==>
      && save.Pass?
      && HandleCallback(req, issued, now, save).saved == Some(HandleCallback(req, issued, now, save).settle.token)
      && HandleCallback(req, issued, now, save).status == Some(200)
  {
  }

  /** An `error` parameter decides the request whatever the code and the token
      endpoint would have said. */
  lemma ErrorParameterWins(req: Request, issued1: Result<IssuedTokens, string>, issued2: Result<IssuedTokens, string>,
                           now: int, save1: Outcome<string>, save2: Outcome<string>)
    requires req.pathname == CallbackPath && Truthy(req.error)
    ensures HandleCallback(req, issued1, now, save1) == HandleCallback(req, issued2, now, save2)
    ensures HandleCallback(req, issued1, now, save1).settle == Rejected(OAuthErrorMessage(req.error.value))
  {
  }

  /** `runOAuthFlow` once its client exists: the local server, the handler and
      the timeout share one promise. */
  class OAuthFlow {
    var state: FlowState

    constructor ()
      ensures state == FlowStart
    {
      state := FlowStart;
    }

    /** The handler, for one request: answers it, saves the token when a code
        was exchanged, and settles the promise. */
    method Handle(env: Env, disk: Disk, req: Request, issued: Result<IssuedTokens, string>, now: int)
      returns (status: Option<int>)
      modifies this, disk
      ensures var e := Arrive(req, issued, now, WriteOutcome(disk.readOnly, GetTokenPath(env)));
        state == Step(old(state), e)
      ensures var h := HandleCallback(req, issued, now, WriteOutcome(disk.readOnly, GetTokenPath(env)));
        && status == (if old(state).listening then h.status else None)
        && disk.files == if old(state).listening && h.saved.Some?
                         then old(disk.files)[GetTokenPath(env) := JsonText(TokenJson(h.saved.value))]
                         else old(disk.files)
    {
      ghost var h := HandleCallback(req, issued, now, WriteOutcome(disk.readOnly, GetTokenPath(env)));
      if !state.listening {
        return None;
      }
      if req.pathname != CallbackPath {
        return None;
      }
      if req.error.Some? && req.error.value != "" {
        state := FlowState(Settle(state.outcome, Rejected(OAuthErrorMessage(req.error.value))), false);
        return Some(400);
      }
      if req.code.None? || req.code.value == "" {
        state := FlowState(Settle(state.outcome, Rejected(NoCodeMessage)), false);
        return Some(400);
      }
      var token := ExchangeCodeForTokens(issued, now);
      if token.Failure? {
        state := FlowState(Settle(state.outcome, Rejected(token.error)), false);
        return Some(500);
      }
      var saved := SaveToken(env, disk, TokenJson(token.value));
      if saved.Fail? {
        state := FlowState(Settle(state.outcome, Rejected(saved.error)), false);
        return Some(500);
      }
      state := FlowState(Settle(state.outcome, Resolved(token.value)), true);
      status := Some(200);
    }

    /** The 5-minute timer. */
    method OnTimeout()
      modifies this
      ensures state == Step(old(state), TimeoutFired)
    {
      state := FlowState(Settle(state.outcome, Rejected(FlowTimeoutMessage)), false);
    }

    /** The 1-second timer a success arms before the server closes. */
    method OnCloseTimer()
      modifies this
      ensures state == Step(old(state), CloseTimerFired)
    {
      if state.outcome.Resolved? {
        state := FlowState(state.outcome, false);
      }
    }
  }

  // ---------------------------------------------------------------- stored token

  /** What `refreshAccessToken` returns; each field may be missing. */
  datatype RefreshedCredentials = RefreshedCredentials(accessToken: Option<string>, expiryDate: Option<int>)

  /** `token.expiry_date && token.expiry_date < Date.now()`: a zero or missing
      expiry never refreshes, and an expiry equal to now does not either. */
  function NeedsRefresh(token: Json, now: int): (b: bool)
    ensures b <==>
      && Field(token, "expiry_date").Some?
      && Field(token, "expiry_date").value.JNum?
      && Field(token, "expiry_date").value.n != 0.0
      && Field(token, "expiry_date").value.n < now as real
  {
    match Field(token, "expiry_date")
    case Some(JNum(n)) => n != 0.0 && n < now as real
    case _ => false
  }

  /** A token that needs a refresh now still needs one later. */
  lemma NeedsRefreshLater(token: Json, now: int, later: int)
    requires NeedsRefresh(token, now) && now <= later
    ensures NeedsRefresh(token, later)
  {
  }

  /** `{ ...token, access_token: … ?? token.access_token, expiry_date: … ?? token.expiry_date }`:
      only what the provider returned replaces the stored values. */
  function MergeRefreshed(token: Json, renewed: RefreshedCredentials): (r: Json)
    requires token.JObj?
    ensures r.JObj?
    ensures forall k :: k in token.fields && k != "access_token" && k != "expiry_date" ==>
      k in r.fields && r.fields[k] == token.fields[k]
    ensures Field(r, "access_token") == if renewed.accessToken.Some? then Some(JStr(renewed.accessToken.value)) else Field(token, "access_token")
    ensures Field(r, "expiry_date") == if renewed.expiryDate.Some? then Some(JNum(renewed.expiryDate.value as real)) else Field(token, "expiry_date")
    ensures r.fields.Keys <= token.fields.Keys + {"access_token", "expiry_date"}
  {
    var fields := token.fields;
    var fields := if renewed.accessToken.Some? then fields["access_token" := JStr(renewed.accessToken.value)] else fields;
    var fields := if renewed.expiryDate.Some? then fields["expiry_date" := JNum(renewed.expiryDate.value as real)] else fields;
    JObj(fields)
  }

  /** The refresh keeps the refresh token, the token type and the scope. */
  lemma MergeKeepsRefreshToken(token: Json, renewed: RefreshedCredentials)
    requires token.JObj?
    ensures Field(MergeRefreshed(token, renewed), "refresh_token") == Field(token, "refresh_token")
    ensures Field(MergeRefreshed(token, renewed), "token_type") == Field(token, "token_type")
    ensures Field(MergeRefreshed(token, renewed), "scope") == Field(token, "scope")
  {
    var r := MergeRefreshed(token, renewed);
    assert "refresh_token" in r.fields <==> "refresh_token" in token.fields;
    assert "token_type" in r.fields <==> "token_type" in token.fields;
    assert "scope" in r.fields <==> "scope" in token.fields;
  }

  /** A refreshed record that came with both fields is a valid record again, and
      one that does not need a refresh until its new expiry. */
  lemma MergedRecordReadsBack(t: TokenData, renewed: RefreshedCredentials, now: int)
    requires renewed.accessToken.Some? && renewed.expiryDate.Some?
    ensures TokenFromJson(MergeRefreshed(TokenJson(t), renewed))
      == Some(t.(accessToken := renewed.accessToken.value, expiryDate := renewed.expiryDate.value))
    ensures now <= renewed.expiryDate.value ==> !NeedsRefresh(MergeRefreshed(TokenJson(t), renewed), now)
  {
    var t' := t.(accessToken := renewed.accessToken.value, expiryDate := renewed.expiryDate.value);
    assert MergeRefreshed(TokenJson(t), renewed) == TokenJson(t');
    TokenJsonRoundTrip(t');
  }

  function NoTokenMessage(path: string): string {
    "No OAuth token found at " + path + ".\n" + "Run \"npm run auth\" to authenticate with Google first."
  }

  const RefreshFailedMessage := "Failed to refresh OAuth token. Run \"npm run auth\" to re-authenticate."

  /** An authenticated client: its credentials and the token record it holds. */
  datatype GoogleAuth = GoogleAuth(client: OAuth2Client, token: Json)

  /** The answer of `getGoogleAuth` and the file system it leaves. */
  datatype AuthAttempt = AuthAttempt(result: Result<GoogleAuth, string>, files: Files)

  /** `getGoogleAuth` as a function of the environment, the files, the clock and
      the answer `refresh` would give. A stored value that is not truthy (`null`,
      `false`, …) counts as no token; a failure to save the refreshed record is
      caught like a failed refresh. */
  function GoogleAuthAttempt(env: Env, files: Files, readOnly: set<string>, now: int,
                             refresh: Result<RefreshedCredentials, string>): (a: AuthAttempt)
    ensures CreateOAuth2Client(env).Failure? ==> a == AuthAttempt(Failure(MissingOAuthMessage), files)
    ensures CreateOAuth2Client(env).Success? ==>
      var token := LoadStoredToken(env, files);
      var client := CreateOAuth2Client(env).value;
      && (token.None? || !IsTruthy(token.value) ==> a == AuthAttempt(Failure(NoTokenMessage(GetTokenPath(env))), files))
      && (token.Some? && IsTruthy(token.value) && !NeedsRefresh(token.value, now) ==>
            a == AuthAttempt(Success(GoogleAuth(client, token.value)), files))
      && (token.Some? && IsTruthy(token.value) && NeedsRefresh(token.value, now) ==>
            if refresh.Success? && Writable(readOnly, GetTokenPath(env)) then
              var merged := MergeRefreshed(token.value, refresh.value);
              a == AuthAttempt(Success(GoogleAuth(client, merged)), files[GetTokenPath(env) := JsonText(merged)])
            else a == AuthAttempt(Failure(RefreshFailedMessage), files))
  {
    match CreateOAuth2Client(env)
    case Failure(e) => AuthAttempt(Failure(e), files)
    case Success(client) =>
      var token := LoadStoredToken(env, files);
      if token.None? || !IsTruthy(token.value) then AuthAttempt(Failure(NoTokenMessage(GetTokenPath(env))), files)
      else if !NeedsRefresh(token.value, now) then AuthAttempt(Success(GoogleAuth(client, token.value)), files)
      else if refresh.Failure? || !Writable(readOnly, GetTokenPath(env)) then AuthAttempt(Failure(RefreshFailedMessage), files)
      else
        var merged := MergeRefreshed(token.value, refresh.value);
        AuthAttempt(Success(GoogleAuth(client, merged)), files[GetTokenPath(env) := JsonText(merged)])
  }

  /** `getGoogleAuth`: loads the stored token and, when it has expired, refreshes
      it and overwrites the token file with the merged record. */
  method GetGoogleAuth(env: Env, disk: Disk, now: int, refresh: Result<RefreshedCredentials, string>)
    returns (r: Result<GoogleAuth, string>)
    modifies disk
    ensures var a := GoogleAuthAttempt(env, old(disk.files), disk.readOnly, now, refresh);
      r == a.result && disk.files == a.files
  {
    var client := CreateOAuth2Client(env);
    if client.Failure? {
      return Failure(client.error);
    }
    var token := LoadStoredToken(env, disk.files);
    if token.None? || !IsTruthy(token.value) {
      return Failure(NoTokenMessage(GetTokenPath(env)));
    }
    var current := token.value;
    if NeedsRefresh(current, now) {
      if refresh.Failure? {
        return Failure(RefreshFailedMessage);
      }
      current := MergeRefreshed(current, refresh.value);
      var saved := SaveToken(env, disk, current);
      if saved.Fail? {
        return Failure(RefreshFailedMessage);
      }
    }
    r := Success(GoogleAuth(client.value, current));
  }

  /** A successful refresh persists what the client now holds: the next load
      reads it back. */
  lemma RefreshedTokenPersists(env: Env, files: Files, readOnly: set<string>, now: int,
                               refresh: Result<RefreshedCredentials, string>)
    requires GoogleAuthAttempt(env, files, readOnly, now, refresh).result.Success?
    ensures LoadStoredToken(env, GoogleAuthAttempt(env, files, readOnly, now, refresh).files)
      == Some(GoogleAuthAttempt(env, files, readOnly, now, refresh).result.value.token)
  {
  }

  /** The file system changes exactly when an expired token was refreshed and saved. */
  lemma FilesChangeOnlyOnRefresh(env: Env, files: Files, readOnly: set<string>, now: int,
                                 refresh: Result<RefreshedCredentials, string>)
    requires GoogleAuthAttempt(env, files, readOnly, now, refresh).files != files
    ensures LoadStoredToken(env, files).Some? && NeedsRefresh(LoadStoredToken(env, files).value, now)
    ensures refresh.Success? && GoogleAuthAttempt(env, files, readOnly, now, refresh).result.Success?
  {
  }

  /** `isAuthConfigured`: never throws; true iff the credentials resolve and a
      token file exists, whether or not it parses. */
  function IsAuthConfigured(env: Env, files: Files): (r: bool)
    ensures r <==> GetOAuthCredentials(env).Success? && Exists(files, GetTokenPath(env))
  {
    match GetOAuthCredentials(env)
    case Failure(_) => false
    case Success(_) => Exists(files, GetTokenPath(env))
  }

  /** A token file that exists but does not parse counts as configured, and
      then `getGoogleAuth` fails for want of a token. */
  lemma CorruptTokenIsConfiguredButFails(env: Env, files: Files, readOnly: set<string>, now: int,
                                         refresh: Result<RefreshedCredentials, string>)
    requires IsAuthConfigured(env, files)
    requires !files[GetTokenPath(env)].JsonText?
    ensures GoogleAuthAttempt(env, files, readOnly, now, refresh).result == Failure(NoTokenMessage(GetTokenPath(env)))
  {
  }
}
