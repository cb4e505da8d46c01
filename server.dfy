/** src/server.ts: which credentials the Search Console client is built with,
    the ListTools answer, and the envelope a CallTool answer is wrapped in. */
module Server {
  import opened Wrappers
  import opened Host
  import opened Errors
  import opened Credentials
  import opened OAuth
  import opened GoogleApi
  import opened Tools
  import opened Strings
  import Inputs

  const NoAuthMessage :=
    "No authentication configured. Either:\n"
    + "1. Run \"npm run auth\" to authenticate with OAuth, or\n"
    + "2. Set GSC_SERVICE_ACCOUNT_PATH to use a service account"

  /** The credentials behind the Search Console client. */
  datatype SearchClient = OAuthClient(auth: GoogleAuth) | ServiceAccountClient(credentials: Json)

  // ------------------------------------------------ src/auth/service-account.ts

  /** `isServiceAccountConfigured`: never throws; a file holding JSON `null`
      counts as no credentials. */
  function IsServiceAccountConfigured(env: Env, files: Files): (b: bool)
    ensures b <==>
      && Truthy(Lookup(env, ServiceAccountVariable))
      && Exists(files, env[ServiceAccountVariable])
      && files[env[ServiceAccountVariable]].JsonText?
      && files[env[ServiceAccountVariable]].value != JNull
  {
    match GetServiceAccountCredentials(env, files)
    case Success(Some(v)) => v != JNull
    case _ => false
  }

  /** `getServiceAccountAuth`: `None` for credentials that are not truthy. */
  function ServiceAccountAuth(env: Env, files: Files): (r: Result<Option<Json>, string>)
    ensures r.Failure? <==> GetServiceAccountCredentials(env, files).Failure?
    ensures r.Failure? ==> r.error == GetServiceAccountCredentials(env, files).error
    ensures r.Success? && r.value.Some? ==>
      IsTruthy(r.value.value) && GetServiceAccountCredentials(env, files) == Success(r.value)
    ensures (GetServiceAccountCredentials(env, files).Success? && GetServiceAccountCredentials(env, files).value.Some?
             && IsTruthy(GetServiceAccountCredentials(env, files).value.value)) ==>
      r == GetServiceAccountCredentials(env, files)
  {
    match GetServiceAccountCredentials(env, files)
    case Failure(e) => Failure(e)
    case Success(c) => Success(if c.Some? && IsTruthy(c.value) then c else None)
  }

  // ------------------------------------------------ createServer

  /** The outcome of `createServer`'s authentication and the files it leaves. */
  datatype Startup = Startup(result: Result<SearchClient, string>, files: Files)

  function OAuthStartup(a: AuthAttempt): Startup {
    match a.result
    case Failure(e) => Startup(Failure(e), a.files)
    case Success(auth) => Startup(Success(OAuthClient(auth)), a.files)
  }

  /** OAuth first, whenever it is configured; the service account only otherwise;
      and without a client, the no-authentication error. */
  function CreateServerAttempt(env: Env, files: Files, readOnly: set<string>, now: int,
                               refresh: Result<RefreshedCredentials, string>): (s: Startup)
    ensures IsAuthConfigured(env, files) ==> s == OAuthStartup(GoogleAuthAttempt(env, files, readOnly, now, refresh))
    ensures !IsAuthConfigured(env, files) ==> s.files == files
    ensures !IsAuthConfigured(env, files) && s.result.Success? ==>
      && ServiceAccountAuth(env, files).Success?
      && ServiceAccountAuth(env, files).value.Some?
      && s.result == Success(ServiceAccountClient(ServiceAccountAuth(env, files).value.value))
    ensures !IsAuthConfigured(env, files) && s.result.Failure? ==> s.result.error == NoAuthMessage
    ensures !IsAuthConfigured(env, files) ==>
      (s.result.Success? <==>
        IsServiceAccountConfigured(env, files) && IsTruthy(GetServiceAccountCredentials(env, files).value.value))
    ensures (!IsAuthConfigured(env, files) && IsServiceAccountConfigured(env, files)
             && IsTruthy(GetServiceAccountCredentials(env, files).value.value)) ==>
      s.result == Success(ServiceAccountClient(GetServiceAccountCredentials(env, files).value.value))
  {
    if IsAuthConfigured(env, files) then OAuthStartup(GoogleAuthAttempt(env, files, readOnly, now, refresh))
    else
      var auth := ServiceAccountAuth(env, files);
      if IsServiceAccountConfigured(env, files) && auth.Success? && auth.value.Some? then
        Startup(Success(ServiceAccountClient(auth.value.value)), files)
      else Startup(Failure(NoAuthMessage), files)
  }

  /** `createServer`, up to the registration of the handlers. */
  method CreateServer(env: Env, disk: Disk, now: int, refresh: Result<RefreshedCredentials, string>)
    returns (r: Result<SearchClient, string>)
    modifies disk
    ensures var s := CreateServerAttempt(env, old(disk.files), disk.readOnly, now, refresh);
      r == s.result && disk.files == s.files
  {
    var searchConsole: Option<SearchClient> := None;
    if IsAuthConfigured(env, disk.files) {
      var auth := GetGoogleAuth(env, disk, now, refresh);
      if auth.Failure? {
        return Failure(auth.error);
      }
      searchConsole := Some(OAuthClient(auth.value));
    } else if IsServiceAccountConfigured(env, disk.files) {
      // with the service account configured, reading it again cannot throw
      var auth := ServiceAccountAuth(env, disk.files);
      if auth.Success? && auth.value.Some? {
        searchConsole := Some(ServiceAccountClient(auth.value.value));
      }
    }
    if searchConsole.None? {
      return Failure(NoAuthMessage);
    }
    r := Success(searchConsole.value);
  }

  /** A configured service account is read without an error. */
  lemma ConfiguredServiceAccountReads(env: Env, files: Files)
    requires IsServiceAccountConfigured(env, files)
    ensures ServiceAccountAuth(env, files).Success?
  {
  }

  /** With OAuth configured, the service-account variable is never consulted. */
  lemma OAuthIgnoresServiceAccount(env: Env, files: Files, readOnly: set<string>, now: int,
                                   refresh: Result<RefreshedCredentials, string>, path: string)
    requires IsAuthConfigured(env, files)
    ensures CreateServerAttempt(env[ServiceAccountVariable := path], files, readOnly, now, refresh)
      == CreateServerAttempt(env, files, readOnly, now, refresh)
  {
    var env' := env[ServiceAccountVariable := path];
    assert Lookup(env', ClientIdVariable) == Lookup(env, ClientIdVariable);
    assert Lookup(env', ClientSecretVariable) == Lookup(env, ClientSecretVariable);
    assert Lookup(env', TokenPathVariable) == Lookup(env, TokenPathVariable);
    OAuthCredentialsDependOnlyOnTheirVariables(env', env);
    assert GetTokenPath(env') == GetTokenPath(env);
    assert LoadStoredToken(env', files) == LoadStoredToken(env, files);
    assert CreateOAuth2Client(env') == CreateOAuth2Client(env);
    assert GoogleAuthAttempt(env', files, readOnly, now, refresh) == GoogleAuthAttempt(env, files, readOnly, now, refresh);
  }

  /** A token file that exists but does not parse selects OAuth and fails, even
      when a working service account is configured. */
  lemma CorruptTokenDoesNotFallBack(env: Env, files: Files, readOnly: set<string>, now: int,
                                    refresh: Result<RefreshedCredentials, string>)
    requires IsAuthConfigured(env, files)
    requires files[GetTokenPath(env)].MalformedText?
    ensures CreateServerAttempt(env, files, readOnly, now, refresh).result == Failure(NoTokenMessage(GetTokenPath(env)))
  {
    CorruptTokenIsConfiguredButFails(env, files, readOnly, now, refresh);
  }

  /** A service-account file that parses to a falsy value (`false`, `0`, `""`)
      counts as configured but yields no client. */
  lemma FalsyServiceAccountYieldsNoClient(env: Env, files: Files, readOnly: set<string>, now: int,
                                          refresh: Result<RefreshedCredentials, string>)
    requires !IsAuthConfigured(env, files)
    requires GetServiceAccountCredentials(env, files) == Success(Some(JBool(false)))
    ensures IsServiceAccountConfigured(env, files)
    ensures CreateServerAttempt(env, files, readOnly, now, refresh).result == Failure(NoAuthMessage)
  {
  }

  // ------------------------------------------------ ListTools

  datatype ListedTool = ListedTool(name: string, description: string, inputSchema: Schema)

  /** The ListTools answer: every table entry, projected onto its three fields, in order. */
  function ListTools(): (r: seq<ListedTool>)
    ensures |r| == |ToolDefinitions|
    ensures forall i :: 0 <= i < |r| ==>
      && r[i].name == ToolDefinitions[i].name
      && r[i].description == ToolDefinitions[i].description
      && r[i].inputSchema == ToolDefinitions[i].inputSchema
  {
    seq(|ToolDefinitions|, i requires 0 <= i < |ToolDefinitions| =>
      ListedTool(ToolDefinitions[i].name, ToolDefinitions[i].description, ToolDefinitions[i].inputSchema))
  }

  // ------------------------------------------------ CallTool

  datatype Content = TextContent(text: string)

  /** A CallTool answer; `isError` false stands for the flag being left out. */
  datatype CallToolResult = CallToolResult(content: seq<Content>, isError: bool)

  function ErrorText(name: string, e: Thrown): string {
    "Error executing " + name + ": " + e.MessageOr("Unknown error")
  }

  /** The CallTool handler: missing arguments become `{}`; a thrown error
      becomes an `isError` answer naming the tool. */
  function CallTool(ctx: Context, api: SearchConsole, name: string, args: Option<Inputs.Args>): (r: CallToolResult)
    ensures |r.content| == 1
    ensures r.isError <==> ExecuteTool(ctx, api, name, args.GetOr(map[])).Failure?
    ensures !r.isError ==> r.content[0].text == ExecuteTool(ctx, api, name, args.GetOr(map[])).value
    ensures r.isError ==> r.content[0].text == ErrorText(name, ExecuteTool(ctx, api, name, args.GetOr(map[])).error)
  {
    match ExecuteTool(ctx, api, name, args.GetOr(map[]))
    case Success(text) => CallToolResult([TextContent(text)], false)
    case Failure(e) => CallToolResult([TextContent(ErrorText(name, e))], true)
  }

  /** A call without arguments is a call with an empty argument object. */
  lemma MissingArgumentsAreEmpty(ctx: Context, api: SearchConsole, name: string)
    ensures CallTool(ctx, api, name, None) == CallTool(ctx, api, name, Some(map[]))
  {
  }

  /** An unknown tool is answered with text, not flagged as an error. */
  lemma UnknownToolIsNotAnError(ctx: Context, api: SearchConsole, name: string, args: Option<Inputs.Args>)
    requires !InTable(name)
    ensures CallTool(ctx, api, name, args) == CallToolResult([TextContent("Unknown tool: " + name)], false)
  {
    DispatchMatchesTable(name);
  }

  /** Every error answer is a rejected argument list, shown with its issues. */
  lemma ErrorAnswerShowsIssues(ctx: Context, api: SearchConsole, name: string, args: Option<Inputs.Args>)
    requires CallTool(ctx, api, name, args).isError
    ensures Dispatch(name).Some?
    ensures var issues := ArgumentIssues(Dispatch(name).value, ctx, args.GetOr(map[]));
      && issues.Some?
      && CallTool(ctx, api, name, args).content[0].text == "Error executing " + name + ": " + Inputs.IssuesMessage(issues.value)
  {
  }
}
