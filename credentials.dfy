/** The configuration lookups of src/auth/credentials.ts, over the environment
    and the file system as maps. Each lookup either answers, answers "null", or
    throws; `Failure` carries the thrown error's message. */
module Credentials {
  import opened Wrappers
  import opened Strings
  import opened Host

  datatype OAuthCredentials = OAuthCredentials(clientId: string, clientSecret: string)

  const ClientIdVariable := "GOOGLE_CLIENT_ID"
  const ClientSecretVariable := "GOOGLE_CLIENT_SECRET"
  const ServiceAccountVariable := "GSC_SERVICE_ACCOUNT_PATH"
  const TokenPathVariable := "GSC_TOKEN_PATH"
  const LogLevelVariable := "GSC_LOG_LEVEL"
  const DefaultTokenPath := "./token.json"

  const MissingOAuthMessage :=
    "Missing Google OAuth credentials. Set GOOGLE_CLIENT_ID and GOOGLE_CLIENT_SECRET in your .env file.\n"
    + "See: https://console.cloud.google.com/apis/credentials"

  /** `getOAuthCredentials`: both variables must be set and non-empty. */
  function GetOAuthCredentials(env: Env): (r: Result<OAuthCredentials, string>)
    ensures r.Success? <==> Truthy(Lookup(env, ClientIdVariable)) && Truthy(Lookup(env, ClientSecretVariable))
    ensures r.Success? ==> r.value.clientId == env[ClientIdVariable] && r.value.clientSecret == env[ClientSecretVariable]
    ensures r.Failure? ==> r.error == MissingOAuthMessage
  {
    var clientId := Lookup(env, ClientIdVariable);
    var clientSecret := Lookup(env, ClientSecretVariable);
    if !Truthy(clientId) || !Truthy(clientSecret) then Failure(MissingOAuthMessage)
    else Success(OAuthCredentials(clientId.value, clientSecret.value))
  }

  function ServiceAccountNotFound(path: string): string {
    "Service account file not found: " + path
  }

  function ServiceAccountUnparsable(path: string): string {
    "Failed to parse service account file: " + path
  }

  /** `getServiceAccountCredentials`: `None` is its `null` for an unset or empty
      variable; any value the file parses to is returned as it is, with no check
      of its shape. */
  function GetServiceAccountCredentials(env: Env, files: Files): (r: Result<Option<Json>, string>)
    ensures !Truthy(Lookup(env, ServiceAccountVariable)) <==> r == Success(None)
    ensures Truthy(Lookup(env, ServiceAccountVariable)) ==>
      var path := env[ServiceAccountVariable];
      && (!Exists(files, path) ==> r == Failure(ServiceAccountNotFound(path)))
      && (Exists(files, path) && !files[path].JsonText? ==> r == Failure(ServiceAccountUnparsable(path)))
      && (Exists(files, path) && files[path].JsonText? ==> r == Success(Some(files[path].value)))
  {
    var path := Lookup(env, ServiceAccountVariable);
    if !Truthy(path) then Success(None)
    else if !Exists(files, path.value) then Failure(ServiceAccountNotFound(path.value))
    else match files[path.value]
      case JsonText(value) => Success(Some(value))
      case _ => Failure(ServiceAccountUnparsable(path.value))
  }

  /** `getTokenPath`: `??` keeps a variable that is set to the empty string. */
  function GetTokenPath(env: Env): (r: string)
    ensures TokenPathVariable in env ==> r == env[TokenPathVariable]
    ensures TokenPathVariable !in env ==> r == DefaultTokenPath
  {
    Lookup(env, TokenPathVariable).GetOr(DefaultTokenPath)
  }

  /** `loadStoredToken`: the parsed content of the token file, as it is; `None`
      (its `null`) when the file is missing, unreadable or not JSON. */
  function LoadStoredToken(env: Env, files: Files): (r: Option<Json>)
    ensures r.Some? <==> Exists(files, GetTokenPath(env)) && files[GetTokenPath(env)].JsonText?
    ensures r.Some? ==> r.value == files[GetTokenPath(env)].value
  {
    var path := GetTokenPath(env);
    if !Exists(files, path) then None
    else match files[path]
      case JsonText(value) => Some(value)
      case _ => None
  }

  const LogLevels: set<string> := {"debug", "info", "warn", "error"}

  /** `getLogLevel`: the variable lower-cased when it names a level, else 'info'. */
  function GetLogLevel(env: Env): (r: string)
    ensures r in LogLevels
    ensures LogLevelVariable in env && ToLower(env[LogLevelVariable]) in LogLevels ==> r == ToLower(env[LogLevelVariable])
    ensures !(LogLevelVariable in env && ToLower(env[LogLevelVariable]) in LogLevels) ==> r == "info"
  {
    var level := Lookup(env, LogLevelVariable);
    if level.Some? && ToLower(level.value) in LogLevels then ToLower(level.value) else "info"
  }

  // ---------------------------------------------------------------- properties

  /** The OAuth credentials are the two variables, unchanged, and nothing else of
      the environment matters. */
  lemma OAuthCredentialsDependOnlyOnTheirVariables(env1: Env, env2: Env)
    requires Lookup(env1, ClientIdVariable) == Lookup(env2, ClientIdVariable)
    requires Lookup(env1, ClientSecretVariable) == Lookup(env2, ClientSecretVariable)
    ensures GetOAuthCredentials(env1) == GetOAuthCredentials(env2)
  {
  }

  /** Reading the token never throws: every file state yields a value or `None`,
      and a token path set to the empty string finds no token. */
  lemma EmptyTokenPathHasNoToken(env: Env, files: Files)
    requires Lookup(env, TokenPathVariable) == Some("")
    ensures LoadStoredToken(env, files) == None
  {
  }

  /** The level does not depend on the case of the variable. */
  lemma LogLevelIgnoresCase(env: Env, name: string)
    requires name in LogLevels
    ensures GetLogLevel(env[LogLevelVariable := ToUpper(name)]) == name
  {
    var e := env[LogLevelVariable := ToUpper(name)];
    assert e[LogLevelVariable] == ToUpper(name);
    LowerUpperLevel(name);
  }

  lemma LowerUpperLevel(name: string)
    requires name in LogLevels
    ensures ToLower(ToUpper(name)) == name
  {
    var u := ToUpper(name);
    assert forall i :: 0 <= i < |name| ==> LowerChar(UpperChar(name[i])) == name[i];
    assert ToLower(u) == name;
  }
}
