/** The checks and shapes of `GoogleCalendarService` (`google_calendar.py`) that do not depend on
    the OAuth and Calendar libraries: which stored credential fields an event needs, the
    credentials record built after the OAuth exchange, and the authorisation request. */
module GoogleCalendar {
  import opened Wrappers
  import opened Strings
  import opened Json

  /** The fields `create_event` insists on, in the order it reports them. */
  const RequiredFields: seq<string> := ["refresh_token", "token_uri", "client_id", "client_secret"]

  const CalendarScope := "https://www.googleapis.com/auth/calendar.events"

  /** `credentials_json.get(field)` is present and truthy. */
  predicate Provided(creds: Json, field: string) {
    Get(creds, field).Some? && PyTruthy(Get(creds, field).value)
  }

  /** The fields of `fields` that `creds` lacks or holds a falsy value for, in the order of `fields`. */
  function Missing(fields: seq<string>, creds: Json): (r: seq<string>)
    ensures |r| <= |fields|
    ensures forall f :: f in r <==> f in fields && !Provided(creds, f)
  {
    if fields == [] then []
    else (if Provided(creds, fields[0]) then [] else [fields[0]]) + Missing(fields[1..], creds)
  }

  /** The missing fields of two lists in a row are those of the first, then those of the
      second: the list keeps the order of `fields`. */
  lemma {:induction false} MissingAppend(a: seq<string>, b: seq<string>, creds: Json)
    ensures Missing(a + b, creds) == Missing(a, creds) + Missing(b, creds)
    decreases |a|
  {
    if a == [] {
      assert a + b == b;
    } else {
      assert (a + b)[1..] == a[1..] + b;
      MissingAppend(a[1..], b, creds);
    }
  }

  /** `missing_fields` in `create_event`. */
  function MissingFields(creds: Json): seq<string> {
    Missing(RequiredFields, creds)
  }

  /** Python's `repr` of a list of strings without quotes or backslashes: `['a', 'b']`. */
  function ListRepr(xs: seq<string>): string {
    "[" + Join(", ", QuotedAll(xs)) + "]"
  }

  function QuotedAll(xs: seq<string>): (r: seq<string>)
    ensures |r| == |xs|
    ensures forall k :: 0 <= k < |xs| ==> r[k] == "'" + xs[k] + "'"
  {
    if xs == [] then [] else ["'" + xs[0] + "'"] + QuotedAll(xs[1..])
  }

  const MissingPrefix := "Missing required credential fields: "

  /** The `ValueError` message `create_event` raises before touching the Calendar API, or None
      when the credentials pass: it is raised exactly when a required field is missing, and its
      message carries the list of missing fields. */
  function CredentialError(creds: Json): (r: Option<string>)
    ensures r.Some? <==> exists f :: f in RequiredFields && !Provided(creds, f)
    ensures r.Some? ==> r.value == MissingPrefix + ListRepr(MissingFields(creds))
  {
    var missing := MissingFields(creds);
    if missing != [] then
      assert missing[0] in missing;
      Some(MissingPrefix + ListRepr(missing))
    else
      assert forall f :: f in RequiredFields ==> Provided(creds, f) by {
        forall f | f in RequiredFields
          ensures Provided(creds, f)
        {
          assert f !in missing;
        }
      }
      None
  }

  /** Neither `token` nor `scopes` is required: adding them to a credentials object, or leaving
      them out, changes nothing in the check. */
  lemma TokenAndScopesNotRequired(ms: seq<(string, Json)>, token: Json, scopes: Json)
    ensures CredentialError(JObj(ms + [("token", token), ("scopes", scopes)])) == CredentialError(JObj(ms))
  {
    var more := ms + [("token", token), ("scopes", scopes)];
    forall f | f in RequiredFields
      ensures Lookup(more, f) == Lookup(ms, f)
    {
      assert more[..|more| - 1] == ms + [("token", token)];
      assert more[..|more| - 1][..|more| - 2] == ms;
    }
    MissingAgree(RequiredFields, JObj(more), JObj(ms));
  }

  /** Credentials that provide the same fields miss the same fields. */
  lemma {:induction false} MissingAgree(fields: seq<string>, a: Json, b: Json)
    requires forall f :: f in fields ==> Provided(a, f) == Provided(b, f)
    ensures Missing(fields, a) == Missing(fields, b)
  {
    if fields != [] {
      MissingAgree(fields[1..], a, b);
    }
  }

  /** What `flow.credentials` carries after the authorisation code is exchanged. */
  datatype OAuthCredentials = OAuthCredentials(token: Json, refreshToken: Json, tokenUri: Json,
                                               clientId: Json, clientSecret: Json, scopes: Json)

  /** The keys of a credentials record, in order. */
  const CredentialKeys: seq<string> := ["token", "refresh_token", "token_uri", "client_id", "client_secret", "scopes"]

  /** The credentials record of `get_credentials_from_code`: exactly the six credential keys, in
      order. */
  function CredentialsDict(c: OAuthCredentials): (r: Json)
    ensures r.JObj? && |r.members| == |CredentialKeys|
    ensures forall i :: 0 <= i < |CredentialKeys| ==> r.members[i].0 == CredentialKeys[i]
  {
    JObj([("token", c.token), ("refresh_token", c.refreshToken), ("token_uri", c.tokenUri),
          ("client_id", c.clientId), ("client_secret", c.clientSecret), ("scopes", c.scopes)])
  }

  /** Each key of the credentials record holds the field of the same name. */
  lemma CredentialsDictFields(c: OAuthCredentials)
    ensures Get(CredentialsDict(c), "token") == Some(c.token)
    ensures Get(CredentialsDict(c), "refresh_token") == Some(c.refreshToken)
    ensures Get(CredentialsDict(c), "token_uri") == Some(c.tokenUri)
    ensures Get(CredentialsDict(c), "client_id") == Some(c.clientId)
    ensures Get(CredentialsDict(c), "client_secret") == Some(c.clientSecret)
    ensures Get(CredentialsDict(c), "scopes") == Some(c.scopes)
  {
    var ms := CredentialsDict(c).members;
    LookupUnique(ms, 0);
    LookupUnique(ms, 1);
    LookupUnique(ms, 2);
    LookupUnique(ms, 3);
    LookupUnique(ms, 4);
    LookupUnique(ms, 5);
  }

  /** A credentials record from the OAuth exchange passes the event check exactly when its
      refresh token, token URI, client id and client secret are all truthy; the access token
      and scopes play no part. */
  lemma ExchangedCredentialsCheck(c: OAuthCredentials)
    ensures CredentialError(CredentialsDict(c)).None? <==>
              PyTruthy(c.refreshToken) && PyTruthy(c.tokenUri) && PyTruthy(c.clientId) && PyTruthy(c.clientSecret)
  {
    var d := CredentialsDict(c);
    CredentialsDictFields(c);
    assert Provided(d, "refresh_token") == PyTruthy(c.refreshToken);
    assert Provided(d, "token_uri") == PyTruthy(c.tokenUri);
    assert Provided(d, "client_id") == PyTruthy(c.clientId);
    assert Provided(d, "client_secret") == PyTruthy(c.clientSecret);
  }

  // ---------------------------------------------------------------- authorisation request

  /** The process environment: an unset variable is absent. */
  type Env = map<string, string>

  function Getenv(env: Env, name: string): Option<string> {
    if name in env then Some(env[name]) else None
  }

  /** Python's `str` of an optional string, as an f-string writes it. */
  function PyStr(v: Option<string>): string {
    if v.Some? then v.value else "None"
  }

  /** `redirect_uris` of the client configuration: the configured redirect URI, then the
      frontend's callback path. */
  function RedirectUris(env: Env): (r: seq<Option<string>>)
    ensures |r| == 2 && r[0] == Getenv(env, "GOOGLE_REDIRECT_URI")
  {
    [Getenv(env, "GOOGLE_REDIRECT_URI"), Some(PyStr(Getenv(env, "REACT_FRONTEND_URL")) + "/api/calendar/oauth-callback")]
  }

  /** The parameters of an OAuth flow step: the flow's redirect URI and scopes, and the query
      parameters of the authorisation URL. */
  datatype AuthRequest = AuthRequest(redirectUri: Option<string>, scopes: seq<string>, accessType: string,
                                     prompt: string, state: string, includeGrantedScopes: string)

  /** `get_auth_url(user_id)`: offline access with forced consent, the user id as the state that
      comes back to the callback, and the first configured redirect URI. */
  function AuthUrlRequest(env: Env, userId: string): (r: AuthRequest)
    ensures r.state == userId
    ensures r.redirectUri == Getenv(env, "GOOGLE_REDIRECT_URI")
    ensures r.scopes == [CalendarScope] && r.accessType == "offline" && r.prompt == "consent"
  {
    AuthRequest(RedirectUris(env)[0], [CalendarScope], "offline", "consent", userId, "true")
  }

  /** The flow `get_credentials_from_code` exchanges a code with. */
  function CodeExchangeRedirect(env: Env): Option<string> {
    RedirectUris(env)[0]
  }

  /** The code is exchanged under the same redirect URI the authorisation URL was issued with,
      as OAuth requires. */
  lemma SameRedirectUri(env: Env, userId: string)
    ensures CodeExchangeRedirect(env) == AuthUrlRequest(env, userId).redirectUri
  {
  }
}
