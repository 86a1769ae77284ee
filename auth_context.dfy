/** The client session store (`AuthContext.jsx`): three state cells, the access token, the
    signed-in user's record and the Google Calendar credentials, initialised from
    `localStorage` and mirrored back into it, and the operations that change them. */
module AuthContext {
  import opened Wrappers
  import opened Json
  import opened Web

  const AccessTokenKey := "access_token"
  const UserDataKey := "userData"
  const CredentialsKey := "googleCredentials"
  const GoogleAuthType := "GOOGLE_AUTH"
  const CalendarConnected := "Google Calendar connected successfully"

  /** The provider's three cells and the storage they are mirrored into. Null is `JNull`. */
  datatype Session = Session(token: Json, userData: Json, credentials: Json, storage: Storage)

  // ---------------------------------------------------------------- storage-sync effects

  /** The effect on `access_token`: store the token when it is truthy, remove it otherwise. */
  function SyncToken(token: Json, st: Storage): (r: Storage)
    ensures JsTruthy(token) ==> AccessTokenKey in r && r[AccessTokenKey] == JsString(token)
    ensures !JsTruthy(token) ==> AccessTokenKey !in r
    ensures forall k :: k != AccessTokenKey ==> (k in r <==> k in st) && (k in r ==> r[k] == st[k])
  {
    if JsTruthy(token) then st[AccessTokenKey := JsString(token)] else st - {AccessTokenKey}
  }

  /** The effect on `googleCredentials`: store their JSON text when truthy, remove them otherwise. */
  function SyncCredentials(creds: Json, st: Storage): (r: Storage)
    ensures JsTruthy(creds) ==> CredentialsKey in r && r[CredentialsKey] == Stringify(creds)
    ensures !JsTruthy(creds) ==> CredentialsKey !in r
    ensures forall k :: k != CredentialsKey ==> (k in r <==> k in st) && (k in r ==> r[k] == st[k])
  {
    if JsTruthy(creds) then st[CredentialsKey := Stringify(creds)] else st - {CredentialsKey}
  }

  /** A stored item holding JSON text: present and non-empty, so that `data ? JSON.parse(data) : null`
      parses it. */
  predicate HasItem(st: Storage, key: string) {
    key in st && st[key] != []
  }

  /** Storage mirrors memory: the token and the credentials are stored exactly when truthy, and
      the stored user record parses back to the one in memory (null when none is stored). */
  predicate Mirrored(s: Session) {
    && (if JsTruthy(s.token) then AccessTokenKey in s.storage && s.storage[AccessTokenKey] == JsString(s.token)
        else AccessTokenKey !in s.storage)
    && (if JsTruthy(s.credentials) then CredentialsKey in s.storage && s.storage[CredentialsKey] == Stringify(s.credentials)
        else CredentialsKey !in s.storage)
    && (if HasItem(s.storage, UserDataKey) then Parse(s.storage[UserDataKey]) == Some(s.userData)
        else s.userData == JNull)
  }

  // ---------------------------------------------------------------- mounting

  /** A stored item that `JSON.parse` rejects. */
  predicate Malformed(st: Storage, key: string) {
    HasItem(st, key) && Parse(st[key]).None?
  }

  /** The initialiser of a JSON-valued cell: the parsed item, or null when nothing is stored. */
  function ParseItem(st: Storage, key: string): (r: Result<Json, Error>)
    ensures r.Failure? <==> Malformed(st, key)
    ensures r.Success? && HasItem(st, key) ==> Parse(st[key]) == Some(r.value)
    ensures r.Success? && !HasItem(st, key) ==> r.value == JNull
  {
    if HasItem(st, key) then
      match Parse(st[key])
      case Some(v) => Success(v)
      case None => Failure(SyntaxError(st[key]))
    else Success(JNull)
  }

  /** The provider as first rendered: each cell initialised from storage, then both effects run.
      Mounting fails when a stored JSON item is malformed; otherwise the result is mirrored. */
  function Mount(st: Storage): (r: Result<Session, Error>)
    ensures r.Failure? <==> Malformed(st, CredentialsKey) || Malformed(st, UserDataKey)
    ensures r.Success? ==> Mirrored(r.value)
    ensures r.Success? ==> r.value.token == ItemValue(st, AccessTokenKey)
    ensures r.Success? ==> Success(r.value.credentials) == ParseItem(st, CredentialsKey)
    ensures r.Success? ==> Success(r.value.userData) == ParseItem(st, UserDataKey)
    ensures r.Success? ==> forall k :: k != AccessTokenKey && k != CredentialsKey ==>
                             (k in r.value.storage <==> k in st) && (k in st ==> r.value.storage[k] == st[k])
  {
    var token := ItemValue(st, AccessTokenKey);
    match ParseItem(st, CredentialsKey)
    case Failure(e) => Failure(e)
    case Success(creds) =>
      match ParseItem(st, UserDataKey)
      case Failure(e) => Failure(e)
      case Success(user) =>
        Success(Session(token, user, creds, SyncCredentials(creds, SyncToken(token, st))))
  }

  /** Stored credentials with a leading zero, such as "01", are not JSON: mounting fails on
      them as `JSON.parse` throws. */
  lemma MountRefusesLeadingZero(st: Storage, digits: string)
    requires |digits| >= 2 && digits[0] == '0' && '0' <= digits[1] <= '9'
    requires CredentialsKey in st && st[CredentialsKey] == digits
    ensures Mount(st).Failure?
  {
    LeadingZeroRefused(digits);
  }

  // ---------------------------------------------------------------- transitions

  /** `{userId, userName}` as `JSON.stringify` writes it: an undefined field is left out. */
  function UserRecord(userId: Option<Json>, userName: Option<Json>): (r: Json)
    ensures r.JObj? && JsTruthy(r)
    ensures Get(r, "userId") == userId && Get(r, "userName") == userName
  {
    assert "userName" != "userId";
    match (userId, userName)
    case (None, None) => JObj([])
    case (Some(id), None) => JObj([("userId", id)])
    case (None, Some(name)) => JObj([("userName", name)])
    case (Some(id), Some(name)) =>
      var ms := [("userId", id), ("userName", name)];
      assert ms[..1] == [("userId", id)];
      assert Lookup(ms[..1], "userId") == Some(id);
      assert Lookup(ms, "userId") == Some(id);
      JObj(ms)
  }

  /** A response carrying a truthy `access_token` signs the user in: the token and the user
      record are set, the record is written to storage, then the token effect runs. */
  function Admit(s: Session, token: Json, user: Json): Session {
    Session(token, user, s.credentials, SyncToken(token, s.storage[UserDataKey := Stringify(user)]))
  }

  /** `login` once its post settles with `outcome`: the new session and what the call resolves
      to. */
  function AfterLogin(s: Session, outcome: Result<Json, Error>): (Session, Result<Json, Error>) {
    match outcome
    case Failure(e) => (s, Failure(e))
    case Success(data) =>
      if data == JNull then (s, Failure(TypeError("access_token")))
      else if JsTruthyAt(data, "access_token") then
        (Admit(s, Get(data, "access_token").value, UserRecord(Get(data, "user_id"), Get(data, "user_name"))),
         Success(data))
      else (s, Success(data))
  }

  /** `signup(request)` once its post settles: as `login`, except that the user name is the
      request's `name`. A null request is read only after the token was set. */
  function AfterSignup(s: Session, request: Json, outcome: Result<Json, Error>): (Session, Result<Json, Error>) {
    match outcome
    case Failure(e) => (s, Failure(e))
    case Success(data) =>
      if data == JNull then (s, Failure(TypeError("access_token")))
      else if JsTruthyAt(data, "access_token") then
        var token := Get(data, "access_token").value;
        if request == JNull then
          (Session(token, s.userData, s.credentials, SyncToken(token, s.storage)), Failure(TypeError("name")))
        else
          (Admit(s, token, UserRecord(Get(data, "user_id"), Get(request, "name"))), Success(data))
      else (s, Success(data))
  }

  /** `logout`: all three cells become null, the user record and the credentials are removed,
      and the token effect removes the token. */
  function AfterLogout(s: Session): Session {
    Session(JNull, JNull, JNull,
            SyncCredentials(JNull, SyncToken(JNull, s.storage - {UserDataKey} - {CredentialsKey})))
  }

  /** The popup's message is a Google sign-in result. */
  predicate IsGoogleAuthMessage(data: Json) {
    JsTruthy(data) && Get(data, "type") == Some(JStr(GoogleAuthType))
  }

  /** The message listener on one message: the new session, and whether it stays registered. */
  function AfterMessage(s: Session, data: Json): (Session, bool) {
    if !IsGoogleAuthMessage(data) then (s, true)
    else if JsTruthyAt(data, "credentials") then
      var creds := Get(data, "credentials").value;
      (Session(s.token, s.userData, creds, SyncCredentials(creds, s.storage[CredentialsKey := Stringify(creds)])), false)
    else (s, false)
  }

  /** `handleGoogleCallback` once the OAuth callback post settles: truthy credentials in the
      response are taken over, and the call resolves to whether the calendar was connected. */
  function AfterCallback(s: Session, outcome: Result<Json, Error>): (Session, Result<bool, Error>) {
    match outcome
    case Failure(e) => (s, Failure(e))
    case Success(data) =>
      if data == JNull then (s, Failure(TypeError("credentials")))
      else
        var s' := if JsTruthyAt(data, "credentials") then
                    var creds := Get(data, "credentials").value;
                    Session(s.token, s.userData, creds, SyncCredentials(creds, s.storage))
                  else s;
        (s', Success(Get(data, "message") == Some(JStr(CalendarConnected))))
  }

  // ---------------------------------------------------------------- properties

  /** Signing in keeps storage a mirror of memory: the written user record parses back. */
  lemma AdmitMirrored(s: Session, token: Json, user: Json)
    requires Mirrored(s) && JsTruthy(token)
    ensures Mirrored(Admit(s, token, user))
    ensures Admit(s, token, user).storage[UserDataKey] == Stringify(user)
  {
    RoundTrip(user);
    StringifyStart(user);
  }

  /** `login` keeps storage mirrored; a rejected post or a response without a truthy
      `access_token` leaves the session untouched and the error or body is passed on unchanged;
      otherwise the token and `{userId: user_id, userName: user_name}` are set. */
  lemma LoginSpec(s: Session, outcome: Result<Json, Error>)
    requires Mirrored(s)
    ensures Mirrored(AfterLogin(s, outcome).0)
    ensures outcome.Failure? ==> AfterLogin(s, outcome) == (s, outcome)
    ensures outcome == Success(JNull) ==> AfterLogin(s, outcome) == (s, Failure(TypeError("access_token")))
    ensures (outcome.Success? && outcome.value != JNull && !JsTruthyAt(outcome.value, "access_token"))
              ==> AfterLogin(s, outcome) == (s, outcome)
    ensures outcome.Success? && JsTruthyAt(outcome.value, "access_token") ==>
              var s' := AfterLogin(s, outcome).0;
              && AfterLogin(s, outcome).1 == outcome
              && Some(s'.token) == Get(outcome.value, "access_token")
              && Get(s'.userData, "userId") == Get(outcome.value, "user_id")
              && Get(s'.userData, "userName") == Get(outcome.value, "user_name")
              && s'.credentials == s.credentials
  {
    if outcome.Success? && JsTruthyAt(outcome.value, "access_token") {
      var data := outcome.value;
      AdmitMirrored(s, Get(data, "access_token").value, UserRecord(Get(data, "user_id"), Get(data, "user_name")));
    }
  }

  /** `signup` keeps storage mirrored, and the stored user name is the request's `name`, not a
      field of the response. */
  lemma SignupSpec(s: Session, request: Json, outcome: Result<Json, Error>)
    requires Mirrored(s)
    ensures Mirrored(AfterSignup(s, request, outcome).0)
    ensures outcome.Failure? ==> AfterSignup(s, request, outcome) == (s, outcome)
    ensures outcome == Success(JNull) ==> AfterSignup(s, request, outcome) == (s, Failure(TypeError("access_token")))
    ensures (outcome.Success? && outcome.value != JNull && !JsTruthyAt(outcome.value, "access_token"))
              ==> AfterSignup(s, request, outcome) == (s, outcome)
    ensures outcome.Success? && JsTruthyAt(outcome.value, "access_token") && request == JNull ==>
              var s' := AfterSignup(s, request, outcome).0;
              && AfterSignup(s, request, outcome).1.Failure?
              && Some(s'.token) == Get(outcome.value, "access_token")
              && s'.userData == s.userData && s'.credentials == s.credentials
    ensures outcome.Success? && JsTruthyAt(outcome.value, "access_token") && request != JNull ==>
              var s' := AfterSignup(s, request, outcome).0;
              && AfterSignup(s, request, outcome).1 == outcome
              && Some(s'.token) == Get(outcome.value, "access_token")
              && s'.credentials == s.credentials
              && Get(s'.userData, "userId") == Get(outcome.value, "user_id")
              && Get(s'.userData, "userName") == Get(request, "name")
  {
    if outcome.Success? && JsTruthyAt(outcome.value, "access_token") && request != JNull {
      var data := outcome.value;
      AdmitMirrored(s, Get(data, "access_token").value, UserRecord(Get(data, "user_id"), Get(request, "name")));
    }
  }

  /** `logout` clears all three cells and their storage keys, leaves every other key alone, and
      a second `logout` changes nothing. */
  lemma LogoutSpec(s: Session)
    ensures var s' := AfterLogout(s);
            && Mirrored(s')
            && s'.token == JNull && s'.userData == JNull && s'.credentials == JNull
            && AccessTokenKey !in s'.storage && UserDataKey !in s'.storage && CredentialsKey !in s'.storage
            && (forall k :: k !in {AccessTokenKey, UserDataKey, CredentialsKey} ==>
                  (k in s'.storage <==> k in s.storage) && (k in s.storage ==> s'.storage[k] == s.storage[k]))
            && AfterLogout(s') == s'
  {
    var s' := AfterLogout(s);
    assert s'.storage - {UserDataKey} - {CredentialsKey} == s'.storage;
  }

  /** Only a `GOOGLE_AUTH` message with truthy credentials changes the session, and it keeps
      storage mirrored; the listener is removed exactly on `GOOGLE_AUTH` messages. */
  lemma MessageSpec(s: Session, data: Json)
    requires Mirrored(s)
    ensures Mirrored(AfterMessage(s, data).0)
    ensures !AfterMessage(s, data).1 <==> IsGoogleAuthMessage(data)
    ensures AfterMessage(s, data).0 != s ==> IsGoogleAuthMessage(data) && JsTruthyAt(data, "credentials")
    ensures IsGoogleAuthMessage(data) && JsTruthyAt(data, "credentials") ==>
              Some(AfterMessage(s, data).0.credentials) == Get(data, "credentials")
    ensures var s' := AfterMessage(s, data).0;
            && s'.token == s.token && s'.userData == s.userData
            && (forall k :: k != CredentialsKey ==>
                  (k in s'.storage <==> k in s.storage) && (k in s.storage ==> s'.storage[k] == s.storage[k]))
  {
  }

  /** `handleGoogleCallback` resolves to true exactly when the response message is the
      connected-successfully text, keeps storage mirrored, and leaves the session alone on a
      rejected post. */
  lemma CallbackSpec(s: Session, outcome: Result<Json, Error>)
    requires Mirrored(s)
    ensures Mirrored(AfterCallback(s, outcome).0)
    ensures outcome.Failure? ==> AfterCallback(s, outcome) == (s, Failure(outcome.error))
    ensures outcome == Success(JNull) ==> AfterCallback(s, outcome) == (s, Failure(TypeError("credentials")))
    ensures outcome.Success? && outcome.value != JNull ==>
              AfterCallback(s, outcome).1 == Success(Get(outcome.value, "message") == Some(JStr(CalendarConnected)))
    ensures outcome.Success? && outcome.value != JNull ==>
              var s' := AfterCallback(s, outcome).0;
              && s'.token == s.token && s'.userData == s.userData
              && (JsTruthyAt(outcome.value, "credentials") ==> Some(s'.credentials) == Get(outcome.value, "credentials"))
              && (!JsTruthyAt(outcome.value, "credentials") ==> s' == s)
              && (forall k :: k != CredentialsKey ==>
                    (k in s'.storage <==> k in s.storage) && (k in s.storage ==> s'.storage[k] == s.storage[k]))
  {
  }

  /** Reloading the page restores the session: mounting from a mirrored session's storage gives
      that session back, provided the token is text or null, as stored tokens are, and the
      credentials are truthy or null. */
  lemma ReloadRestores(s: Session)
    requires Mirrored(s)
    requires s.token == JNull || (s.token.JStr? && s.token.s != [])
    requires s.credentials == JNull || JsTruthy(s.credentials)
    ensures Mount(s.storage) == Success(s)
  {
    if JsTruthy(s.credentials) {
      RoundTrip(s.credentials);
      StringifyStart(s.credentials);
    }
    var m := Mount(s.storage).value;
    assert m.token == s.token;
    assert m.credentials == s.credentials;
    assert m.userData == s.userData;
    assert m.storage == s.storage;
  }

  // ---------------------------------------------------------------- the provider

  /** The mounted provider: its cells and the browser storage it writes. */
  class Provider {
    var token: Json
    var userData: Json
    var credentials: Json
    var storage: Storage

    function State(): Session
      reads this
    {
      Session(token, userData, credentials, storage)
    }

    predicate Valid()
      reads this
    {
      Mirrored(State())
    }

    /** Mounting over storage whose JSON items parse. */
    constructor(st: Storage)
      requires Mount(st).Success?
      ensures State() == Mount(st).value && Valid()
    {
      token := ItemValue(st, AccessTokenKey);
      var creds := ParseItem(st, CredentialsKey).value;
      credentials := creds;
      userData := ParseItem(st, UserDataKey).value;
      storage := st;
      new;
      SyncAccessToken();
      SyncGoogleCredentials();
    }

    /** The effect of lines 17-23, run after the token cell changes. */
    method SyncAccessToken()
      modifies this
      ensures State() == old(State()).(storage := SyncToken(token, old(storage)))
    {
      if JsTruthy(token) {
        storage := storage[AccessTokenKey := JsString(token)];
      } else {
        storage := storage - {AccessTokenKey};
      }
    }

    /** The effect of lines 25-31, run after the credentials cell changes. */
    method SyncGoogleCredentials()
      modifies this
      ensures State() == old(State()).(storage := SyncCredentials(credentials, old(storage)))
    {
      if JsTruthy(credentials) {
        storage := storage[CredentialsKey := Stringify(credentials)];
      } else {
        storage := storage - {CredentialsKey};
      }
    }

    method Login(outcome: Result<Json, Error>) returns (r: Result<Json, Error>)
      requires Valid()
      modifies this
      ensures Valid()
      ensures (State(), r) == AfterLogin(old(State()), outcome)
    {
      LoginSpec(State(), outcome);
      match outcome {
        case Failure(e) =>
          r := Failure(e);
        case Success(data) =>
          if data == JNull {
            r := Failure(TypeError("access_token"));
            return;
          }
          if JsTruthyAt(data, "access_token") {
            token := Get(data, "access_token").value;
            var user := UserRecord(Get(data, "user_id"), Get(data, "user_name"));
            userData := user;
            storage := storage[UserDataKey := Stringify(user)];
            SyncAccessToken();
          }
          r := Success(data);
      }
    }

    method Signup(request: Json, outcome: Result<Json, Error>) returns (r: Result<Json, Error>)
      requires Valid()
      modifies this
      ensures Valid()
      ensures (State(), r) == AfterSignup(old(State()), request, outcome)
    {
      SignupSpec(State(), request, outcome);
      match outcome {
        case Failure(e) =>
          r := Failure(e);
        case Success(data) =>
          if data == JNull {
            r := Failure(TypeError("access_token"));
            return;
          }
          if JsTruthyAt(data, "access_token") {
            token := Get(data, "access_token").value;
            if request == JNull {
              SyncAccessToken();
              r := Failure(TypeError("name"));
              return;
            }
            var user := UserRecord(Get(data, "user_id"), Get(request, "name"));
            userData := user;
            storage := storage[UserDataKey := Stringify(user)];
            SyncAccessToken();
          }
          r := Success(data);
      }
    }

    method Logout()
      modifies this
      ensures Valid()
      ensures State() == AfterLogout(old(State()))
    {
      LogoutSpec(State());
      token := JNull;
      userData := JNull;
      credentials := JNull;
      storage := storage - {UserDataKey};
      storage := storage - {CredentialsKey};
      SyncAccessToken();
      SyncGoogleCredentials();
    }

    /** The GOOGLE_AUTH listener on one message; `listening` says whether it stays registered. */
    method ReceiveMessage(data: Json) returns (listening: bool)
      requires Valid()
      modifies this
      ensures Valid()
      ensures (State(), listening) == AfterMessage(old(State()), data)
    {
      MessageSpec(State(), data);
      if !IsGoogleAuthMessage(data) {
        return true;
      }
      if JsTruthyAt(data, "credentials") {
        credentials := Get(data, "credentials").value;
        storage := storage[CredentialsKey := Stringify(credentials)];
        SyncGoogleCredentials();
      }
      listening := false;
    }

    method HandleGoogleCallback(outcome: Result<Json, Error>) returns (r: Result<bool, Error>)
      requires Valid()
      modifies this
      ensures Valid()
      ensures (State(), r) == AfterCallback(old(State()), outcome)
    {
      CallbackSpec(State(), outcome);
      match outcome {
        case Failure(e) =>
          r := Failure(e);
        case Success(data) =>
          if data == JNull {
            r := Failure(TypeError("credentials"));
            return;
          }
          if JsTruthyAt(data, "credentials") {
            credentials := Get(data, "credentials").value;
            SyncGoogleCredentials();
          }
          r := Success(Get(data, "message") == Some(JStr(CalendarConnected)));
      }
    }
  }
}
