/** The server's bearer check (`firebase_auth.py`): the decorator that reads the
    `Authorization` header, verifies the token it carries and either answers 401 or calls the
    protected view with the decoded claims attached to the request. */
module FirebaseAuth {
  import opened Wrappers
  import opened Strings
  import opened Json
  import opened Web
  import Api

  const MissingToken := "Authorization token is missing"
  /** The text of the `IndexError` that `token.split(" ")[1]` raises on a header without a space. */
  const IndexOutOfRange := "list index out of range"

  /** The token in a header: the second field of the header split at single spaces. */
  function ExtractToken(header: string): (r: Result<string, string>)
    ensures r.Failure? <==> ' ' !in header
    ensures r.Failure? ==> r.error == IndexOutOfRange
    ensures r.Success? ==> ' ' !in r.value
  {
    var parts := Split(header, ' ');
    if |parts| < 2 then Failure(IndexOutOfRange) else Success(parts[1])
  }

  /** What the decorator answers. */
  datatype Outcome =
    | Unauthorized(error: string)   // `{"error": …}` with status 401
    | Proceed(user: Json)           // the view is called, `request.user` holding the claims

  /** The decorator's decision on a header (`None` when absent), given the token verifier. */
  function Authorize(header: Option<string>, verify: string -> Result<Json, string>): (o: Outcome)
    ensures header.None? || header == Some([]) ==> o == Unauthorized(MissingToken)
    ensures header.Some? && header.value != [] && ' ' !in header.value ==> o == Unauthorized(IndexOutOfRange)
    ensures o.Proceed? ==> header.Some? && ExtractToken(header.value).Success?
                           && verify(ExtractToken(header.value).value) == Success(o.user)
    ensures header.Some? && ExtractToken(header.value).Success? && verify(ExtractToken(header.value).value).Failure? ==>
              o == Unauthorized(verify(ExtractToken(header.value).value).error)
    ensures header.Some? && ExtractToken(header.value).Success? && verify(ExtractToken(header.value).value).Success? ==>
              o == Proceed(verify(ExtractToken(header.value).value).value)
  {
    if header.None? || header.value == [] then Unauthorized(MissingToken)
    else
      match ExtractToken(header.value)
      case Failure(e) => Unauthorized(e)
      case Success(token) =>
        match verify(token)
        case Failure(e) => Unauthorized(e)
        case Success(claims) => Proceed(claims)
  }

  /** The token after "Bearer " is read back whole when it has no spaces, and only the second
      field is taken when more follow. */
  lemma BearerRoundTrip(t: string, more: string)
    requires ' ' !in t
    ensures ExtractToken(Api.Bearer(t)) == Success(t)
    ensures ExtractToken(Api.Bearer(t) + " " + more) == Success(t)
  {
    assert Api.Bearer(t) == "Bearer" + [' '] + t;
    SplitAt("Bearer", ' ', t);
    SplitWithout(t, ' ');
    assert Api.Bearer(t) + " " + more == "Bearer" + [' '] + (t + [' '] + more);
    SplitAt("Bearer", ' ', t + [' '] + more);
    SplitAt(t, ' ', more);
  }

  /** Client and server agree: a request the interceptor stamped with a stored token without
      spaces reaches the view exactly when the verifier accepts that token. */
  lemma InterceptedRequestAuthorizes(st: Storage, headers: map<string, string>, verify: string -> Result<Json, string>)
    requires Api.BearerToken(st).Some? && ' ' !in Api.BearerToken(st).value
    ensures var h := Api.Intercepted(headers, st);
            && "Authorization" in h
            && (Authorize(Some(h["Authorization"]), verify).Proceed? <==> verify(Api.BearerToken(st).value).Success?)
  {
    BearerRoundTrip(Api.BearerToken(st).value, "");
  }

  /** The incoming request as the decorator touches it. `headers` is keyed by Werkzeug's
      canonical header names, so a client's `authorization` arrives as `Authorization`; the
      case-insensitive lookup of `request.headers.get` is that canonical form. */
  class HttpRequest {
    var headers: map<string, string>
    var user: Option<Json>

    constructor(headers: map<string, string>)
      ensures this.headers == headers && user.None?
    {
      this.headers := headers;
      user := None;
    }
  }

  /** `decorated_function`: on success the claims are attached to the request before the view
      runs; a rejected request is left as it came. */
  method Decorated(request: HttpRequest, verify: string -> Result<Json, string>) returns (o: Outcome)
    modifies request
    ensures o == Authorize(if "Authorization" in request.headers then Some(request.headers["Authorization"]) else None, verify)
    ensures o.Proceed? ==> request.user == Some(o.user)
    ensures o.Unauthorized? ==> request.user == old(request.user)
    ensures request.headers == old(request.headers)
  {
    if "Authorization" !in request.headers || request.headers["Authorization"] == [] {
      return Unauthorized(MissingToken);
    }
    var parts := Split(request.headers["Authorization"], ' ');
    if |parts| < 2 {
      return Unauthorized(IndexOutOfRange);
    }
    var token := parts[1];
    match verify(token) {
      case Failure(e) =>
        return Unauthorized(e);
      case Success(claims) =>
        request.user := Some(claims);
        return Proceed(claims);
    }
  }
}
