/** The HTTP client (`api.js`): the request interceptor that attaches the bearer token, the
    token write of `login`, and the method, path and body of every call the client makes. */
module Api {
  import opened Wrappers
  import opened Strings
  import opened Json
  import opened Web

  const AccessTokenKey := "access_token"
  const LegacyTokenKey := "token"

  // ---------------------------------------------------------------- the interceptor

  /** The token the interceptor sends: the stored `access_token` when it is non-empty, else the
      legacy `token` item when that is non-empty, else none. */
  function BearerToken(st: Storage): (t: Option<string>)
    ensures t.Some? <==> (AccessTokenKey in st && st[AccessTokenKey] != []) || (LegacyTokenKey in st && st[LegacyTokenKey] != [])
    ensures AccessTokenKey in st && st[AccessTokenKey] != [] ==> t == Some(st[AccessTokenKey])
    ensures (!(AccessTokenKey in st && st[AccessTokenKey] != []) && LegacyTokenKey in st && st[LegacyTokenKey] != [])
              ==> t == Some(st[LegacyTokenKey])
  {
    var v := Or(Some(ItemValue(st, AccessTokenKey)), Some(ItemValue(st, LegacyTokenKey))).value;
    if JsTruthy(v) then Some(v.s) else None
  }

  /** The `Authorization` header value for a token. */
  function Bearer(t: string): string {
    "Bearer " + t
  }

  datatype Method = GET | POST | PUT | PATCH | DELETE

  /** One uploaded file, known here by its name. */
  datatype File = File(name: string)

  /** A multipart form entry value: a string or a file. */
  datatype FormValue = Text(value: string) | Upload(file: File)

  datatype Body = NoBody | JsonBody(value: Json) | Multipart(entries: seq<(string, FormValue)>)

  /** An axios request configuration as the interceptor sees it. */
  class Config {
    var verb: Method
    var url: string
    var headers: map<string, string>
    var data: Body

    constructor(verb: Method, url: string, headers: map<string, string>, data: Body)
      ensures this.verb == verb && this.url == url && this.headers == headers && this.data == data
    {
      this.verb := verb;
      this.url := url;
      this.headers := headers;
      this.data := data;
    }
  }

  /** The headers after the interceptor: the bearer header is added exactly when a token is stored. */
  function Intercepted(headers: map<string, string>, st: Storage): (r: map<string, string>)
    ensures BearerToken(st).None? ==> r == headers
    ensures BearerToken(st).Some? ==> "Authorization" in r && r["Authorization"] == Bearer(BearerToken(st).value)
    ensures forall k :: k != "Authorization" ==> (k in r <==> k in headers) && (k in r ==> r[k] == headers[k])
  {
    match BearerToken(st)
    case Some(t) => headers["Authorization" := Bearer(t)]
    case None => headers
  }

  /** The request interceptor: updates the configuration's headers in place, alters nothing
      else, and hands back the same configuration. */
  method Intercept(config: Config, st: Storage) returns (r: Config)
    modifies config
    ensures r == config
    ensures config.headers == Intercepted(old(config.headers), st)
    ensures config.verb == old(config.verb) && config.url == old(config.url) && config.data == old(config.data)
  {
    var token := Or(Some(ItemValue(st, AccessTokenKey)), Some(ItemValue(st, LegacyTokenKey))).value;
    if JsTruthy(token) {
      config.headers := config.headers["Authorization" := "Bearer " + token.s];
    }
    return config;
  }

  // ---------------------------------------------------------------- login

  /** The token a login response issues: `data.access_token || data.token`. */
  function IssuedToken(data: Json): Option<Json> {
    Or(Get(data, AccessTokenKey), Get(data, LegacyTokenKey))
  }

  /** `login`'s storage write as written: `String` of the issued token, which is the text
      "undefined" when the response carries neither field. A null body is a TypeError. */
  function LoginWriteAsWritten(st: Storage, data: Json): Result<Storage, Error> {
    if data == JNull then Failure(TypeError(AccessTokenKey))
    else Success(st[AccessTokenKey := StringOf(IssuedToken(data))])
  }

  /** A response without either token field makes every later request carry "Bearer undefined". */
  lemma LoginStoresUndefined(st: Storage)
    ensures LoginWriteAsWritten(st, JObj([])) == Success(st[AccessTokenKey := "undefined"])
    ensures Intercepted(map[], LoginWriteAsWritten(st, JObj([])).value) == map["Authorization" := "Bearer undefined"]
  {
    var st' := st[AccessTokenKey := "undefined"];
    assert IssuedToken(JObj([])) == None;
    assert BearerToken(st') == Some("undefined");
    assert Bearer("undefined") == "Bearer undefined";
  }

  /** `login`'s storage write as intended: store the issued token when it is a non-empty string
      and leave storage alone otherwise. */
  function LoginWrite(st: Storage, data: Json): Result<Storage, Error> {
    if data == JNull then Failure(TypeError(AccessTokenKey))
    else
      match IssuedToken(data)
      case Some(JStr(t)) => if t != [] then Success(st[AccessTokenKey := t]) else Success(st)
      case _ => Success(st)
  }

  /** After the intended login, requests carry the issued token, preferring `access_token` to
      `token`; a response without one leaves the header the interceptor sends unchanged. */
  lemma LoginThenIntercept(st: Storage, data: Json, headers: map<string, string>)
    requires data != JNull
    ensures var st' := LoginWrite(st, data).value;
      && (Truthy(Get(data, AccessTokenKey)) && Get(data, AccessTokenKey).value.JStr? ==>
            Intercepted(headers, st') == headers["Authorization" := Bearer(Get(data, AccessTokenKey).value.s)])
      && (!Truthy(Get(data, AccessTokenKey)) && Truthy(Get(data, LegacyTokenKey)) && Get(data, LegacyTokenKey).value.JStr? ==>
            Intercepted(headers, st') == headers["Authorization" := Bearer(Get(data, LegacyTokenKey).value.s)])
      && (!Truthy(Get(data, AccessTokenKey)) && !Truthy(Get(data, LegacyTokenKey)) ==>
            Intercepted(headers, st') == Intercepted(headers, st))
  {
  }

  // ---------------------------------------------------------------- calls

  /** A request as sent: method, path, body and the headers the call sets itself. */
  datatype Request = Request(verb: Method, path: string, body: Body, headers: map<string, string>)

  /** What a backend route table sees in a request: the operation and the ids in its path. */
  datatype Route =
    | ListRelations
    | AddRelation
    | PutRelation(id: string)
    | RemoveRelation(id: string)
    | ListInteractions(relationId: string)
    | AddInteraction(relationId: string)
    | PatchInteraction(id: string)
    | RemoveInteraction(id: string)
    | Search

  /** Routing by method and path, as a backend route table reads the paths this client builds:
      a fixed path, or a fixed prefix followed by one id segment (and a fixed suffix). */
  function RouteOf(verb: Method, path: string): Option<Route> {
    if StartsWith(path, "/relations/") then
      var rest := path[|"/relations/"|..];
      if rest == "add" && verb == POST then Some(AddRelation)
      else if '/' !in rest then
        if verb == PUT then Some(PutRelation(rest))
        else if verb == DELETE then Some(RemoveRelation(rest))
        else None
      else if EndsWith(rest, "/interactions") && '/' !in rest[..|rest| - |"/interactions"|] then
        var id := rest[..|rest| - |"/interactions"|];
        if verb == GET then Some(ListInteractions(id))
        else if verb == POST then Some(AddInteraction(id))
        else None
      else None
    else if StartsWith(path, "/interactions/") then
      var id := path[|"/interactions/"|..];
      if '/' in id then None
      else if verb == PATCH then Some(PatchInteraction(id))
      else if verb == DELETE then Some(RemoveInteraction(id))
      else None
    else if path == "/relations" && verb == GET then Some(ListRelations)
    else if path == "/api/search" && verb == POST then Some(Search)
    else None
  }

  /** An id interpolated into a path (`${id}`) that stays one path segment. */
  predicate Segment(id: Option<Json>) {
    '/' !in StringOf(id)
  }

  /** `/relations/${id}`. */
  function RelationPath(id: Option<Json>): string {
    "/relations/" + StringOf(id)
  }

  /** `/relations/${relationId}/interactions`. */
  function InteractionsPath(relationId: Option<Json>): string {
    "/relations/" + StringOf(relationId) + "/interactions"
  }

  /** `/interactions/${id}`. */
  function InteractionPath(id: Option<Json>): string {
    "/interactions/" + StringOf(id)
  }

  /** A relation's path routes to updating or deleting that relation. */
  lemma RelationPathRoute(id: Option<Json>)
    requires Segment(id)
    ensures RouteOf(PUT, RelationPath(id)) == Some(PutRelation(StringOf(id)))
    ensures RouteOf(DELETE, RelationPath(id)) == Some(RemoveRelation(StringOf(id)))
  {
    var path := RelationPath(id);
    assert path[..|"/relations/"|] == "/relations/";
    assert path[|"/relations/"|..] == StringOf(id);
  }

  /** A relation's interactions path routes to listing or adding that relation's interactions. */
  lemma InteractionsPathRoute(relationId: Option<Json>)
    requires Segment(relationId)
    ensures RouteOf(GET, InteractionsPath(relationId)) == Some(ListInteractions(StringOf(relationId)))
    ensures RouteOf(POST, InteractionsPath(relationId)) == Some(AddInteraction(StringOf(relationId)))
  {
    var x := StringOf(relationId);
    var path := InteractionsPath(relationId);
    var rest := x + "/interactions";
    assert path == "/relations/" + rest;
    assert path[..|"/relations/"|] == "/relations/";
    assert path[|"/relations/"|..] == rest;
    assert rest[|x|] == '/';
    assert |rest| >= 13;
    assert rest[|rest| - |"/interactions"|..] == "/interactions";
    assert rest[..|rest| - |"/interactions"|] == x;
  }

  /** An interaction's path routes to patching or deleting that interaction. */
  lemma InteractionPathRoute(id: Option<Json>)
    requires Segment(id)
    ensures RouteOf(PATCH, InteractionPath(id)) == Some(PatchInteraction(StringOf(id)))
    ensures RouteOf(DELETE, InteractionPath(id)) == Some(RemoveInteraction(StringOf(id)))
  {
    var path := InteractionPath(id);
    assert path[..11][1] == 'i';
    assert path[..|"/interactions/"|] == "/interactions/";
    assert path[|"/interactions/"|..] == StringOf(id);
  }

  /** The object literal `{key: v}` as JSON: an undefined value leaves the key out. */
  function Field(key: string, v: Option<Json>): seq<(string, Json)> {
    if v.Some? then [(key, v.value)] else []
  }

  function FetchRelations(): (r: Request)
    ensures RouteOf(r.verb, r.path) == Some(ListRelations)
  {
    Request(GET, "/relations", NoBody, map[])
  }

  function CreateRelation(relation: Json): (r: Request)
    ensures RouteOf(r.verb, r.path) == Some(AddRelation) && r.body == JsonBody(relation)
  {
    Request(POST, "/relations/add", JsonBody(relation), map[])
  }

  function UpdateRelation(id: Option<Json>, relation: Json): (r: Request)
    ensures Segment(id) ==> RouteOf(r.verb, r.path) == Some(PutRelation(StringOf(id)))
    ensures r.body == JsonBody(relation)
  {
    if Segment(id) then RelationPathRoute(id); Request(PUT, RelationPath(id), JsonBody(relation), map[])
    else Request(PUT, RelationPath(id), JsonBody(relation), map[])
  }

  function DeleteRelation(id: Option<Json>): (r: Request)
    ensures Segment(id) ==> RouteOf(r.verb, r.path) == Some(RemoveRelation(StringOf(id)))
  {
    if Segment(id) then RelationPathRoute(id); Request(DELETE, RelationPath(id), NoBody, map[])
    else Request(DELETE, RelationPath(id), NoBody, map[])
  }

  function FetchInteractions(relationId: Option<Json>): (r: Request)
    ensures Segment(relationId) ==> RouteOf(r.verb, r.path) == Some(ListInteractions(StringOf(relationId)))
  {
    if Segment(relationId) then InteractionsPathRoute(relationId); Request(GET, InteractionsPath(relationId), NoBody, map[])
    else Request(GET, InteractionsPath(relationId), NoBody, map[])
  }

  /** The second argument of `createInteraction`: `{text, files}`, either possibly undefined. */
  datatype InteractionPayload = InteractionPayload(text: Option<Json>, files: Option<seq<File>>)

  /** One `images` entry per file, in order. */
  function FileEntries(files: seq<File>): (r: seq<(string, FormValue)>)
    ensures |r| == |files|
    ensures forall i :: 0 <= i < |files| ==> r[i] == ("images", Upload(files[i]))
  {
    if files == [] then [] else FileEntries(files[..|files| - 1]) + [("images", Upload(files[|files| - 1]))]
  }

  /** The form `createInteraction` builds: the `text` entry first (`String(text)`), then the
      files, which default to none. */
  function FormEntries(p: InteractionPayload): (r: seq<(string, FormValue)>)
    ensures |r| == 1 + |p.files.GetOr([])|
    ensures r[0] == ("text", Text(StringOf(p.text)))
    ensures forall i :: 1 <= i < |r| ==> r[i] == ("images", Upload(p.files.GetOr([])[i - 1]))
  {
    [("text", Text(StringOf(p.text)))] + FileEntries(p.files.GetOr([]))
  }

  /** A `FormData` under construction. */
  class FormData {
    var entries: seq<(string, FormValue)>

    constructor()
      ensures entries == []
    {
      entries := [];
    }

    method Append(name: string, value: FormValue)
      modifies this
      ensures entries == old(entries) + [(name, value)]
    {
      entries := entries + [(name, value)];
    }
  }

  /** The request `createInteraction(relationId, payload)` sends: an undefined payload cannot be
      destructured and the call rejects; otherwise the form is posted as multipart to the
      relation's interactions, whatever the number of files. */
  function InteractionRequest(relationId: Option<Json>, payload: Option<InteractionPayload>): (r: Result<Request, Error>)
    ensures payload.None? <==> r.Failure?
    ensures r.Success? ==> r.value.verb == POST && r.value.body == Multipart(FormEntries(payload.value))
    ensures r.Success? ==> r.value.headers == map["Content-Type" := "multipart/form-data"]
    ensures r.Success? && Segment(relationId) ==> RouteOf(r.value.verb, r.value.path) == Some(AddInteraction(StringOf(relationId)))
  {
    if payload.None? then Failure(TypeError("text"))
    else
      var req := Request(POST, InteractionsPath(relationId), Multipart(FormEntries(payload.value)),
                         map["Content-Type" := "multipart/form-data"]);
      if Segment(relationId) then InteractionsPathRoute(relationId); Success(req) else Success(req)
  }

  /** `createInteraction`, building the form one `append` at a time. */
  method CreateInteraction(relationId: Option<Json>, payload: Option<InteractionPayload>) returns (r: Result<Request, Error>)
    ensures r == InteractionRequest(relationId, payload)
  {
    if payload.None? {
      return Failure(TypeError("text"));
    }
    var p := payload.value;
    var files := p.files.GetOr([]);
    var form := new FormData();
    form.Append("text", Text(StringOf(p.text)));
    for i := 0 to |files|
      invariant form.entries == [("text", Text(StringOf(p.text)))] + FileEntries(files[..i])
    {
      assert files[..i + 1][..i] == files[..i];
      form.Append("images", Upload(files[i]));
    }
    assert files[..|files|] == files;
    return Success(Request(POST, InteractionsPath(relationId), Multipart(form.entries), map["Content-Type" := "multipart/form-data"]));
  }

  /** `updateInteraction(id, {text})`: PATCH with body `{content: text}`. */
  function UpdateInteraction(id: Option<Json>, payload: Option<Json>): (r: Result<Request, Error>)
    ensures payload.None? || payload == Some(JNull) <==> r.Failure?
    ensures r.Success? ==> r.value.body == JsonBody(JObj(Field("content", Get(payload.value, "text"))))
    ensures r.Success? && Segment(id) ==> RouteOf(r.value.verb, r.value.path) == Some(PatchInteraction(StringOf(id)))
  {
    if payload.None? || payload == Some(JNull) then Failure(TypeError("text"))
    else
      var req := Request(PATCH, InteractionPath(id), JsonBody(JObj(Field("content", Get(payload.value, "text")))), map[]);
      if Segment(id) then InteractionPathRoute(id); Success(req) else Success(req)
  }

  function DeleteInteraction(id: Option<Json>): (r: Request)
    ensures Segment(id) ==> RouteOf(r.verb, r.path) == Some(RemoveInteraction(StringOf(id)))
  {
    if Segment(id) then InteractionPathRoute(id); Request(DELETE, InteractionPath(id), NoBody, map[])
    else Request(DELETE, InteractionPath(id), NoBody, map[])
  }

  /** `fetchSearchResults(query)`: the body holds the query and a match count of 5, nothing else. */
  function FetchSearchResults(query: Option<Json>): (r: Request)
    ensures RouteOf(r.verb, r.path) == Some(Search)
    ensures r.body == JsonBody(SearchBody(query))
  {
    assert "/api/search"[..11][1] == 'a';
    Request(POST, "/api/search", JsonBody(SearchBody(query)), map[])
  }

  /** The search body `{query, match_count: 5}`: exactly the query (left out when undefined) and a
      match count of 5. */
  function SearchBody(query: Option<Json>): (b: Json)
    ensures Get(b, "match_count") == Some(JNum(5)) && Get(b, "query") == query
    ensures b.JObj? && |b.members| == (if query.Some? then 2 else 1)
  {
    match query
    case None => JObj([("match_count", JNum(5))])
    case Some(q) =>
      var ms := [("query", q), ("match_count", JNum(5))];
      assert ms[..1] == [("query", q)];
      assert Lookup(ms[..1], "query") == Some(q);
      JObj(ms)
  }
}
