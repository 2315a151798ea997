/** The frontend's authenticated request wrapper (lib/api.ts). The session getSession() would
    return, the NEXT_PUBLIC_API_URL value and the backend's reply to a request are parameters;
    `calls` lists the requests fetch was asked to send. */
module Api {
  import opened Wrappers
  import opened Json

  const DefaultApiBase := "http://localhost:8080"

  /** `process.env.NEXT_PUBLIC_API_URL || 'http://localhost:8080'`: unset or empty falls back. */
  function ApiBase(env: Option<string>): (base: string)
    ensures env.Some? && env.value != "" ==> base == env.value
    ensures env.None? || env.value == "" ==> base == DefaultApiBase
  {
    if env.Some? && env.value != "" then env.value else DefaultApiBase
  }

  /** session.user.email: missing, null or an address. */
  datatype Email = Undefined | NullEmail | Address(address: string)

  datatype User = User(email: Email)

  datatype Session = Session(user: Option<User>)

  /** How a template literal renders the email. */
  function EmailText(e: Email): string
  {
    match e
    case Undefined => "undefined"
    case NullEmail => "null"
    case Address(a) => a
  }

  /** RequestInit as the callers use it: method, body and a plain object of headers. */
  datatype Options = Options(httpMethod: Option<string>, body: Option<Json>, headers: map<string, string>)

  const NoOptions := Options(None, None, map[])

  /** The request handed to fetch. */
  datatype Call = Call(url: string, httpMethod: Option<string>, body: Option<Json>, headers: map<string, string>)

  /** What fetch settles to: a transport failure, or a response with its status flag, status
      text, body text, and what response.json() gives: the parsed body or the parser's message. */
  datatype Reply =
    | TransportFailure(reason: string)
    | Reply(ok: bool, statusText: string, text: string, json: Result<Json>)

  datatype ApiError =
    | NotAuthenticated
    | RequestFailed(message: string)
    | NetworkError(reason: string)
    | InvalidJson(message: string)

  /** The message of the Error the wrapper throws. */
  function Message(e: ApiError): string
  {
    match e
    case NotAuthenticated => "Not authenticated"
    case RequestFailed(m) => m
    case NetworkError(r) => r
    case InvalidJson(m) => m
  }

  /** The promise fetchWithAuth returns: resolved with a JSON value or rejected with an error. */
  datatype Answer = Resolved(value: Json) | Rejected(error: ApiError)

  datatype Outcome = Outcome(calls: seq<Call>, answer: Answer)

  predicate SignedIn(session: Option<Session>)
  {
    session.Some? && session.value.user.Some?
  }

  function DefaultHeaders(email: Email): map<string, string>
  {
    map["Content-Type" := "application/json", "Authorization" := "Bearer " + EmailText(email)]
  }

  /** `{ 'Content-Type': ..., 'Authorization': ..., ...options.headers }`: the caller's keys win. */
  function MergeHeaders(email: Email, caller: map<string, string>): (h: map<string, string>)
    ensures h.Keys == caller.Keys + {"Content-Type", "Authorization"}
    ensures forall k :: k in caller ==> h[k] == caller[k]
    ensures "Content-Type" !in caller ==> h["Content-Type"] == "application/json"
    ensures "Authorization" !in caller ==> h["Authorization"] == "Bearer " + EmailText(email)
  {
    DefaultHeaders(email) + caller
  }

  /** Turning the settled fetch into the wrapper's answer. */
  function Settle(reply: Reply): (a: Answer)
    ensures reply.TransportFailure? ==> a == Rejected(NetworkError(reply.reason))
    ensures reply.Reply? && !reply.ok ==>
      a.Rejected? && a.error.RequestFailed? &&
      (reply.text != "" ==> a.error.message == reply.text) &&
      (reply.text == "" ==> a.error.message == reply.statusText)
    ensures reply.Reply? && reply.ok ==> (a.Resolved? <==> reply.json.Ok?)
    ensures a.Resolved? ==> reply.Reply? && reply.ok && reply.json == Ok(a.value)
    ensures reply.Reply? && reply.ok && reply.json.Err? ==> a == Rejected(InvalidJson(reply.json.error))
  {
    match reply
    case TransportFailure(reason) => Rejected(NetworkError(reason))
    case Reply(ok, statusText, text, json) =>
      if !ok then Rejected(RequestFailed(if text != "" then text else statusText))
      else match json
        case Ok(value) => Resolved(value)
        case Err(message) => Rejected(InvalidJson(message))
  }

  /** fetchWithAuth(endpoint, options) against a backend that answers each call with `server`. */
  function FetchWithAuth(session: Option<Session>, env: Option<string>, endpoint: string, options: Options,
                         server: Call -> Reply): (out: Outcome)
    ensures !SignedIn(session) ==> out == Outcome([], Rejected(NotAuthenticated))
    ensures SignedIn(session) ==>
      |out.calls| == 1 &&
      out.calls[0].url == ApiBase(env) + endpoint &&
      out.calls[0].httpMethod == options.httpMethod && out.calls[0].body == options.body &&
      out.calls[0].headers == MergeHeaders(session.value.user.value.email, options.headers) &&
      out.answer == Settle(server(out.calls[0]))
  {
    if !SignedIn(session) then Outcome([], Rejected(NotAuthenticated))
    else
      var headers := MergeHeaders(session.value.user.value.email, options.headers);
      var call := Call(ApiBase(env) + endpoint, options.httpMethod, options.body, headers);
      Outcome([call], Settle(server(call)))
  }

  /** Without a signed-in user the backend is never asked, whatever it would have answered. */
  lemma UnauthenticatedSendsNothing(session: Option<Session>, env: Option<string>, endpoint: string,
                                    options: Options, server1: Call -> Reply, server2: Call -> Reply)
    requires !SignedIn(session)
    ensures FetchWithAuth(session, env, endpoint, options, server1).calls == []
    ensures FetchWithAuth(session, env, endpoint, options, server1) == FetchWithAuth(session, env, endpoint, options, server2)
    ensures Message(FetchWithAuth(session, env, endpoint, options, server1).answer.error) == "Not authenticated"
  {
  }

  const TablesEndpoint := "/api/v1/tables"

  /** api.getUserTables: one plain request to the tables path with only the default headers. */
  function GetUserTables(session: Option<Session>, env: Option<string>, server: Call -> Reply): (out: Outcome)
    ensures !SignedIn(session) ==> out == Outcome([], Rejected(NotAuthenticated))
    ensures SignedIn(session) ==>
      out.calls == [Call(ApiBase(env) + TablesEndpoint, None, None, DefaultHeaders(session.value.user.value.email))] &&
      out.answer == Settle(server(out.calls[0]))
  {
    if SignedIn(session) then
      assert MergeHeaders(session.value.user.value.email, map[]) == DefaultHeaders(session.value.user.value.email);
      FetchWithAuth(session, env, TablesEndpoint, NoOptions, server)
    else FetchWithAuth(session, env, TablesEndpoint, NoOptions, server)
  }

  function CreateTableBody(tableName: string): Json
  {
    JObj(map["tableName" := JStr(tableName)])
  }

  /** api.createUserTable: one POST of {tableName} to the tables path with only the default headers. */
  function CreateUserTable(session: Option<Session>, env: Option<string>, tableName: string, server: Call -> Reply): (out: Outcome)
    ensures !SignedIn(session) ==> out == Outcome([], Rejected(NotAuthenticated))
    ensures SignedIn(session) ==>
      out.calls == [Call(ApiBase(env) + TablesEndpoint, Some("POST"), Some(CreateTableBody(tableName)),
                         DefaultHeaders(session.value.user.value.email))] &&
      out.answer == Settle(server(out.calls[0]))
  {
    var options := Options(Some("POST"), Some(CreateTableBody(tableName)), map[]);
    if SignedIn(session) then
      assert MergeHeaders(session.value.user.value.email, map[]) == DefaultHeaders(session.value.user.value.email);
      FetchWithAuth(session, env, TablesEndpoint, options, server)
    else FetchWithAuth(session, env, TablesEndpoint, options, server)
  }
}
