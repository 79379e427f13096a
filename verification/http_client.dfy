/**
  The shared HTTP client: a request step that attaches the stored bearer
  token, and a response step that lets 2xx replies through and turns every
  failure into a rejection with a single `message` field. The transport is a
  parameter: a function from the outgoing configuration to what came back.
*/
module HttpClient {
  import opened Base
  import opened Js
  import opened Session

  const BaseUrl := "http://localhost:5000/api"
  const AuthorizationHeader := "Authorization"
  const BearerPrefix := "Bearer "

  const GenericServerMessage := "An error occurred"
  const NoResponseMessage := "No response from server. Please check your connection."
  const SetupMessage := "Error setting up request."

  /** The parts of an outgoing request the client touches. */
  datatype Config = Config(url: string, headers: map<string, string>)

  /**
    A request to `path` with the instance defaults: base URL and JSON content
    type. Paths are root-relative (one leading `/`, as every call site
    passes), so axios's join of base URL and path is plain concatenation.
  */
  function Outgoing(path: string): (c: Config)
    requires |path| > 0 && path[0] == '/' && (|path| == 1 || path[1] != '/')
    ensures c.url == BaseUrl + path
    ensures AuthorizationHeader !in c.headers
  {
    Config(BaseUrl + path, map["Content-Type" := "application/json"])
  }

  /** What the request step produces: the configuration to send, or the exception `JSON.parse` threw. */
  datatype Prepared = Ready(config: Config) | SetupThrew

  /** `userInfo?.token` from local storage; `None` when the entry is missing, not an object, or has no token. */
  function StoredToken(st: Storage): (t: Option<Json>)
    ensures ParseStored(st, UserInfoKey).Throws? ==> t.None?
    ensures t.Some? ==> ParseStored(st, UserInfoKey).Parsed? && ParseStored(st, UserInfoKey).value.JObj?
  {
    match ParseStored(st, UserInfoKey)
    case Throws => None
    case Parsed(v) => Prop(v, "token")
  }

  /** The request step attaches a header exactly when the stored token is truthy. */
  predicate HasToken(st: Storage) {
    TruthyOpt(StoredToken(st))
  }

  /**
    The request interceptor. The URL and every other header are untouched;
    `Authorization` becomes `Bearer <token>` when the stored token is truthy
    and is otherwise left as it was.
  */
  function AttachToken(cfg: Config, st: Storage): (r: Prepared)
    ensures r.SetupThrew? <==> ParseStored(st, UserInfoKey).Throws?
    ensures r.Ready? ==> r.config.url == cfg.url
    ensures r.Ready? ==> forall h :: h != AuthorizationHeader ==>
              (h in r.config.headers <==> h in cfg.headers) &&
              (h in cfg.headers ==> r.config.headers[h] == cfg.headers[h])
    ensures r.Ready? && HasToken(st) ==>
              AuthorizationHeader in r.config.headers &&
              r.config.headers[AuthorizationHeader] == BearerPrefix + ToText(StoredToken(st).value)
    ensures r.Ready? && !HasToken(st) ==> r.config == cfg
  {
    if ParseStored(st, UserInfoKey).Throws? then SetupThrew
    else if HasToken(st) then
      Ready(cfg.(headers := cfg.headers[AuthorizationHeader := BearerPrefix + ToText(StoredToken(st).value)]))
    else Ready(cfg)
  }

  /** A server reply. */
  datatype Response = Response(status: nat, data: Json)

  /** What the transport reports for a dispatched request. */
  datatype Exchange =
    | Replied(response: Response)
    | NoReply       // the request went out, nothing came back
    | NotSent       // the request could not be built or dispatched

  /** The error object the response step receives: the reply, if any, and whether a request went out. */
  datatype AxiosError = AxiosError(response: Option<Response>, request: bool)

  /** The value every failure is rejected with: an object whose only field is `message`. */
  datatype Rejection = Rejection(message: Json)

  /** What a call resolves or rejects with. */
  datatype Outcome = Resolved(response: Response) | Rejected(reason: Rejection)

  /** Which of the three error branches applies; exactly one does. */
  datatype Branch = ServerAnswered | NoAnswer | Setup

  function BranchOf(e: AxiosError): Branch {
    if e.response.Some? then ServerAnswered
    else if e.request then NoAnswer
    else Setup
  }

  /** The response interceptor's error handler. */
  function NormaliseError(e: AxiosError): (r: Rejection)
    ensures Truthy(r.message)
    ensures BranchOf(e) == ServerAnswered ==>
              if TruthyOpt(Prop(e.response.value.data, "message"))
              then r.message == Prop(e.response.value.data, "message").value
              else r.message == JStr(GenericServerMessage)
    ensures BranchOf(e) == NoAnswer ==> r.message == JStr(NoResponseMessage)
    ensures BranchOf(e) == Setup ==> r.message == JStr(SetupMessage)
  {
    match BranchOf(e)
    case ServerAnswered => Rejection(OrElse(Prop(e.response.value.data, "message"), JStr(GenericServerMessage)))
    case NoAnswer => Rejection(JStr(NoResponseMessage))
    case Setup => Rejection(JStr(SetupMessage))
  }

  predicate Success(status: nat) {
    200 <= status < 300
  }

  /**
    One call through the client: the request step, the transport, then the
    response step. An exception in the request step reaches the response
    step's error handler as an error with neither reply nor request.
  */
  function Send(cfg: Config, st: Storage, transport: Config -> Exchange): (r: Outcome)
    ensures r.Rejected? ==> Truthy(r.reason.message)
    ensures ParseStored(st, UserInfoKey).Throws? ==> r == Rejected(Rejection(JStr(SetupMessage)))
    ensures r.Resolved? ==>
              && AttachToken(cfg, st).Ready?
              && transport(AttachToken(cfg, st).config) == Replied(r.response)
              && Success(r.response.status)
  {
    match AttachToken(cfg, st)
    case SetupThrew => Rejected(NormaliseError(AxiosError(None, false)))
    case Ready(c) =>
      match transport(c)
      case Replied(resp) =>
        if Success(resp.status) then Resolved(resp)
        else Rejected(NormaliseError(AxiosError(Some(resp), true)))
      case NoReply => Rejected(NormaliseError(AxiosError(None, true)))
      case NotSent => Rejected(NormaliseError(AxiosError(None, false)))
  }

  // ---------------------------------------------------------------------------
  // Properties of the client.
  // ---------------------------------------------------------------------------

  /** A 2xx reply reaches the caller unchanged, whatever it contains. */
  lemma SuccessPassesThrough(cfg: Config, st: Storage, transport: Config -> Exchange)
    requires AttachToken(cfg, st).Ready?
    requires transport(AttachToken(cfg, st).config).Replied?
    requires Success(transport(AttachToken(cfg, st).config).response.status)
    ensures Send(cfg, st, transport) == Resolved(transport(AttachToken(cfg, st).config).response)
  {
  }

  /** A reply outside 2xx is rejected with the server's `message`, or the generic text when it has none. */
  lemma FailureStatusRejected(cfg: Config, st: Storage, transport: Config -> Exchange)
    requires AttachToken(cfg, st).Ready?
    requires transport(AttachToken(cfg, st).config).Replied?
    requires !Success(transport(AttachToken(cfg, st).config).response.status)
    ensures var data := transport(AttachToken(cfg, st).config).response.data;
      Send(cfg, st, transport) == Rejected(Rejection(OrElse(Prop(data, "message"), JStr(GenericServerMessage))))
  {
  }

  /** The three error branches cover every error and never overlap; each has its own fixed text. */
  lemma BranchesPartition(e: AxiosError)
    ensures BranchOf(e) == ServerAnswered <==> e.response.Some?
    ensures BranchOf(e) == NoAnswer <==> e.response.None? && e.request
    ensures BranchOf(e) == Setup <==> e.response.None? && !e.request
  {
  }

  /**
    The header a server sees: with a truthy stored token every dispatched
    request carries `Bearer <token>`, and without one it carries whatever
    `Authorization` the caller put there, which the defaults never do.
  */
  lemma BearerReachesServer(path: string, st: Storage)
    requires |path| > 0 && path[0] == '/' && (|path| == 1 || path[1] != '/')
    requires ParseStored(st, UserInfoKey).Parsed?
    ensures var c := AttachToken(Outgoing(path), st).config;
      (AuthorizationHeader in c.headers <==> HasToken(st)) &&
      (HasToken(st) ==> c.headers[AuthorizationHeader] == BearerPrefix + ToText(StoredToken(st).value))
  {
  }
}
