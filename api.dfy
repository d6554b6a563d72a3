/** The shared axios instance (client-side/src/api/index.js) together with the browser
    state it touches: the stored session (`localStorage` keys `token` and `user`), the
    current location, and the log of requests as the request interceptor hands them
    on. Server answers are inputs. */
module Api {
  import opened Shared

  const BaseUrl := "http://localhost:8000/api"
  const LoginPath := "/login"
  const AdminPath := "/admin"

  type Headers = map<string, string>

  /** The headers `axios.create` gives every request. */
  const DefaultHeaders: Headers := map["Accept" := "application/json", "Content-Type" := "application/json"]

  /** The stored user; only its name is read back. */
  datatype User = User(name: Option<string>)

  /** The two `localStorage` keys; `None` is a key that is not set. */
  datatype Session = Session(token: Option<string>, user: Option<User>)

  const SignedOut := Session(None, None)

  /** `if (token)` on the result of `localStorage.getItem('token')`: null and '' are falsy. */
  predicate Truthy(token: Option<string>) {
    token.Some? && token.value != ""
  }

  datatype Verb = Get | Post | Put | Delete

  /** A file picked in a file input, identified by name. */
  datatype FileRef = FileRef(name: string)

  /** A JSON scalar in a request body. */
  datatype Value = Text(text: string) | Number(n: int) | Null

  /** A `FormData` entry: text or a file. */
  datatype Part = Field(text: string) | Attachment(file: FileRef)

  datatype Payload =
    | NoPayload
    | Json(fields: seq<(string, Value)>)
    | Multipart(parts: seq<(string, Part)>)

  /** A call as a page makes it: verb, path below the base URL, body, per-call headers. */
  datatype Request = Request(verb: Verb, path: string, payload: Payload, headers: Headers)

  /** A request as the request interceptor hands it on to axios' adapter. */
  datatype Sent = Sent(verb: Verb, url: string, payload: Payload, headers: Headers)

  /** `error.response.data` of a failed call. */
  datatype ErrorBody = ErrorBody(errors: Errors, message: string)

  /** How a call ends: a 2xx response with its body, an error response with its status,
      or an error without a response (network failure, or a TypeError thrown while the
      page read the body). */
  datatype Outcome<T> = Ok(body: T) | HttpErr(status: int, error: ErrorBody) | NoResponse {
    predicate Failed() {
      !Ok?
    }
    predicate HasStatus(code: int) {
      HttpErr? && status == code
    }
  }

  /** A list endpoint's body: an object with optional `success` and `data`, a bare
      JSON array, or an empty body (on which every property reads as undefined). */
  datatype ListBody<T> =
    | Envelope(success: bool, data: Option<seq<T>>)
    | BareArray(items: seq<T>)
    | Blank

  /** A single-record endpoint's body: `{success, data}` or an empty body. */
  datatype Reply<T> = Reply(success: bool, data: Option<T>) | BlankReply

  /** `response.data && response.data.success` followed by `response.data.data`. */
  function SuccessData<T>(body: ListBody<T>): (r: Option<seq<T>>)
    ensures r.Some? <==> body.Envelope? && body.success && body.data.Some?
    ensures r.Some? ==> r == body.data
  {
    if body.Envelope? && body.success then body.data else None
  }

  /** The request interceptor: a Bearer header exactly when a truthy token is stored;
      every other header is forwarded as it is. */
  function Authorized(headers: Headers, token: Option<string>): (r: Headers)
    ensures Truthy(token) ==> "Authorization" in r && r["Authorization"] == "Bearer " + token.value
    ensures !Truthy(token) ==> r == headers
    ensures r.Keys == headers.Keys + (if Truthy(token) then {"Authorization"} else {})
    ensures forall k :: k in headers && k != "Authorization" ==> r[k] == headers[k]
  {
    if Truthy(token) then headers["Authorization" := "Bearer " + token.value] else headers
  }

  /** The request a page's call puts on the wire while `session` is stored. */
  function Stamp(req: Request, session: Session): (s: Sent)
    ensures s.verb == req.verb && s.url == BaseUrl + req.path && s.payload == req.payload
    ensures "Authorization" !in req.headers ==>
              ("Authorization" in s.headers <==> Truthy(session.token))
    ensures forall k :: k != "Authorization" ==>
              (k in s.headers <==> k in DefaultHeaders || k in req.headers)
    ensures Truthy(session.token) ==>
              "Authorization" in s.headers && s.headers["Authorization"] == "Bearer " + session.token.value
    ensures !Truthy(session.token) ==> s.headers == DefaultHeaders + req.headers
    ensures forall k :: k != "Authorization" && k in req.headers ==> s.headers[k] == req.headers[k]
    ensures forall k :: k != "Authorization" && k !in req.headers && k in DefaultHeaders ==>
              s.headers[k] == DefaultHeaders[k]
  {
    Sent(req.verb, BaseUrl + req.path, req.payload, Authorized(DefaultHeaders + req.headers, session.token))
  }

  /** The browser state the client reads and writes. */
  datatype Browser = Browser(session: Session, location: string, sent: seq<Sent>)

  /** Issuing a call: it is logged with the headers of the moment. */
  function Dispatch(b: Browser, req: Request): Browser {
    b.(sent := b.sent + [Stamp(req, b.session)])
  }

  /** The response interceptor's effect on the browser. */
  function Settle<T>(b: Browser, answer: Outcome<T>): Browser {
    if answer.HasStatus(401) then b.(session := SignedOut, location := LoginPath) else b
  }

  /** One awaited call. */
  function Exchange<T>(b: Browser, req: Request, answer: Outcome<T>): Browser {
    Settle(Dispatch(b, req), answer)
  }

  /** A 401 signs the browser out whatever else it holds, and once signed out another
      401 changes nothing: the interceptor's effect does not depend on which of several
      pending answers arrives first. */
  lemma SettleCommutes<T, U>(b: Browser, x: Outcome<T>, y: Outcome<U>)
    ensures Settle(Settle(b, x), y) == Settle(Settle(b, y), x)
  {
  }

  /** The `config` object the request interceptor receives. */
  class RequestConfig {
    var headers: Headers

    constructor (headers: Headers)
      ensures this.headers == headers
    {
      this.headers := headers;
    }
  }

  class Client {
    var session: Session
    var location: string
    var sent: seq<Sent>

    function Snapshot(): Browser
      reads this
    {
      Browser(session, location, sent)
    }

    constructor (session: Session, location: string)
      ensures Snapshot() == Browser(session, location, [])
    {
      this.session := session;
      this.location := location;
      this.sent := [];
    }

    /** The request interceptor, writing `config.headers` in place. */
    method OnRequest(config: RequestConfig)
      modifies config
      ensures config.headers == Authorized(old(config.headers), session.token)
    {
      var token := session.token;
      if Truthy(token) {
        config.headers := config.headers["Authorization" := "Bearer " + token.value];
      }
    }

    /** The response interceptor's error branch: a 401 removes both keys and sends the
        browser to the login page; the error is passed on in every case. */
    method OnError<T>(answer: Outcome<T>) returns (r: Outcome<T>)
      requires answer.Failed()
      modifies this`session, this`location
      ensures r == answer
      ensures answer.HasStatus(401) ==> session == SignedOut && location == LoginPath
      ensures !answer.HasStatus(401) ==> session == old(session) && location == old(location)
    {
      if answer.HttpErr? && answer.status == 401 {
        session := session.(token := None);
        session := session.(user := None);
        location := LoginPath;
      }
      r := answer;
    }

    /** Sends a call: the base URL and default headers are added, then the request
        interceptor runs. */
    method Issue(req: Request)
      modifies this`sent
      ensures Snapshot() == Dispatch(old(Snapshot()), req)
    {
      var config := new RequestConfig(DefaultHeaders + req.headers);
      OnRequest(config);
      sent := sent + [Sent(req.verb, BaseUrl + req.path, req.payload, config.headers)];
    }

    /** Receives the answer: a response is returned unchanged, an error goes through
        `OnError` and is rejected again. */
    method Receive<T>(answer: Outcome<T>) returns (r: Outcome<T>)
      modifies this`session, this`location
      ensures r == answer
      ensures Snapshot() == Settle(old(Snapshot()), answer)
    {
      if answer.Ok? {
        r := answer;
      } else {
        r := OnError(answer);
      }
    }

    /** `await Api.get(...)`, `Api.post(...)`, ...: issue, then receive. */
    method Send<T>(req: Request, answer: Outcome<T>) returns (r: Outcome<T>)
      modifies this
      ensures r == answer
      ensures Snapshot() == Exchange(old(Snapshot()), req, answer)
    {
      Issue(req);
      r := Receive(answer);
    }
  }
}
