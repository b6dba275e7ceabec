/** The HTTP client of src/lib/api.ts: header construction, the request each
    call sends, and the mapping from what `fetch` produced to the
    `ApiResponse` envelope.  The network is not modelled: what `fetch`,
    `response.text()` and `response.json()` produced is an input. */
module ApiClient {
  import opened Common

  const DefaultBaseUrl: string := "http://localhost:8000"

  /** `NEXT_PUBLIC_API_BASE_URL || 'http://localhost:8000'`. */
  function BaseUrl(configured: Option<string>): (url: string)
    ensures Truthy(configured) ==> url == configured.value
    ensures !Truthy(configured) ==> url == DefaultBaseUrl
    ensures url != ""
  {
    if Truthy(configured) then configured.value else DefaultBaseUrl
  }

  type Headers = map<string, string>

  const ContentTypeHeader: string := "Content-Type"
  const AuthorizationHeader: string := "Authorization"
  const JsonMediaType: string := "application/json"

  /** `getAuthHeaders(token?)`: the JSON content type always, and a bearer
      credential exactly when the token is truthy. */
  function AuthHeaders(token: Option<string>): (h: Headers)
    ensures ContentTypeHeader in h && h[ContentTypeHeader] == JsonMediaType
    ensures AuthorizationHeader in h <==> Truthy(token)
    ensures AuthorizationHeader in h ==> h[AuthorizationHeader] == "Bearer " + token.value
    ensures h.Keys <= {ContentTypeHeader, AuthorizationHeader}
  {
    var headers := map[ContentTypeHeader := JsonMediaType];
    if Truthy(token) then headers[AuthorizationHeader := "Bearer " + token.value] else headers
  }

  datatype SignInRequest = SignInRequest(email: string, password: string)
  datatype SignUpRequest = SignUpRequest(email: string, password: string, name: Option<string>)
  /** `CreateSessionRequest`; the empty object `{}` is `CreateSessionRequest(None)`. */
  datatype CreateSessionRequest = CreateSessionRequest(session_id: Option<string>)

  /** What `JSON.stringify` is applied to. */
  datatype Body =
    | SignInBody(signIn: SignInRequest)
    | SignUpBody(signUp: SignUpRequest)
    | CreateSessionBody(create: CreateSessionRequest)

  datatype HttpMethod = Get | Post

  datatype HttpRequest = HttpRequest(verb: HttpMethod, url: string, headers: Headers, body: Option<Body>)

  /** The session credential returned by `/api/create-session`. */
  datatype Session = Session(
    id: string, room_name: string, token: string, session_id: string,
    is_resume: Option<bool>, previous_session_id: Option<string>)

  /** The request `signIn` sends: only the JSON content type, never an
      Authorization header. */
  function SignIn(base: string, credentials: SignInRequest): (req: HttpRequest)
    ensures req.verb == Post && req.url == base + "/auth/signin"
    ensures req.headers == map[ContentTypeHeader := JsonMediaType]
    ensures AuthorizationHeader !in req.headers
    ensures req.body == Some(SignInBody(credentials))
  {
    HttpRequest(Post, base + "/auth/signin", AuthHeaders(None), Some(SignInBody(credentials)))
  }

  /** The request `signUp` sends: only the JSON content type, never an
      Authorization header. */
  function SignUp(base: string, credentials: SignUpRequest): (req: HttpRequest)
    ensures req.verb == Post && req.url == base + "/auth/signup"
    ensures req.headers == map[ContentTypeHeader := JsonMediaType]
    ensures AuthorizationHeader !in req.headers
    ensures req.body == Some(SignUpBody(credentials))
  {
    HttpRequest(Post, base + "/auth/signup", AuthHeaders(None), Some(SignUpBody(credentials)))
  }

  /** The request `createSession(token, request = {})` sends. */
  function CreateSession(base: string, token: Option<string>, request: Option<CreateSessionRequest>): (req: HttpRequest)
    ensures req.verb == Post && req.url == base + "/api/create-session"
    ensures req.headers == AuthHeaders(token)
    ensures request.None? ==> req.body == Some(CreateSessionBody(CreateSessionRequest(None)))
    ensures request.Some? ==> req.body == Some(CreateSessionBody(request.value))
  {
    var sent := if request.Some? then request.value else CreateSessionRequest(None);
    HttpRequest(Post, base + "/api/create-session", AuthHeaders(token), Some(CreateSessionBody(sent)))
  }

  /** The request `getSessionHistory(token)` sends: a GET without a body. */
  function GetSessionHistory(base: string, token: Option<string>): (req: HttpRequest)
    ensures req.verb == Get && req.url == base + "/api/session-history"
    ensures req.headers == AuthHeaders(token)
    ensures req.body.None?
  {
    HttpRequest(Get, base + "/api/session-history", AuthHeaders(token), None)
  }

  /** The value a rejected promise carried: an `Error` with its message, or
      anything else that was thrown. */
  datatype Thrown = ErrorInstance(message: string) | NonError

  /** What the awaited calls inside a request method produced.  For a
      response, `text` is what `response.text()` gives and `json` what
      `response.json()` gives; only the one the method awaits matters. */
  datatype FetchOutcome<T> =
    | Responded(ok: bool, text: Result<string, Thrown>, json: Result<T, Thrown>)
    | Rejected(reason: Thrown)

  /** `ApiResponse<T>`: only `data` and `error`; no HTTP status. */
  datatype ApiResponse<T> = ApiResponse(data: Option<T>, error: Option<string>)

  /** `error instanceof Error ? error.message : 'Unknown error'`. */
  function ThrownMessage(e: Thrown): (m: string)
    ensures e.ErrorInstance? ==> m == e.message
    ensures e.NonError? ==> m == "Unknown error"
  {
    match e
    case ErrorInstance(message) => message
    case NonError => "Unknown error"
  }

  /** The outcome the awaited chain ended with: the body text for a non-ok
      response, the parsed body for an ok one, or the first rejection. */
  function Settled<T>(o: FetchOutcome<T>): Result<Result<T, string>, Thrown>
  {
    match o
    case Rejected(reason) => Err(reason)
    case Responded(ok, text, json) =>
      if !ok then (if text.Ok? then Ok(Err(text.value)) else Err(text.error))
      else (if json.Ok? then Ok(Ok(json.value)) else Err(json.error))
  }

  /** The try/catch shared by `signIn`, `signUp`, `createSession` and
      `getSessionHistory`: every outcome becomes an envelope, nothing throws. */
  function Envelope<T>(o: FetchOutcome<T>): (r: ApiResponse<T>)
    ensures r.data.Some? <==> o.Responded? && o.ok && o.json.Ok?
    ensures r.data.Some? ==> r.data.value == o.json.value
    ensures o.Responded? && !o.ok && o.text.Ok? ==> r.error == Some(o.text.value)
    ensures o.Rejected? ==> r.error == Some(ThrownMessage(o.reason))
    ensures o.Responded? && !o.ok && o.text.Err? ==> r.error == Some(ThrownMessage(o.text.error))
    ensures o.Responded? && o.ok && o.json.Err? ==> r.error == Some(ThrownMessage(o.json.error))
  {
    match Settled(o)
    case Ok(Ok(data)) => ApiResponse(Some(data), None)
    case Ok(Err(text)) => ApiResponse(None, Some(text))
    case Err(thrown) => ApiResponse(None, Some(ThrownMessage(thrown)))
  }

  /** Exactly one of `data` and `error` is present in every envelope. */
  lemma EnvelopeIsExclusive<T>(o: FetchOutcome<T>)
    ensures Envelope(o).data.Some? != Envelope(o).error.Some?
  {
  }

  /** A body text that is empty still arrives as an `error` field, but a
      falsy one: callers testing `if (response.error)` do not see it. */
  lemma EmptyErrorBodyIsFalsy<T>(json: Result<T, Thrown>)
    ensures Envelope(Responded(false, Ok(""), json)) == ApiResponse(None, Some(""))
    ensures !Truthy(Envelope(Responded(false, Ok(""), json)).error)
  {
  }

  /** Of all requests the client sends, exactly those made with a truthy
      token carry an Authorization header. */
  lemma AuthorizationOnlyWithToken(base: string, token: Option<string>, request: Option<CreateSessionRequest>)
    ensures AuthorizationHeader in CreateSession(base, token, request).headers <==> Truthy(token)
    ensures AuthorizationHeader in GetSessionHistory(base, token).headers <==> Truthy(token)
  {
  }

  /** `apiClient.createSession()` as the dashboard and the connection hook
      call it, with no arguments: no Authorization header and the body `{}`. */
  lemma CreateSessionWithoutArguments(base: string)
    ensures AuthorizationHeader !in CreateSession(base, None, None).headers
    ensures CreateSession(base, None, None).headers == map[ContentTypeHeader := JsonMediaType]
    ensures CreateSession(base, None, None).body == Some(CreateSessionBody(CreateSessionRequest(None)))
  {
  }
}
