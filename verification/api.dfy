/** The client's service layer: the records exchanged with the backend, the
    shaping of every request (URL, headers, body) and of every answer into one
    `{success, data?, error?}` value, and the client object that keeps the
    bearer token.

    `fetch` and `response.json()` are not modelled as behaviour: what they
    produce for one request is an input, a `FetchOutcome`. */
module Api {
  import opened Values

  datatype TransformationType = FaceSwap | Avatar | ImageToVideo

  datatype JobStatus = Pending | Processing | Completed | Failed

  datatype User = User(id: string, email: string, credits: int, createdAt: string)

  datatype Job = Job(
    id: string,
    userId: string,
    kind: TransformationType,
    status: JobStatus,
    inputUrl: string,
    outputUrl: Option<string>,
    createdAt: string,
    completedAt: Option<string>)

  /** The body of a successful login or registration; either field may be
      missing from what the backend sends. */
  datatype AuthBody = AuthBody(token: Option<string>, user: Option<User>)

  datatype CreditsBody = CreditsBody(credits: int)

  datatype LoginPayload = LoginPayload(email: string, password: string)

  datatype SignupPayload = SignupPayload(email: string, password: string, name: Option<string>)

  datatype ProcessJobPayload = ProcessJobPayload(
    kind: TransformationType,
    sourceImage: string,
    targetImage: Option<string>)

  /** The JSON document a request carries, before serialisation. */
  datatype Payload =
    | NoBody
    | LoginBody(login: LoginPayload)
    | SignupBody(signup: SignupPayload)
    | ProcessBody(process: ProcessJobPayload)

  datatype Verb = Get | Post

  datatype Headers = Headers(contentType: string, authorization: Option<string>)

  datatype HttpRequest = HttpRequest(verb: Verb, url: string, headers: Headers, body: Payload)

  /** The uniform result every client call resolves to. */
  datatype ApiResponse<T> = ApiResponse(success: bool, data: Option<T>, error: Option<string>)

  /** What a caught exception was: an `Error` instance with its message, or
      any other thrown value. */
  datatype Thrown = ErrorInstance(message: string) | OtherValue

  /** What `fetch` followed by `response.json()` produced for one request:
      an ok response and its parsed body, a non-ok response and the `error`
      and `message` fields of its parsed body, or an exception (a network
      failure or a body that is not JSON). */
  datatype FetchOutcome<T> =
    | Replied(body: T)
    | Refused(errorField: Option<string>, messageField: Option<string>)
    | Threw(thrown: Thrown)

  const JsonContentType := "application/json"
  const RequestFailed := "Request failed"
  const NetworkError := "Network error"

  const LoginEndpoint := "/api/auth/login"
  const RegisterEndpoint := "/api/auth/register"
  const CurrentUserEndpoint := "/api/auth/me"
  const ProcessEndpoint := "/api/web/process"
  const JobsEndpoint := "/api/web/jobs"
  const CreditsEndpoint := "/api/user/credits"

  function JobStatusEndpoint(jobId: string): string
  {
    JobsEndpoint + "/" + jobId
  }

  /** The headers of every request: a JSON content type, and a bearer
      credential exactly when the token is truthy. */
  function RequestHeaders(token: Option<string>): (h: Headers)
    ensures h.contentType == "application/json"
    ensures h.authorization.Some? <==> Present(token)
    ensures h.authorization.Some? ==> h.authorization.value == "Bearer " + token.value
  {
    Headers(JsonContentType, if Present(token) then Some("Bearer " + token.value) else None)
  }

  /** The error text of a non-ok response: its `error` field, else its
      `message` field, else a fixed text; it is never empty. */
  function RefusalMessage(errorField: Option<string>, messageField: Option<string>): (m: string)
    ensures m != ""
    ensures Present(errorField) ==> m == errorField.value
    ensures !Present(errorField) && Present(messageField) ==> m == messageField.value
    ensures !Present(errorField) && !Present(messageField) ==> m == "Request failed"
  {
    FirstPresent(errorField, messageField, RequestFailed)
  }

  /** The error text of a caught exception: the message of an `Error`
      (possibly empty), else a fixed text. */
  function ThrownMessage(t: Thrown): (m: string)
    ensures t.ErrorInstance? ==> m == t.message
    ensures t.OtherValue? ==> m == NetworkError && m != ""
  {
    match t
    case ErrorInstance(message) => message
    case OtherValue => NetworkError
  }

  /** Maps every outcome of a request to the uniform result; no outcome
      escapes as an exception. */
  function Normalise<T>(f: FetchOutcome<T>): (r: ApiResponse<T>)
    ensures r.success <==> f.Replied?
    ensures f.Replied? ==> r.data == Some(f.body) && r.error == None
    ensures f.Refused? ==> r.data == None && r.error == Some(RefusalMessage(f.errorField, f.messageField))
    ensures f.Threw? ==> r.data == None && r.error == Some(ThrownMessage(f.thrown))
    ensures !r.success ==> r.error.Some?
  {
    match f
    case Replied(body) => ApiResponse(true, Some(body), None)
    case Refused(e, m) => ApiResponse(false, None, Some(RefusalMessage(e, m)))
    case Threw(t) => ApiResponse(false, None, Some(ThrownMessage(t)))
  }

  /** The token a login or registration result carries, if `login`/`signup`
      adopt it: only a successful result whose body has a truthy token. */
  function GrantedToken(r: ApiResponse<AuthBody>): (t: Option<string>)
    ensures t.Some? ==> r.success && r.data.Some? && t == r.data.value.token && Present(t)
    ensures t.None? ==> !(r.success && r.data.Some? && Present(r.data.value.token))
  {
    if r.success && r.data.Some? && Present(r.data.value.token) then r.data.value.token else None
  }

  /** The client's token after a login or registration result arrives. */
  function TokenAfterAuth(token: Option<string>, r: ApiResponse<AuthBody>): (t: Option<string>)
    ensures GrantedToken(r).Some? ==> t == GrantedToken(r) && Present(t)
    ensures GrantedToken(r).None? ==> t == token
  {
    if GrantedToken(r).Some? then GrantedToken(r) else token
  }

  /** A failed login or registration never touches the token. */
  lemma FailedAuthKeepsToken(token: Option<string>, f: FetchOutcome<AuthBody>)
    requires !f.Replied?
    ensures TokenAfterAuth(token, Normalise(f)) == token
  {
  }

  /** The client object: its base URL, its bearer token, and the copy of the
      token kept in the browser's local storage under `auth_token`. */
  class ApiClient {
    const baseUrl: string
    var token: Option<string>
    var saved: Option<string>

    /** A new client starts from the token found in local storage. */
    constructor (baseUrl: string, saved: Option<string>)
      ensures this.baseUrl == baseUrl
      ensures token == saved && this.saved == saved
    {
      this.baseUrl := baseUrl;
      this.saved := saved;
      token := saved;
    }

    method SetToken(t: Option<string>)
      modifies this
      ensures token == t
      ensures saved == OrNone(t)
    {
      token := t;
      if Present(t) {
        saved := t;
      } else {
        saved := None;
      }
    }

    method GetToken() returns (t: Option<string>)
      ensures t == token
    {
      t := token;
    }

    /** Issues one request to `baseUrl + endpoint` and normalises what came
        back. */
    method Request<T>(verb: Verb, endpoint: string, body: Payload, fetched: FetchOutcome<T>)
      returns (sent: HttpRequest, r: ApiResponse<T>)
      ensures sent.url == baseUrl + endpoint && sent.verb == verb && sent.body == body
      ensures sent.headers == RequestHeaders(token)
      ensures r == Normalise(fetched)
    {
      var headers := Headers(JsonContentType, None);
      if Present(token) {
        headers := headers.(authorization := Some("Bearer " + token.value));
      }
      sent := HttpRequest(verb, baseUrl + endpoint, headers, body);
      match fetched {
        case Replied(data) =>
          r := ApiResponse(true, Some(data), None);
        case Refused(errorField, messageField) =>
          r := ApiResponse(false, None, Some(FirstPresent(errorField, messageField, RequestFailed)));
        case Threw(thrown) =>
          var message := if thrown.ErrorInstance? then thrown.message else NetworkError;
          r := ApiResponse(false, None, Some(message));
      }
    }

    method Login(payload: LoginPayload, fetched: FetchOutcome<AuthBody>)
      returns (sent: HttpRequest, r: ApiResponse<AuthBody>)
      modifies this
      ensures sent == HttpRequest(Post, baseUrl + LoginEndpoint, RequestHeaders(old(token)), LoginBody(payload))
      ensures r == Normalise(fetched)
      ensures token == TokenAfterAuth(old(token), r)
      ensures saved == if GrantedToken(r).Some? then GrantedToken(r) else old(saved)
    {
      sent, r := Request(Post, LoginEndpoint, LoginBody(payload), fetched);
      if r.success && r.data.Some? && Present(r.data.value.token) {
        SetToken(r.data.value.token);
      }
    }

    method Signup(payload: SignupPayload, fetched: FetchOutcome<AuthBody>)
      returns (sent: HttpRequest, r: ApiResponse<AuthBody>)
      modifies this
      ensures sent == HttpRequest(Post, baseUrl + RegisterEndpoint, RequestHeaders(old(token)), SignupBody(payload))
      ensures r == Normalise(fetched)
      ensures token == TokenAfterAuth(old(token), r)
      ensures saved == if GrantedToken(r).Some? then GrantedToken(r) else old(saved)
    {
      sent, r := Request(Post, RegisterEndpoint, SignupBody(payload), fetched);
      if r.success && r.data.Some? && Present(r.data.value.token) {
        SetToken(r.data.value.token);
      }
    }

    method Logout()
      modifies this
      ensures token == None && saved == None
    {
      SetToken(None);
    }

    method GetCurrentUser(fetched: FetchOutcome<User>) returns (sent: HttpRequest, r: ApiResponse<User>)
      ensures sent == HttpRequest(Get, baseUrl + "/api/auth/me", RequestHeaders(token), NoBody)
      ensures r == Normalise(fetched)
    {
      sent, r := Request(Get, CurrentUserEndpoint, NoBody, fetched);
    }

    method ProcessJob(payload: ProcessJobPayload, fetched: FetchOutcome<Job>)
      returns (sent: HttpRequest, r: ApiResponse<Job>)
      ensures sent == HttpRequest(Post, baseUrl + "/api/web/process", RequestHeaders(token), ProcessBody(payload))
      ensures r == Normalise(fetched)
    {
      sent, r := Request(Post, ProcessEndpoint, ProcessBody(payload), fetched);
    }

    method GetJobStatus(jobId: string, fetched: FetchOutcome<Job>)
      returns (sent: HttpRequest, r: ApiResponse<Job>)
      ensures sent == HttpRequest(Get, baseUrl + "/api/web/jobs/" + jobId, RequestHeaders(token), NoBody)
      ensures r == Normalise(fetched)
    {
      sent, r := Request(Get, JobStatusEndpoint(jobId), NoBody, fetched);
    }

    method GetJobHistory(fetched: FetchOutcome<seq<Job>>)
      returns (sent: HttpRequest, r: ApiResponse<seq<Job>>)
      ensures sent == HttpRequest(Get, baseUrl + "/api/web/jobs", RequestHeaders(token), NoBody)
      ensures r == Normalise(fetched)
    {
      sent, r := Request(Get, JobsEndpoint, NoBody, fetched);
    }

    method GetCredits(fetched: FetchOutcome<CreditsBody>)
      returns (sent: HttpRequest, r: ApiResponse<CreditsBody>)
      ensures sent == HttpRequest(Get, baseUrl + "/api/user/credits", RequestHeaders(token), NoBody)
      ensures r == Normalise(fetched)
    {
      sent, r := Request(Get, CreditsEndpoint, NoBody, fetched);
    }
  }
}
