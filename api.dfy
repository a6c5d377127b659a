/** The shared HTTP client: its base address, default headers, the request
    interceptor that adds the bearer token, and the endpoint wrappers. */
module Api {
  import opened Js
  import opened Types

  const ApiUrl := "https://localhost:7052/api"
  const ContentType := "Content-Type"
  const Authorization := "Authorization"
  const JsonMediaType := "application/json"

  /** The headers every `apiClient` request starts from. */
  const DefaultHeaders: map<string, string> := map[ContentType := JsonMediaType]

  const InvoicesPath := "/invoices"
  const LoginPath := "/Auth/login"
  const RegisterPath := "/Auth/register"
  const MePath := "/Auth/me"
  const ForgotPasswordPath := "/Auth/forgot-password"
  const ResetPasswordPath := "/Auth/reset-password"

  datatype Verb = Get | Post | Put | Delete

  /** The JSON body of a request. */
  datatype Body =
    | NoBody
    | LoginBody(login: LoginData)
    | RegisterBody(form: RegisterData)
    | EmailBody(email: string)
    | ResetBody(reset: ResetPasswordData)

  /** One request as it leaves the client: the headers are those the client's own code sets. */
  datatype Request = Request(verb: Verb, url: string, headers: map<string, string>, body: Body)

  /** The value of the `Authorization` header for a token. */
  function Bearer(token: string): string {
    "Bearer " + token
  }

  /** The headers after the request interceptor has run, given the stored `'token'` entry. */
  function DecorateHeaders(headers: map<string, string>, stored: Option<string>): (r: map<string, string>)
    ensures Truthy(stored) ==> Authorization in r && r[Authorization] == "Bearer " + stored.value
    ensures !Truthy(stored) ==> r == headers
    ensures forall k :: k in r && k != Authorization <==> k in headers && k != Authorization
    ensures forall k :: k in headers && k != Authorization ==> r[k] == headers[k]
  {
    if Truthy(stored) then headers[Authorization := Bearer(stored.value)] else headers
  }

  /** An axios request configuration, as far as the interceptor touches it. */
  class RequestConfig {
    var baseUrl: string
    var url: string
    var headers: map<string, string>

    constructor (url: string)
      ensures baseUrl == ApiUrl && this.url == url && headers == DefaultHeaders
    {
      baseUrl := ApiUrl;
      this.url := url;
      headers := DefaultHeaders;
    }
  }

  /** The request interceptor: it sets `Authorization` on the configuration in place when the
      stored token is truthy and hands back the same configuration. */
  method Intercept(config: RequestConfig, stored: Option<string>) returns (r: RequestConfig)
    modifies config
    ensures r == config
    ensures config.headers == DecorateHeaders(old(config.headers), stored)
    ensures config.baseUrl == old(config.baseUrl) && config.url == old(config.url)
  {
    if Truthy(stored) {
      config.headers := config.headers[Authorization := Bearer(stored.value)];
    }
    r := config;
  }

  /** The request `apiClient` sends for `path` once the interceptor has run. */
  function ClientRequest(verb: Verb, path: string, stored: Option<string>, body: Body): (r: Request)
    ensures r.url == ApiUrl + path && r.verb == verb && r.body == body
    ensures ContentType in r.headers && r.headers[ContentType] == JsonMediaType
    ensures Authorization in r.headers <==> Truthy(stored)
    ensures Truthy(stored) ==> r.headers[Authorization] == Bearer(stored.value)
    ensures r.headers.Keys <= {ContentType, Authorization}
  {
    Request(verb, ApiUrl + path, DecorateHeaders(DefaultHeaders, stored), body)
  }

  /** The wrappers that resolve with the body's `data` (`getInvoices`, `loginUser`):
      a rejection passes through unchanged. */
  function DataOf<T>(o: Outcome<Envelope<T>>): (r: Outcome<T>)
    ensures r.Ok? <==> o.Ok?
    ensures o.Ok? ==> r.payload == o.payload.data
    ensures o.Fail? ==> r.failure == o.failure
  {
    match o
    case Ok(envelope) => Ok(envelope.data)
    case Fail(f) => Fail(f)
  }

  /** The request `getInvoices` sends; it resolves with `DataOf` of the answer. */
  function GetInvoicesRequest(stored: Option<string>): (r: Request)
    ensures r.verb == Get && r.url == ApiUrl + InvoicesPath && r.body == NoBody
    ensures Authorization in r.headers <==> Truthy(stored)
  {
    ClientRequest(Get, InvoicesPath, stored, NoBody)
  }

  /** `loginUser`. */
  function LoginUserRequest(data: LoginData, stored: Option<string>): (r: Request)
    ensures r.verb == Post && r.url == ApiUrl + LoginPath && r.body == LoginBody(data)
    ensures Authorization in r.headers <==> Truthy(stored)
  {
    ClientRequest(Post, LoginPath, stored, LoginBody(data))
  }

  /** `registerUser`, which resolves with the whole envelope. */
  function RegisterUserRequest(data: RegisterData, stored: Option<string>): (r: Request)
    ensures r.verb == Post && r.url == ApiUrl + RegisterPath && r.body == RegisterBody(data)
    ensures Authorization in r.headers <==> Truthy(stored)
  {
    ClientRequest(Post, RegisterPath, stored, RegisterBody(data))
  }

  /** `forgotPassword`, which resolves with the whole envelope. */
  function ForgotPasswordRequest(email: string, stored: Option<string>): (r: Request)
    ensures r.verb == Post && r.url == ApiUrl + ForgotPasswordPath && r.body == EmailBody(email)
    ensures Authorization in r.headers <==> Truthy(stored)
  {
    ClientRequest(Post, ForgotPasswordPath, stored, EmailBody(email))
  }

  /** `resetPassword`, which resolves with the whole envelope. */
  function ResetPasswordRequest(data: ResetPasswordData, stored: Option<string>): (r: Request)
    ensures r.verb == Post && r.url == ApiUrl + ResetPasswordPath && r.body == ResetBody(data)
    ensures Authorization in r.headers <==> Truthy(stored)
  {
    ClientRequest(Post, ResetPasswordPath, stored, ResetBody(data))
  }

  /** Without a truthy stored token no `apiClient` request carries `Authorization`,
      whatever it is for. */
  lemma NoTokenNoAuthorization(verb: Verb, path: string, stored: Option<string>, body: Body)
    requires !Truthy(stored)
    ensures ClientRequest(verb, path, stored, body).headers == DefaultHeaders
  {
  }

  /** The header the interceptor adds is the only one that depends on the token. */
  lemma DecorationOnlyAddsAuthorization(headers: map<string, string>, s1: Option<string>, s2: Option<string>)
    ensures DecorateHeaders(headers, s1) - {Authorization} == DecorateHeaders(headers, s2) - {Authorization}
  {
  }
}
