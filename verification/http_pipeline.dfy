/** The HTTP client's interceptor chain: the request stage that injects the
    bearer token read from the store at send time, the success stage that
    passes responses through, and the error stage that ends the session on
    401 and rejects with a normalised error. The store is threaded through
    explicitly; the transport is a parameter. */
module Http {
  import opened Js
  import opened AuthStore

  type Headers = map<string, string>

  /** The parts of an outgoing request configuration the pipeline touches;
      `headers` may be absent. */
  datatype RequestConfig = RequestConfig(verb: Option<string>, url: Option<string>, headers: Option<Headers>)

  const AuthorizationHeader: string := "Authorization"
  const BearerPrefix: string := "Bearer "
  const NetworkError: string := "Network error"
  const DefaultBaseUrl: string := "http://localhost:3000"
  const Unauthorized: int := 401

  // Base address.

  /** The base address: the `API_URL` of the Expo config's `extra`, else
      that of the manifest's `extra`, else the local default. A missing
      property reads as `Undefined`. */
  function BaseUrl(expoExtraUrl: JsValue, manifestExtraUrl: JsValue): (r: JsValue)
    ensures Truthy(r)
    ensures Truthy(expoExtraUrl) ==> r == expoExtraUrl
    ensures !Truthy(expoExtraUrl) && Truthy(manifestExtraUrl) ==> r == manifestExtraUrl
    ensures !Truthy(expoExtraUrl) && !Truthy(manifestExtraUrl) ==> r == Str(DefaultBaseUrl)
  {
    Or(Or(expoExtraUrl, manifestExtraUrl), Str(DefaultBaseUrl))
  }

  // Request stage.

  /** The value of the `Authorization` header for a token. */
  function BearerValue(token: string): string {
    BearerPrefix + token
  }

  /** Reading a bearer token back out of an `Authorization` value. */
  function ParseBearer(value: string): (r: Option<string>)
    ensures r.Some? ==> BearerValue(r.value) == value
  {
    if StartsWith(value, BearerPrefix) then Some(value[|BearerPrefix|..]) else None
  }

  lemma BearerRoundTrip(token: string)
    ensures ParseBearer(BearerValue(token)) == Some(token)
  {
  }

  /** The token an outgoing request carries, if any. */
  function CarriedToken(config: RequestConfig): Option<string> {
    if config.headers.Some? && AuthorizationHeader in config.headers.value
    then ParseBearer(config.headers.value[AuthorizationHeader])
    else None
  }

  /** The request interceptor. With a non-empty token in the store, the
      headers (created empty when absent) gain `Authorization: Bearer
      <token>` and keep every other entry; otherwise the configuration goes
      out exactly as given. */
  function OnRequest(store: AuthState, config: RequestConfig): (r: RequestConfig)
    ensures r.verb == config.verb && r.url == config.url
    ensures Present(store.token) ==>
      && r.headers.Some?
      && r.headers.value.Keys == config.headers.GetOr(map[]).Keys + {AuthorizationHeader}
      && r.headers.value[AuthorizationHeader] == BearerPrefix + store.token.value
      && (forall k :: k in config.headers.GetOr(map[]) && k != AuthorizationHeader ==>
            r.headers.value[k] == config.headers.GetOr(map[])[k])
    ensures !Present(store.token) ==> r == config
  {
    if Present(store.token) then
      var headers := config.headers.GetOr(map[]);
      config.(headers := Some(headers[AuthorizationHeader := BearerValue(store.token.value)]))
    else config
  }

  /** A request sent with a non-empty token carries exactly that token. */
  lemma RequestCarriesStoreToken(store: AuthState, config: RequestConfig)
    requires Present(store.token)
    ensures CarriedToken(OnRequest(store, config)) == store.token
  {
  }

  /** The token is read at send time: after a logout, a request that did not
      already carry a token goes out without one. */
  lemma NoTokenAfterLogout(store: AuthState, config: RequestConfig)
    requires CarriedToken(config).None?
    ensures OnRequest(Logout(store), config) == config
    ensures CarriedToken(OnRequest(Logout(store), config)).None?
  {
  }

  // Response stages.

  /** A response body: absent (`undefined`/`null`), plain text, or a JSON
      object with its fields. */
  datatype ResponseData = NoData | Text(text: string) | Json(fields: map<string, JsValue>)

  datatype Response = Response(status: int, data: ResponseData, config: RequestConfig)

  datatype ErrorResponse = ErrorResponse(status: int, data: ResponseData)

  /** The transport's failure: its own message, and the server's response
      when one arrived (none for a network failure or timeout). */
  datatype AxiosError = AxiosError(message: string, response: Option<ErrorResponse>)

  /** The normalised value the pipeline rejects with. */
  datatype Rejection = Rejection(status: Option<int>, message: JsValue, data: ResponseData, original: AxiosError)

  /** `error.response?.status`. */
  function StatusOf(err: AxiosError): Option<int> {
    match err.response
    case None => None
    case Some(resp) => Some(resp.status)
  }

  /** `error.response?.data`. */
  function DataOf(err: AxiosError): ResponseData {
    match err.response
    case None => NoData
    case Some(resp) => resp.data
  }

  /** `data?.message`: only a JSON object has properties to read. */
  function ServerMessage(data: ResponseData): JsValue {
    match data
    case Json(fields) => if "message" in fields then fields["message"] else Undefined
    case _ => Undefined
  }

  /** The three-level fallback: a truthy server message, else a non-empty
      transport message, else `"Network error"`. The result is never falsy. */
  function ErrorMessage(err: AxiosError): (m: JsValue)
    ensures Truthy(m)
    ensures Truthy(ServerMessage(DataOf(err))) ==> m == ServerMessage(DataOf(err))
    ensures !Truthy(ServerMessage(DataOf(err))) && err.message != "" ==> m == Str(err.message)
    ensures !Truthy(ServerMessage(DataOf(err))) && err.message == "" ==> m == Str(NetworkError)
  {
    Or(Or(ServerMessage(DataOf(err)), Str(err.message)), Str(NetworkError))
  }

  /** The store after the error stage and the value it rejects with. */
  datatype ErrorOutcome = ErrorOutcome(store: AuthState, rejection: Rejection)

  /** The error interceptor: a 401 logs out before the rejection; any other
      status, or none, leaves the store alone. The rejection carries the
      status, the chosen message, the body and the original error. */
  function OnError(store: AuthState, err: AxiosError): (r: ErrorOutcome)
    ensures StatusOf(err) == Some(Unauthorized) ==> r.store.user.None? && r.store.token.None?
    ensures StatusOf(err) != Some(Unauthorized) ==> r.store == store
    ensures r.store.isHydrated == store.isHydrated
    ensures r.rejection.status == StatusOf(err)
    ensures r.rejection.message == ErrorMessage(err) && Truthy(r.rejection.message)
    ensures r.rejection.data == DataOf(err) && r.rejection.original == err
  {
    var status := StatusOf(err);
    var store' := if status == Some(Unauthorized) then Logout(store) else store;
    ErrorOutcome(store', Rejection(status, ErrorMessage(err), DataOf(err), err))
  }

  // The whole pipeline around one transport call.

  /** What the transport makes of a sent request. */
  datatype Reply = Ok(response: Response) | Failed(error: AxiosError)

  datatype Result = Resolved(response: Response) | Rejected(rejection: Rejection)

  /** One request: the store after it completes, the configuration that was
      handed to the transport, and what the caller sees. */
  datatype Dispatched = Dispatched(store: AuthState, sent: RequestConfig, result: Result)

  /** A request through the whole pipeline. The transport receives the
      configuration the request stage produced. A success reaches the caller
      unchanged and leaves the store alone; a failure reaches it normalised,
      after a 401 has ended the session. */
  function Dispatch(store: AuthState, config: RequestConfig, transport: RequestConfig -> Reply): (d: Dispatched)
    ensures d.sent == OnRequest(store, config)
    ensures d.sent.verb == config.verb && d.sent.url == config.url
    ensures Present(store.token) ==> CarriedToken(d.sent) == store.token
    ensures !Present(store.token) ==> d.sent == config
    ensures transport(d.sent).Ok? ==> d.store == store && d.result == Resolved(transport(d.sent).response)
    ensures transport(d.sent).Failed? ==>
      var err := transport(d.sent).error;
      && d.result.Rejected?
      && d.result.rejection.status == StatusOf(err)
      && d.result.rejection.message == ErrorMessage(err)
      && d.result.rejection.data == DataOf(err)
      && d.result.rejection.original == err
      && (StatusOf(err) == Some(Unauthorized) ==> d.store == Logout(store))
      && (StatusOf(err) != Some(Unauthorized) ==> d.store == store)
  {
    var sent := OnRequest(store, config);
    assert Present(store.token) ==> CarriedToken(sent) == store.token by {
      if Present(store.token) {
        RequestCarriesStoreToken(store, config);
      }
    }
    match transport(sent)
    case Ok(response) => Dispatched(store, sent, Resolved(response))
    case Failed(err) =>
      var outcome := OnError(store, err);
      Dispatched(outcome.store, sent, Rejected(outcome.rejection))
  }
}
