/**
 The shared HTTP client of `src/utils/request.ts`: the request stage that
 attaches the bearer token, the success handler that unwraps the backend's
 response envelope, and the error handler that classifies transport failures.

 The network is a parameter (`Config -> Outcome<T>`); the toast channel and
 `window.location` are an append-only effect log; the `localStorage` the
 handlers read and write is the `Storage` of the current `World`.
 */
module Http {
  import opened Values
  import opened KeyValue

  const AuthorizationHeader := "Authorization"
  const BearerPrefix := "Bearer "
  const BlobType := "blob"
  const LoginHref := "/login"

  // User-visible messages, verbatim.
  const RequestFailedMessage := "请求失败"
  const BadRequestMessage := "请求参数错误"
  const SessionExpiredMessage := "登录已过期，请重新登录"
  const ForbiddenMessage := "没有权限访问"
  const NotFoundMessage := "请求的资源不存在"
  const ServerErrorMessage := "服务器内部错误"
  const BadGatewayMessage := "网关错误"
  const UnavailableMessage := "服务不可用"
  const GatewayTimeoutMessage := "网关超时"
  const NetworkFailureMessage := "网络连接失败，请检查网络"
  const ConfigErrorMessage := "请求配置错误"

  datatype Method = Get | Post | Put | Delete | Patch

  /** The per-call request configuration; `responseType` is absent unless the caller sets one. */
  datatype Config = Config(verb: Method, url: string, headers: map<string, string>, responseType: Option<string>)

  /** The backend's wire envelope `{ code, data, message, success }`. */
  datatype Envelope<T> = Envelope(code: int, data: T, message: Option<string>, success: bool)

  /** A response body: a parsed envelope, or anything else (a binary download, a non-envelope payload). */
  datatype Body<T> = EnvelopeBody(envelope: Envelope<T>) | RawBody(bytes: seq<bv8>)

  datatype Response<T> = Response(status: int, body: Body<T>, config: Config)

  /**
   The three shapes of a failed exchange: a response arrived with an error
   status; the request was sent but nothing came back (this includes the
   timeout); the request was never sent.
   */
  datatype TransportError =
    | StatusError(status: int, bodyMessage: Option<string>)
    | NoResponse
    | ConfigError(message: Option<string>)

  /** What the network did with a request. */
  datatype Outcome<T> = Delivered(status: int, body: Body<T>) | Failed(error: TransportError)

  /** What a caller's promise resolves with: the unwrapped payload, or the whole raw response. */
  datatype Resolution<T> = Payload(value: T) | WholeResponse(response: Response<T>)

  /** What a caller's promise rejects with: a fresh error for a business failure, or the original transport error. */
  datatype Rejection = BusinessError(message: string) | TransportFailure(error: TransportError)

  datatype Settled<T> = Fulfilled(resolution: Resolution<T>) | Rejected(reason: Rejection)

  /** A global effect: a toast shown to the user, or an assignment to the page location. */
  datatype Effect = Toast(message: string) | Navigate(href: string)

  datatype World = World(storage: Storage, effects: seq<Effect>)

  datatype Step<T> = Step(settled: Settled<T>, world: World)

  /** The error handler always rejects; this is its rejection together with the world it leaves. */
  datatype Report = Report(reason: Rejection, world: World)

  function Toasts(es: seq<Effect>): (r: seq<string>)
    ensures |r| <= |es|
  {
    if |es| == 0 then []
    else (if es[0].Toast? then [es[0].message] else []) + Toasts(es[1..])
  }

  function Navigations(es: seq<Effect>): (r: seq<string>)
    ensures |r| <= |es|
  {
    if |es| == 0 then []
    else (if es[0].Navigate? then [es[0].href] else []) + Navigations(es[1..])
  }

  /** `after` keeps every effect `before` had logged, in order. */
  predicate Extends(before: World, after: World) {
    |before.effects| <= |after.effects| && after.effects[..|before.effects|] == before.effects
  }

  /** The effects logged between two worlds. */
  function Added(before: World, after: World): seq<Effect>
    requires |before.effects| <= |after.effects|
  {
    after.effects[|before.effects|..]
  }

  // ---------------------------------------------------------------------------
  // Request stage

  /** The token a receiver reads back from a `Bearer` authorization header, if there is one. */
  function Credential(cfg: Config): Option<string> {
    if AuthorizationHeader in cfg.headers
       && |BearerPrefix| <= |cfg.headers[AuthorizationHeader]|
       && cfg.headers[AuthorizationHeader][..|BearerPrefix|] == BearerPrefix
    then Some(cfg.headers[AuthorizationHeader][|BearerPrefix|..])
    else None
  }

  /** The request interceptor: a non-empty stored token goes out as a bearer credential. */
  function AttachAuth(s: Storage, cfg: Config): (r: Config)
    ensures r.verb == cfg.verb && r.url == cfg.url && r.responseType == cfg.responseType
    ensures forall h :: h != AuthorizationHeader ==> (h in r.headers <==> h in cfg.headers)
    ensures forall h :: h != AuthorizationHeader && h in cfg.headers ==> r.headers[h] == cfg.headers[h]
    ensures Truthy(GetItem(s, TokenKey)) ==> Credential(r) == GetItem(s, TokenKey)
    ensures !Truthy(GetItem(s, TokenKey)) ==> r == cfg
  {
    var token := GetItem(s, TokenKey);
    if Truthy(token) then
      var r := cfg.(headers := cfg.headers[AuthorizationHeader := BearerPrefix + token.value]);
      assert (BearerPrefix + token.value)[|BearerPrefix|..] == token.value;
      r
    else cfg
  }

  // ---------------------------------------------------------------------------
  // Success handler

  predicate IsBlobRequest(cfg: Config) {
    cfg.responseType == Some(BlobType)
  }

  /** The business success condition `code === 0 || success === true`; a body that is no envelope fails it. */
  predicate BusinessOk<T>(b: Body<T>) {
    b.EnvelopeBody? && (b.envelope.code == 0 || b.envelope.success)
  }

  /** The envelope's own message when it is a non-empty string. */
  predicate HasBodyMessage<T>(b: Body<T>) {
    b.EnvelopeBody? && Truthy(b.envelope.message)
  }

  /** The response interceptor's fulfilled branch. */
  function OnFulfilled<T>(w: World, resp: Response<T>): (r: Step<T>)
    ensures IsBlobRequest(resp.config) ==> r == Step(Fulfilled(WholeResponse(resp)), w)
    ensures !IsBlobRequest(resp.config) && BusinessOk(resp.body) ==>
              r == Step(Fulfilled(Payload(resp.body.envelope.data)), w)
    ensures r.settled.Rejected? <==> !IsBlobRequest(resp.config) && !BusinessOk(resp.body)
    ensures r.settled.Rejected? ==>
              && r.settled.reason.BusinessError?
              && r.world == w.(effects := w.effects + [Toast(r.settled.reason.message)])
    ensures r.settled.Rejected? && HasBodyMessage(resp.body) ==>
              r.settled.reason.message == resp.body.envelope.message.value
    ensures r.settled.Rejected? && !HasBodyMessage(resp.body) ==>
              r.settled.reason.message == RequestFailedMessage
  {
    if IsBlobRequest(resp.config) then
      Step(Fulfilled(WholeResponse(resp)), w)
    else if BusinessOk(resp.body) then
      Step(Fulfilled(Payload(resp.body.envelope.data)), w)
    else
      var bodyMessage := if resp.body.EnvelopeBody? then resp.body.envelope.message else None;
      var message := OrElse(bodyMessage, RequestFailedMessage);
      Step(Rejected(BusinessError(message)), w.(effects := w.effects + [Toast(message)]))
  }

  // ---------------------------------------------------------------------------
  // Error handler

  /** The message for a received error status, as the `switch (status)` chooses it. */
  function StatusMessage(status: int, bodyMessage: Option<string>): string {
    match status
    case 400 => OrElse(bodyMessage, BadRequestMessage)
    case 401 => SessionExpiredMessage
    case 403 => ForbiddenMessage
    case 404 => NotFoundMessage
    case 500 => ServerErrorMessage
    case 502 => BadGatewayMessage
    case 503 => UnavailableMessage
    case 504 => GatewayTimeoutMessage
    case _ => OrElse(bodyMessage, UnknownStatusMessage(status))
  }

  /** The fallback for an unlisted status: `请求失败 (${status})`. */
  function UnknownStatusMessage(status: int): string {
    RequestFailedMessage + " (" + IntToDecimal(status) + ")"
  }

  /** The message the error handler shows and logs for a failed exchange. */
  function ErrorMessage(err: TransportError): (m: string)
    ensures m != ""
    ensures err.NoResponse? ==> m == NetworkFailureMessage
    ensures err.ConfigError? && Truthy(err.message) ==> m == err.message.value
    ensures err.ConfigError? && !Truthy(err.message) ==> m == ConfigErrorMessage
  {
    match err
    case StatusError(status, bodyMessage) => StatusMessage(status, bodyMessage)
    case NoResponse => NetworkFailureMessage
    case ConfigError(message) => OrElse(message, ConfigErrorMessage)
  }

  /** The statuses whose message is fixed whatever the body says. */
  const FixedStatusMessages: map<int, string> := map[
    401 := SessionExpiredMessage,
    403 := ForbiddenMessage,
    404 := NotFoundMessage,
    500 := ServerErrorMessage,
    502 := BadGatewayMessage,
    503 := UnavailableMessage,
    504 := GatewayTimeoutMessage
  ]

  predicate IsSessionExpiry(err: TransportError) {
    err.StatusError? && err.status == 401
  }

  /** The response interceptor's rejected branch. */
  function OnRejected(w: World, err: TransportError): (r: Report)
    ensures r.reason == TransportFailure(err)
    ensures Extends(w, r.world)
    ensures Added(w, r.world) ==
              (if IsSessionExpiry(err) then [Navigate(LoginHref), Toast(ErrorMessage(err))]
               else [Toast(ErrorMessage(err))])
    ensures Toasts(Added(w, r.world)) == [ErrorMessage(err)]
    ensures Navigations(Added(w, r.world)) == (if IsSessionExpiry(err) then [LoginHref] else [])
    ensures IsSessionExpiry(err) ==> GetItem(r.world.storage, TokenKey) == None
    ensures AgreeOutside(r.world.storage, w.storage, {TokenKey})
    ensures !IsSessionExpiry(err) ==> r.world.storage == w.storage
  {
    var message := ErrorMessage(err);
    var world :=
      if IsSessionExpiry(err) then
        World(RemoveItem(w.storage, TokenKey), w.effects + [Navigate(LoginHref), Toast(message)])
      else
        World(w.storage, w.effects + [Toast(message)]);
    assert Added(w, world) == world.effects[|w.effects|..];
    Report(TransportFailure(err), world)
  }

  // ---------------------------------------------------------------------------
  // The client as a whole

  /** The message the single toast of a failed call carries. */
  function RejectionMessage(reason: Rejection): string {
    match reason
    case BusinessError(message) => message
    case TransportFailure(err) => ErrorMessage(err)
  }

  /**
   One call through the client: the request stage reads the token from storage,
   the network answers the configuration it was given, and one of the two
   response handlers settles the call.
   */
  function Send<T>(w: World, cfg: Config, transport: Config -> Outcome<T>): (r: Step<T>)
    ensures Extends(w, r.world)
    ensures r.settled.Fulfilled? ==> r.world == w
    ensures r.settled.Rejected? ==> Toasts(Added(w, r.world)) == [RejectionMessage(r.settled.reason)]
    ensures r.settled.Fulfilled? && r.settled.resolution.WholeResponse? ==> IsBlobRequest(cfg)
    ensures r.world.storage == w.storage
            || (r.settled.Rejected? && r.settled.reason.TransportFailure? && IsSessionExpiry(r.settled.reason.error))
    ensures transport(AttachAuth(w.storage, cfg)).Failed? ==>
              var err := transport(AttachAuth(w.storage, cfg)).error;
              && r.settled == Rejected(TransportFailure(err))
              && r.world == OnRejected(w, err).world
              && Navigations(Added(w, r.world)) == (if IsSessionExpiry(err) then [LoginHref] else [])
              && (IsSessionExpiry(err) ==> GetItem(r.world.storage, TokenKey) == None)
    ensures IsBlobRequest(cfg) && transport(AttachAuth(w.storage, cfg)).Delivered? ==>
              var out := transport(AttachAuth(w.storage, cfg));
              r.settled == Fulfilled(WholeResponse(Response(out.status, out.body, AttachAuth(w.storage, cfg))))
    ensures !IsBlobRequest(cfg) && transport(AttachAuth(w.storage, cfg)).Delivered? ==>
              var body := transport(AttachAuth(w.storage, cfg)).body;
              && (r.settled.Rejected? <==> !BusinessOk(body))
              && (r.settled.Rejected? ==> r.settled.reason.BusinessError?)
              && (r.settled.Fulfilled? ==> r.settled == Fulfilled(Payload(body.envelope.data)))
              && (r.settled.Rejected? ==>
                    r.settled.reason.message == (if HasBodyMessage(body) then body.envelope.message.value
                                                 else RequestFailedMessage))
    ensures AgreeOutside(r.world.storage, w.storage, {TokenKey})
    ensures Navigations(Added(w, r.world)) ==
              (if r.settled.Rejected? && r.settled.reason.TransportFailure? && IsSessionExpiry(r.settled.reason.error)
               then [LoginHref] else [])
  {
    var sent := AttachAuth(w.storage, cfg);
    match transport(sent)
    case Delivered(status, body) =>
      var r := OnFulfilled(w, Response(status, body, sent));
      assert r.settled.Rejected? ==> Added(w, r.world) == [Toast(r.settled.reason.message)];
      assert r.settled.Fulfilled? ==> Added(w, r.world) == [];
      r
    case Failed(err) =>
      var report := OnRejected(w, err);
      Step(Rejected(report.reason), report.world)
  }

  /** The configuration `download` hands to the client: the caller's, as a GET of `url` with a binary body. */
  function DownloadConfig(url: string, cfg: Config): (r: Config)
    ensures r.verb == Get && r.url == url && IsBlobRequest(r) && r.headers == cfg.headers
  {
    cfg.(verb := Get, url := url, responseType := Some(BlobType))
  }

  /** `download`: a GET that always asks for a binary body, so envelope unwrapping never applies. */
  function Download<T>(w: World, url: string, cfg: Config, transport: Config -> Outcome<T>): (r: Step<T>)
    ensures r.settled.Fulfilled? ==>
              && r.settled.resolution.WholeResponse?
              && r.settled.resolution.response.config.url == url
              && r.world == w
    ensures r.settled.Rejected? ==> r.settled.reason.TransportFailure?
    ensures var sent := AttachAuth(w.storage, DownloadConfig(url, cfg));
            transport(sent).Delivered? ==>
              r == Step(Fulfilled(WholeResponse(Response(transport(sent).status, transport(sent).body, sent))), w)
    ensures var sent := AttachAuth(w.storage, DownloadConfig(url, cfg));
            transport(sent).Failed? ==>
              && r.settled == Rejected(TransportFailure(transport(sent).error))
              && r.world == OnRejected(w, transport(sent).error).world
  {
    Send(w, DownloadConfig(url, cfg), transport)
  }

  // ---------------------------------------------------------------------------
  // Properties

  /** The classifier agrees with the status table: fixed messages, then the 400 and catch-all fallbacks. */
  lemma ClassifierMatchesTable(status: int, bodyMessage: Option<string>)
    ensures status in FixedStatusMessages ==>
              ErrorMessage(StatusError(status, bodyMessage)) == FixedStatusMessages[status]
    ensures status == 400 ==>
              ErrorMessage(StatusError(status, bodyMessage)) == OrElse(bodyMessage, BadRequestMessage)
    ensures status != 400 && status !in FixedStatusMessages ==>
              ErrorMessage(StatusError(status, bodyMessage)) == OrElse(bodyMessage, UnknownStatusMessage(status))
  {
  }

  /** A request sent but never answered, and one never sent, get their own messages whatever the status table says. */
  lemma ClassifierOtherShapes(message: Option<string>)
    ensures ErrorMessage(NoResponse) == NetworkFailureMessage
    ensures ErrorMessage(ConfigError(message)) == OrElse(message, ConfigErrorMessage)
  {
  }

  /** A listed status gives the same message whatever body came with it. */
  lemma FixedStatusIgnoresBody(status: int, a: Option<string>, b: Option<string>)
    requires status in FixedStatusMessages
    ensures ErrorMessage(StatusError(status, a)) == ErrorMessage(StatusError(status, b))
  {
  }

  /** Two different unlisted statuses without a body message never share a toast text. */
  lemma UnknownStatusMessagesDistinct(a: int, b: int)
    requires a != 400 && a !in FixedStatusMessages
    requires b != 400 && b !in FixedStatusMessages
    requires a != b
    ensures ErrorMessage(StatusError(a, None)) != ErrorMessage(StatusError(b, None))
  {
    var prefix := RequestFailedMessage + " (";
    var ma := UnknownStatusMessage(a);
    var mb := UnknownStatusMessage(b);
    if ma == mb {
      var da := IntToDecimal(a);
      var db := IntToDecimal(b);
      assert ma == prefix + da + ")";
      assert mb == prefix + db + ")";
      assert |da| == |db|;
      assert da == ma[|prefix|..|ma| - 1];
      assert db == mb[|prefix|..|mb| - 1];
      IntToDecimalInjective(a, b);
    }
  }

  /** An envelope with `code == 0` or `success == true` resolves to exactly its `data`, with no effect. */
  lemma SendUnwrapsPayload<T>(w: World, cfg: Config, transport: Config -> Outcome<T>, status: int, e: Envelope<T>)
    requires !IsBlobRequest(cfg)
    requires transport(AttachAuth(w.storage, cfg)) == Delivered(status, EnvelopeBody(e))
    requires e.code == 0 || e.success
    ensures Send(w, cfg, transport) == Step(Fulfilled(Payload(e.data)), w)
  {
  }

  /**
   A business code of 401 is not a session expiry here: a successful envelope
   carrying it resolves normally, and a failing one is an ordinary business
   error; neither touches storage nor navigates.
   */
  lemma NoBusinessSessionExpiry<T>(w: World, resp: Response<T>)
    requires !IsBlobRequest(resp.config)
    requires resp.body.EnvelopeBody? && resp.body.envelope.code == 401
    ensures resp.body.envelope.success ==>
              OnFulfilled(w, resp).settled == Fulfilled(Payload(resp.body.envelope.data))
    ensures OnFulfilled(w, resp).world.storage == w.storage
    ensures Navigations(OnFulfilled(w, resp).world.effects) == Navigations(w.effects)
  {
    var r := OnFulfilled(w, resp);
    if r.settled.Rejected? {
      ToastsAndNavigationsAppend(w.effects, [Toast(r.settled.reason.message)]);
    }
  }

  lemma {:induction false} ToastsAndNavigationsAppend(a: seq<Effect>, b: seq<Effect>)
    ensures Toasts(a + b) == Toasts(a) + Toasts(b)
    ensures Navigations(a + b) == Navigations(a) + Navigations(b)
    decreases |a|
  {
    if |a| == 0 {
      assert a + b == b;
    } else {
      assert (a + b)[0] == a[0];
      assert (a + b)[1..] == a[1..] + b;
      ToastsAndNavigationsAppend(a[1..], b);
    }
  }

  /** The request stage applied twice sends the same configuration as applied once. */
  lemma AttachAuthIdempotent(s: Storage, cfg: Config)
    ensures AttachAuth(s, AttachAuth(s, cfg)) == AttachAuth(s, cfg)
  {
  }
}
