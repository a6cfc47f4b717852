/**
 * scripts/update-xzone-token.js: the variant that takes the credential
 * from the body of the identity provider's `/oauth/token` response.
 *
 * Each call of the `page.on('response')` handler is taken to run to
 * completion before the next one starts: the `await response.json()`
 * between the latch check and the latch set is not a point where another
 * handler can run in this model.
 */
module ResponseCapture {
  import opened Wrappers
  import opened JsStrings
  import opened JsonValue
  import opened Environment
  import opened Webhook
  import opened RunOutcome

  const REQUIRED: seq<string> := ["XZONE_EMAIL", "XZONE_PASSWORD", "WEBHOOK_URL", "TOKEN_UPDATE_SECRET"]
  const TOKEN_ENDPOINT := "/oauth/token"
  const WEBHOOK_LEAD := "Webhook fehlgeschlagen: "
  const WEBHOOK_SEP := " \U{2013} "

  /** The line `assertEnv` prints before exiting, for the first required
      variable that is unset or empty. */
  function AssertEnv(env: Env): (line: Option<string>)
    ensures line.None? <==> forall i :: 0 <= i < |REQUIRED| ==> IsSet(env, REQUIRED[i])
    ensures line.Some? ==> (FirstMissing(env, REQUIRED).Some?
      && line.value == "[FATAL] Umgebungsvariable " + REQUIRED[FirstMissing(env, REQUIRED).value] + " fehlt")
  {
    match FirstMissing(env, REQUIRED)
    case None => None
    case Some(i) => Some("[FATAL] Umgebungsvariable " + REQUIRED[i] + " fehlt")
  }

  /** `sendTokenToWebhook`: the POST to WEBHOOK_URL with the configured
      secret, and how its result is classified. */
  function SendTokenToWebhook(reply: FetchResult): Delivery {
    Classify(reply, WEBHOOK_LEAD, WEBHOOK_SEP)
  }

  /** What `.catch(err => console.error('[ERROR] Webhook:', err.message))`
      logs for a delivery. */
  function DeliveryError(d: Delivery): (e: Option<string>)
    ensures e.None? <==> d.Delivered?
  {
    if d.Delivered? then None else Some(d.message)
  }

  /** The log preview of an accepted token: its first 20 characters and an
      ellipsis. */
  function Preview(t: string): string {
    Truncate(t, 20) + "\U{2026}"
  }

  /** A response as the handler sees it: its URL, its status and its body
      as `response.json().catch(() => null)` yields it. */
  datatype Response = Response(url: string, status: nat, body: Option<Value>)

  /** The extraction policy: the value a response offers as credential, if
      any, ignoring the latch. */
  function Accepted(r: Response): (v: Option<Value>)
    ensures v.Some? ==> Includes(r.url, TOKEN_ENDPOINT) && Ok(r.status) && Truthy(v.value)
    ensures v.Some? ==> v == Member(r.body, "access_token")
  {
    if !Includes(r.url, TOKEN_ENDPOINT) || !Ok(r.status) then None
    else
      var access := Member(r.body, "access_token");
      if TruthyOpt(access) then access else None
  }

  /** The module-level state the handler reads and writes: `tokenFound`,
      the value `tokenPromise` was resolved with, the logged preview, the
      webhook requests issued and the error logged for the delivery. */
  datatype ListenerState = ListenerState(
    tokenFound: Option<Value>,
    resolved: Option<string>,
    preview: Option<string>,
    webhookCalls: seq<HttpRequest>,
    deliveryError: Option<string>)

  const Init := ListenerState(None, None, None, [], None)

  /** The state after the handler sets `tokenFound := v`. A string is
      previewed, resolves the promise (once) and is sent; for any other
      value `substring` throws, the handler's catch logs it, and nothing
      after the assignment happens. */
  function Latch(sink: Sink, s: ListenerState, v: Value): ListenerState {
    match v
    case JString(t) =>
      s.(tokenFound := Some(v),
         preview := Some(Preview(t)),
         resolved := if s.resolved.None? then Some(t) else s.resolved,
         webhookCalls := s.webhookCalls + [WebhookRequest(sink.url, t, sink.secret)],
         deliveryError := DeliveryError(SendTokenToWebhook(sink.reply)))
    case _ => s.(tokenFound := Some(v))
  }

  /** One call of the response handler. */
  function Step(sink: Sink, s: ListenerState, r: Response): ListenerState {
    if TruthyOpt(s.tokenFound) then s
    else match Accepted(r)
      case None => s
      case Some(v) => Latch(sink, s, v)
  }

  /** The handler applied to the responses in arrival order. */
  function Observe(sink: Sink, s: ListenerState, rs: seq<Response>): ListenerState
    decreases |rs|
  {
    if rs == [] then s else Observe(sink, Step(sink, s, rs[0]), rs[1..])
  }

  /** The invariant the latch keeps: at most one webhook request, issued
      for the string `tokenFound` the promise was resolved with. */
  ghost predicate Valid(sink: Sink, s: ListenerState) {
    && |s.webhookCalls| <= 1
    && (s.tokenFound.None? ==> s == Init)
    && (s.tokenFound.Some? ==> Truthy(s.tokenFound.value))
    && (s.resolved.Some? <==> s.webhookCalls != [])
    && (s.resolved.Some? ==> s.preview.Some? && s.tokenFound == Some(JString(s.resolved.value)))
    && (s.resolved.Some? ==> s.webhookCalls == [WebhookRequest(sink.url, s.resolved.value, sink.secret)])
    && (s.resolved.None? ==> s.preview.None? && s.deliveryError.None?)
  }

  /** The handler as the script writes it, over the listener's fields. */
  class ResponseListener {
    const sink: Sink
    var tokenFound: Option<Value>
    var resolved: Option<string>
    var preview: Option<string>
    ghost var webhookCalls: seq<HttpRequest>
    var deliveryError: Option<string>

    ghost function State(): ListenerState
      reads this
    {
      ListenerState(tokenFound, resolved, preview, webhookCalls, deliveryError)
    }

    constructor (sink: Sink)
      ensures this.sink == sink && State() == Init
    {
      this.sink := sink;
      tokenFound, resolved, preview, webhookCalls, deliveryError := None, None, None, [], None;
    }

    method OnResponse(r: Response)
      requires Valid(sink, State())
      modifies this
      ensures Valid(sink, State())
      ensures State() == Step(sink, old(State()), r)
      ensures old(tokenFound).Some? ==> State() == old(State())
    {
      if !Includes(r.url, TOKEN_ENDPOINT) { return; }
      if !Ok(r.status) { return; }
      if TruthyOpt(tokenFound) { return; }

      var access := Member(r.body, "access_token");
      if !TruthyOpt(access) { return; }

      tokenFound := access;
      match access.value {
        case JString(t) =>
          preview := Some(Preview(t));
          if resolved.None? { resolved := Some(t); }
          webhookCalls := webhookCalls + [WebhookRequest(sink.url, t, sink.secret)];
          deliveryError := DeliveryError(SendTokenToWebhook(sink.reply));
        case _ =>
      }
    }
  }

  /** `run()` after the environment check: the listener is attached, the
      login sequence runs, then `tokenPromise` races the 30 s timeout.
      Responses that arrive while the login sequence runs are
      `duringLogin`; those that arrive after it, before the deadline, are
      `duringWait`. */
  function Capture(sink: Sink, login: Login, duringLogin: seq<Response>, duringWait: seq<Response>): Outcome {
    var s1 := Observe(sink, Init, duringLogin);
    if login.LoginThrows? then
      Outcome(true, ExitCode(1), 0, s1.webhookCalls, s1.deliveryError)
    else
      var s2 := Observe(sink, s1, duringWait);
      Outcome(true, if s2.resolved.Some? then ExitCode(0) else ExitCode(1), 1, s2.webhookCalls, s2.deliveryError)
  }

  function ConfiguredSink(env: Env, reply: FetchResult): Sink
    requires AssertEnv(env).None?
  {
    assert IsSet(env, REQUIRED[2]) && IsSet(env, REQUIRED[3]);
    Sink(env["WEBHOOK_URL"], env["TOKEN_UPDATE_SECRET"], reply)
  }

  /** The whole script: the environment check, then `run()`. */
  function Run(env: Env, login: Login, duringLogin: seq<Response>, duringWait: seq<Response>, reply: FetchResult): Outcome {
    if AssertEnv(env).Some? then ConfigFailure
    else Capture(ConfiguredSink(env, reply), login, duringLogin, duringWait)
  }
}
