/**
 * update-xzone-token.js: the variant that takes the credential from the
 * `Authorization` header of a request to the boards API, delivers it from
 * inside the request handler and exits there.
 *
 * Each call of the `page.on('request')` handler is taken to run to
 * completion, including the awaited webhook call, before the next one
 * starts.
 */
module RequestCapture {
  import opened Wrappers
  import opened JsStrings
  import opened JsonValue
  import opened Environment
  import opened Webhook
  import opened RunOutcome

  const REQUIRED: seq<string> := ["XZONE_EMAIL", "XZONE_PASSWORD", "XZONE_WEBHOOK_URL"]
  const SECRET_VARIABLE := "XZONE_WEBHOOK_SECRET"
  const DEFAULT_SECRET := "abc123"
  const BOARDS_API := "https://exportarts-zone.nw.r.appspot.com/v1/boards/"
  const BEARER := "Bearer "
  const WEBHOOK_LEAD := "[ERROR] Webhook-Request fehlgeschlagen: "
  const WEBHOOK_SEP := " \U{2013} Body: "
  const NO_JSON := "<kein JSON>"

  /** The line `assertEnv` prints before exiting, for the first required
      variable that is unset or empty. */
  function AssertEnv(env: Env): (line: Option<string>)
    ensures line.None? <==> forall i :: 0 <= i < |REQUIRED| ==> IsSet(env, REQUIRED[i])
    ensures line.Some? ==> (FirstMissing(env, REQUIRED).Some?
      && line.value == "[ERROR] Umgebungsvariable " + REQUIRED[FirstMissing(env, REQUIRED).value] + " fehlt.")
  {
    match FirstMissing(env, REQUIRED)
    case None => None
    case Some(i) => Some("[ERROR] Umgebungsvariable " + REQUIRED[i] + " fehlt.")
  }

  /** `XZONE_WEBHOOK_SECRET || 'abc123'`. */
  function WebhookSecret(env: Env): (secret: string)
    ensures secret != ""
  {
    if IsSet(env, SECRET_VARIABLE) then env[SECRET_VARIABLE] else DEFAULT_SECRET
  }

  function SendTokenToWebhook(reply: FetchResult): Delivery {
    Classify(reply, WEBHOOK_LEAD, WEBHOOK_SEP)
  }

  /** What the second argument of `console.log('[INFO] Webhook-Antwort:', …)` shows. */
  datatype ReplyLine = ShowsJson(v: Value) | ShowsText(text: string)

  /** `json || '<kein JSON>'` for the reply of a successful delivery. */
  function ReplyLog(json: Option<Value>): (line: ReplyLine)
    ensures line.ShowsJson? <==> TruthyOpt(json)
    ensures line.ShowsJson? ==> json == Some(line.v)
    ensures line.ShowsText? ==> line.text == NO_JSON
  {
    if TruthyOpt(json) then ShowsJson(json.value) else ShowsText(NO_JSON)
  }

  /** The log preview of an accepted token: its first 20 characters and
      three dots. */
  function Preview(t: string): string {
    Truncate(t, 20) + "..."
  }

  /** A request as the handler sees it: its URL and `request.headers()`. */
  datatype Request = Request(url: string, headers: map<string, string>)

  function Get(headers: map<string, string>, key: string): Option<string> {
    if key in headers then Some(headers[key]) else None
  }

  /** A string that is neither `undefined` nor empty. */
  predicate TruthyString(o: Option<string>) {
    o.Some? && o.value != ""
  }

  /** `headers['authorization'] || headers['Authorization']`. */
  function AuthHeader(headers: map<string, string>): Option<string> {
    var lower := Get(headers, "authorization");
    if TruthyString(lower) then lower else Get(headers, "Authorization")
  }

  /** The extraction policy: the token a request carries, ignoring the
      latch. */
  function BearerToken(q: Request): (t: Option<string>)
    ensures t.Some? ==> StartsWith(q.url, BOARDS_API) && t.value != "" && Trimmed(t.value)
  {
    if !StartsWith(q.url, BOARDS_API) then None
    else
      var auth := AuthHeader(q.headers);
      if !TruthyString(auth) || !StartsWith(auth.value, BEARER) then None
      else
        var token := Trim(auth.value[|BEARER|..]);
        if token == "" then None else Some(token)
  }

  /** The closure state of `run()` the handler reads and writes
      (`tokenFound`), the logged preview, the webhook requests issued, the
      exit and `browser.close` calls the handler makes, the error its
      catch logs for a failed delivery, and the reply line it logs for a
      successful one. */
  datatype ListenerState = ListenerState(
    tokenFound: Option<string>,
    preview: Option<string>,
    webhookCalls: seq<HttpRequest>,
    exit: Exit,
    browserCloses: nat,
    deliveryError: Option<string>,
    replyLine: Option<ReplyLine>)

  const Init := ListenerState(None, None, [], NoExplicitExit, 0, None, None)

  /** The state after the handler sets `tokenFound := t` and awaits the
      delivery: after a success it logs the reply, closes the browser and
      exits 0; a failure is caught and logged, and `tokenFound` stays set. */
  function Accept(sink: Sink, s: ListenerState, t: string): ListenerState {
    var s' := s.(tokenFound := Some(t), preview := Some(Preview(t)),
                 webhookCalls := s.webhookCalls + [WebhookRequest(sink.url, t, sink.secret)]);
    match SendTokenToWebhook(sink.reply)
    case Delivered(reply) =>
      s'.(replyLine := Some(ReplyLog(reply)), browserCloses := s'.browserCloses + 1, exit := ExitCode(0))
    case Rejected(_, message) => s'.(deliveryError := Some(message))
    case NetworkFailed(message) => s'.(deliveryError := Some(message))
  }

  /** Accepting a token from the initial state keeps the latch invariant. */
  lemma AcceptKeepsValid(sink: Sink, s: ListenerState, t: string)
    requires Valid(sink, s) && s.tokenFound.None? && t != ""
    ensures Valid(sink, Accept(sink, s, t))
  {
    assert s == Init;
  }

  /** Accept field by field. */
  lemma AcceptFields(sink: Sink, s: ListenerState, t: string)
    ensures var a := Accept(sink, s, t); var d := SendTokenToWebhook(sink.reply);
      && a.tokenFound == Some(t) && a.preview == Some(Preview(t))
      && a.webhookCalls == s.webhookCalls + [WebhookRequest(sink.url, t, sink.secret)]
      && a.exit == (if d.Delivered? then ExitCode(0) else s.exit)
      && a.browserCloses == (if d.Delivered? then s.browserCloses + 1 else s.browserCloses)
      && a.deliveryError == (if d.Delivered? then s.deliveryError else Some(d.message))
      && a.replyLine == (if d.Delivered? then Some(ReplyLog(d.reply)) else s.replyLine)
  {
  }

  /** One call of the request handler. */
  function Step(sink: Sink, s: ListenerState, q: Request): ListenerState {
    match BearerToken(q)
    case None => s
    case Some(t) => if TruthyString(s.tokenFound) then s else Accept(sink, s, t)
  }

  /** The handler applied to the requests in arrival order, until a handler
      ends the process. */
  function Observe(sink: Sink, s: ListenerState, qs: seq<Request>): ListenerState
    decreases |qs|
  {
    if qs == [] || s.exit.ExitCode? then s else Observe(sink, Step(sink, s, qs[0]), qs[1..])
  }

  /** The invariant the latch keeps: at most one token, sent once, and an
      exit from the handler only after a successful delivery. */
  ghost predicate Valid(sink: Sink, s: ListenerState) {
    && (s.tokenFound.None? ==> s == Init)
    && (s.tokenFound.Some? ==>
          && s.tokenFound.value != ""
          && s.preview == Some(Preview(s.tokenFound.value))
          && s.webhookCalls == [WebhookRequest(sink.url, s.tokenFound.value, sink.secret)])
    && (s.exit.ExitCode? ==> s.exit == ExitCode(0) && s.browserCloses == 1 && s.deliveryError.None?)
    && (s.exit.NoExplicitExit? ==> s.browserCloses == 0)
    && (s.replyLine.Some? <==> s.exit.ExitCode?)
    && (s.tokenFound.Some? && s.exit.NoExplicitExit? ==> s.deliveryError.Some?)
  }

  /** The handler as the script writes it, over the closure's variables. */
  class RequestListener {
    const sink: Sink
    var tokenFound: Option<string>
    var preview: Option<string>
    ghost var webhookCalls: seq<HttpRequest>
    var exit: Exit
    var browserCloses: nat
    var deliveryError: Option<string>
    var replyLine: Option<ReplyLine>

    ghost function State(): ListenerState
      reads this
    {
      ListenerState(tokenFound, preview, webhookCalls, exit, browserCloses, deliveryError, replyLine)
    }

    constructor (sink: Sink)
      ensures this.sink == sink && State() == Init
    {
      this.sink := sink;
      tokenFound, preview, webhookCalls := None, None, [];
      exit, browserCloses, deliveryError, replyLine := NoExplicitExit, 0, None, None;
    }

    /** A handler runs only while the process is alive. */
    method OnRequest(q: Request)
      requires Valid(sink, State()) && exit.NoExplicitExit?
      modifies this
      ensures Valid(sink, State())
      ensures State() == Step(sink, old(State()), q)
      ensures old(tokenFound).Some? ==> State() == old(State())
    {
      if !StartsWith(q.url, BOARDS_API) {
        assert BearerToken(q).None?;
        return;
      }

      var auth := AuthHeader(q.headers);
      if !TruthyString(auth) || !StartsWith(auth.value, BEARER) {
        assert BearerToken(q).None?;
        return;
      }

      var token := Trim(auth.value[|BEARER|..]);
      assert BearerToken(q) == if token == "" then None else Some(token);
      if token == "" || TruthyString(tokenFound) { return; }
      AcceptToken(token);
    }

    /** Lines 94-101: latch the token, log its preview, await the delivery,
        then close the browser and exit 0; a failed delivery is caught. */
    method AcceptToken(token: string)
      requires Valid(sink, State()) && tokenFound.None? && token != ""
      modifies this
      ensures Valid(sink, State())
      ensures State() == Accept(sink, old(State()), token)
    {
      AcceptKeepsValid(sink, State(), token);
      AcceptFields(sink, State(), token);

      tokenFound := Some(token);
      preview := Some(Preview(token));

      webhookCalls := webhookCalls + [WebhookRequest(sink.url, token, sink.secret)];
      var d := SendTokenToWebhook(sink.reply);
      if d.Delivered? {
        replyLine := Some(ReplyLog(d.reply));
        browserCloses := browserCloses + 1;
        exit := ExitCode(0);
      } else {
        deliveryError := Some(d.message);
      }
    }
  }

  function Finish(s: ListenerState): Outcome {
    Outcome(true, s.exit, s.browserCloses, s.webhookCalls, s.deliveryError)
  }

  /** `run()` after the environment check: the listener is attached, the
      login sequence runs, then the fixed wait, then the `tokenFound` check.
      Requests that arrive while the login sequence runs are `duringLogin`;
      those of the 30 s wait after it are `duringWait`. */
  function Capture(sink: Sink, login: Login, duringLogin: seq<Request>, duringWait: seq<Request>): Outcome {
    var s1 := Observe(sink, Init, duringLogin);
    if s1.exit.ExitCode? then Finish(s1)
    else if login.LoginThrows? then Finish(s1).(exit := ExitCode(1))
    else
      var s2 := Observe(sink, s1, duringWait);
      if s2.exit.ExitCode? then Finish(s2)
      else if !TruthyString(s2.tokenFound) then Finish(s2).(exit := ExitCode(1), browserCloses := s2.browserCloses + 1)
      else Finish(s2)
  }

  function ConfiguredSink(env: Env, reply: FetchResult): Sink
    requires AssertEnv(env).None?
  {
    assert IsSet(env, REQUIRED[2]);
    Sink(env["XZONE_WEBHOOK_URL"], WebhookSecret(env), reply)
  }

  /** The whole script: the environment check, then `run()`. */
  function Run(env: Env, login: Login, duringLogin: seq<Request>, duringWait: seq<Request>, reply: FetchResult): Outcome {
    if AssertEnv(env).Some? then ConfigFailure
    else Capture(ConfiguredSink(env, reply), login, duringLogin, duringWait)
  }
}
