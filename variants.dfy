/**
 * The two scripts side by side: where they agree and where they differ on
 * the same situation, and concrete runs: a board request with
 * `Bearer abc123`, a webhook answering 500, no traffic, a missing password.
 */
module Variants {
  import opened Wrappers
  import opened JsStrings
  import opened JsonValue
  import opened Environment
  import opened Webhook
  import opened RunOutcome
  import R = ResponseCapture
  import RP = ResponseCaptureProperties
  import Q = RequestCapture
  import QP = RequestCaptureProperties

  /** A token captured and saved: both scripts close the browser once and
      exit 0 after one webhook call. */
  lemma DeliveredAgree(envR: Env, dlR: seq<R.Response>, dwR: seq<R.Response>, kR: int,
                       envQ: Env, dlQ: seq<Q.Request>, dwQ: seq<Q.Request>, kQ: int,
                       t: string, reply: FetchResult)
    requires reply.Responded? && Ok(reply.status)
    requires R.AssertEnv(envR).None? && RP.FirstAcceptedAt(dlR + dwR, kR) && R.Accepted((dlR + dwR)[kR]) == Some(JString(t))
    requires Q.AssertEnv(envQ).None? && QP.FirstAcceptedAt(dlQ + dwQ, kQ) && Q.BearerToken((dlQ + dwQ)[kQ]) == Some(t)
    ensures var o := R.Run(envR, LoginOk, dlR, dwR, reply);
      o.exit == ExitCode(0) && o.browserCloses == 1 && |o.webhookCalls| == 1 && o.deliveryError.None?
    ensures var o := Q.Run(envQ, LoginOk, dlQ, dwQ, reply);
      o.exit == ExitCode(0) && o.browserCloses == 1 && |o.webhookCalls| == 1 && o.deliveryError.None?
  {
    RP.TokenWinsRace(envR, dlR, dwR, reply, kR, t);
    QP.DeliveredExitsZero(envQ, LoginOk, dlQ, dwQ, reply, kQ, t);
  }

  /** A token captured but not saved: the body variant still closes the
      browser and exits 0, the header variant neither closes it nor exits;
      both log the sink's rejection, which names its status. */
  lemma DeliveryFailureDiverges(envR: Env, dlR: seq<R.Response>, dwR: seq<R.Response>, kR: int,
                                envQ: Env, dlQ: seq<Q.Request>, dwQ: seq<Q.Request>, kQ: int,
                                t: string, reply: FetchResult)
    requires reply.Responded? && !Ok(reply.status)
    requires R.AssertEnv(envR).None? && RP.FirstAcceptedAt(dlR + dwR, kR) && R.Accepted((dlR + dwR)[kR]) == Some(JString(t))
    requires Q.AssertEnv(envQ).None? && QP.FirstAcceptedAt(dlQ + dwQ, kQ) && Q.BearerToken((dlQ + dwQ)[kQ]) == Some(t)
    ensures var o := R.Run(envR, LoginOk, dlR, dwR, reply);
      && o.exit == ExitCode(0) && o.browserCloses == 1 && |o.webhookCalls| == 1
      && o.deliveryError == Some(RejectionMessage(R.WEBHOOK_LEAD, reply.status, reply.statusText, R.WEBHOOK_SEP, BodyText(reply.text)))
    ensures var o := Q.Run(envQ, LoginOk, dlQ, dwQ, reply);
      && o.exit == NoExplicitExit && o.browserCloses == 0 && |o.webhookCalls| == 1
      && o.deliveryError == Some(RejectionMessage(Q.WEBHOOK_LEAD, reply.status, reply.statusText, Q.WEBHOOK_SEP, BodyText(reply.text)))
  {
    RP.TokenWinsRace(envR, dlR, dwR, reply, kR, t);
    QP.DeliveryFailureReturnsSilently(envQ, dlQ, dwQ, reply, kQ, t);
  }

  /** Nothing accepted before the deadline: both scripts close the browser
      once, exit 1 and never call the webhook. */
  lemma TimeoutAgree(envR: Env, dlR: seq<R.Response>, dwR: seq<R.Response>,
                     envQ: Env, dlQ: seq<Q.Request>, dwQ: seq<Q.Request>, reply: FetchResult)
    requires R.AssertEnv(envR).None? && RP.NoneAccepted(dlR + dwR)
    requires Q.AssertEnv(envQ).None? && QP.NoneAccepted(dlQ + dwQ)
    ensures R.Run(envR, LoginOk, dlR, dwR, reply) == Q.Run(envQ, LoginOk, dlQ, dwQ, reply)
         == Outcome(true, ExitCode(1), 1, [], None)
  {
    RP.DeadlineWinsRace(envR, dlR, dwR, reply);
    QP.NoTokenExitsOne(envQ, dlQ, dwQ, reply);
  }

  // ---------------------------------------------------------------------
  // Concrete runs

  const HookUrl := "https://script.example/exec"
  const EnvHeader: Env := map["XZONE_EMAIL" := "user@example.org", "XZONE_PASSWORD" := "pw",
                              "XZONE_WEBHOOK_URL" := HookUrl, "XZONE_WEBHOOK_SECRET" := "s3cret"]
  const EnvBody: Env := map["XZONE_EMAIL" := "user@example.org", "XZONE_PASSWORD" := "pw",
                            "WEBHOOK_URL" := HookUrl, "TOKEN_UPDATE_SECRET" := "s3cret"]
  const BoardRequest := Q.Request(Q.BOARDS_API + "42/items", map["authorization" := "Bearer abc123"])
  const TokenResponse := R.Response("https://login.example" + R.TOKEN_ENDPOINT, 200,
                                    Some(JObject(map["access_token" := JString("abc123"), "expires_in" := JNumber(86400.0)])))
  const ServerError := Responded(500, "Internal Server Error", None, None)

  lemma BoardRequestCarriesToken()
    ensures Q.BearerToken(BoardRequest) == Some("abc123")
  {
    var h := map["authorization" := "Bearer abc123"];
    assert Q.BEARER + [] + "abc123" + [] == "Bearer abc123";
    assert h == map[]["authorization" := Q.BEARER + [] + "abc123" + []];
    QP.BearerAccepted("42/items", map[], "authorization", [], "abc123", []);
  }

  /** A board request with `Authorization: Bearer abc123` during the wait:
      the payload `{token: "abc123", secret}` goes to the webhook and the
      run exits 0. */
  lemma HeaderScenarioDelivered()
    ensures Q.Run(EnvHeader, LoginOk, [], [BoardRequest], Responded(200, "OK", None, None))
         == Outcome(true, ExitCode(0), 1, [WebhookRequest(HookUrl, "abc123", "s3cret")], None)
  {
    assert IsSet(EnvHeader, Q.SECRET_VARIABLE);
    BoardRequestCarriesToken();
    assert QP.FirstAcceptedAt([] + [BoardRequest], 0);
    QP.DeliveredExitsZero(EnvHeader, LoginOk, [], [BoardRequest], Responded(200, "OK", None, None), 0, "abc123");
  }

  /** The same request, with the webhook answering 500 and the body
      unreadable: the error names the status and an empty body, the browser
      stays open and `run()` returns without an exit code. */
  lemma HeaderScenarioRejected()
    ensures Q.Run(EnvHeader, LoginOk, [], [BoardRequest], ServerError)
         == Outcome(true, NoExplicitExit, 0, [WebhookRequest(HookUrl, "abc123", "s3cret")],
                    Some(RejectionMessage(Q.WEBHOOK_LEAD, 500, "Internal Server Error", Q.WEBHOOK_SEP, "")))
  {
    assert IsSet(EnvHeader, Q.SECRET_VARIABLE);
    BoardRequestCarriesToken();
    assert QP.FirstAcceptedAt([] + [BoardRequest], 0);
    QP.DeliveryFailureReturnsSilently(EnvHeader, [], [BoardRequest], ServerError, 0, "abc123");
  }

  /** The token response of the identity provider with the webhook
      answering 500: the body variant still exits 0. */
  lemma BodyScenarioRejected()
    ensures R.Run(EnvBody, LoginOk, [TokenResponse], [], ServerError)
         == Outcome(true, ExitCode(0), 1, [WebhookRequest(HookUrl, "abc123", "s3cret")],
                    Some(RejectionMessage(R.WEBHOOK_LEAD, 500, "Internal Server Error", R.WEBHOOK_SEP, "")))
  {
    RP.TokenTakenVerbatim("https://login.example", "", 200,
      map["access_token" := JString("abc123"), "expires_in" := JNumber(86400.0)], "abc123");
    assert "https://login.example" + R.TOKEN_ENDPOINT + "" == TokenResponse.url;
    assert RP.FirstAcceptedAt([TokenResponse] + [], 0);
    RP.TokenWinsRace(EnvBody, [TokenResponse], [], ServerError, 0, "abc123");
  }

  /** How a status is rendered in those messages. */
  lemma StatusRendering()
    ensures NatToString(500) == "500" && NatToString(404) == "404" && NatToString(0) == "0"
  {
    assert NatToString(5) == "5" && NatToString(50) == "50";
    assert NatToString(4) == "4" && NatToString(40) == "40";
  }

  /** No traffic at all: both scripts time out with exit 1. */
  lemma ScenarioNoTraffic(reply: FetchResult)
    ensures Q.Run(EnvHeader, LoginOk, [], [], reply) == Outcome(true, ExitCode(1), 1, [], None)
    ensures R.Run(EnvBody, LoginOk, [], [], reply) == Outcome(true, ExitCode(1), 1, [], None)
  {
  }

  /** The password missing: exit 1 before any browser, in both scripts. */
  lemma ScenarioMissingPassword(login: Login, dlR: seq<R.Response>, dwR: seq<R.Response>,
                                dlQ: seq<Q.Request>, dwQ: seq<Q.Request>, reply: FetchResult)
    ensures Q.Run(EnvHeader - {"XZONE_PASSWORD"}, login, dlQ, dwQ, reply) == ConfigFailure
    ensures R.Run(EnvBody["XZONE_PASSWORD" := ""], login, dlR, dwR, reply) == ConfigFailure
  {
    QP.MissingEnvIsFatal(EnvHeader - {"XZONE_PASSWORD"}, login, dlQ, dwQ, reply, 1);
    RP.MissingEnvIsFatal(EnvBody["XZONE_PASSWORD" := ""], login, dlR, dwR, reply, 1);
  }
}
