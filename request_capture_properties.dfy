/**
 * What update-xzone-token.js promises, proved about the model in
 * RequestCapture: the header policy, the first-match latch and the
 * outcome table of `run()`.
 */
module RequestCaptureProperties {
  import opened Wrappers
  import opened JsStrings
  import opened JsonValue
  import opened Environment
  import opened Webhook
  import opened RunOutcome
  import opened RequestCapture

  /** `k` is the first request the policy accepts. */
  ghost predicate FirstAcceptedAt(qs: seq<Request>, k: int) {
    0 <= k < |qs| && BearerToken(qs[k]).Some? && forall j :: 0 <= j < k ==> BearerToken(qs[j]).None?
  }

  ghost predicate NoneAccepted(qs: seq<Request>) {
    forall j :: 0 <= j < |qs| ==> BearerToken(qs[j]).None?
  }

  // ---------------------------------------------------------------------
  // Configuration

  /** The secret is the configured one when it is set and non-empty, and
      the placeholder `abc123` otherwise. */
  lemma SecretDefault(env: Env, v: string)
    ensures WebhookSecret(env - {SECRET_VARIABLE}) == DEFAULT_SECRET
    ensures WebhookSecret(env[SECRET_VARIABLE := ""]) == DEFAULT_SECRET
    ensures v != "" ==> WebhookSecret(env[SECRET_VARIABLE := v]) == v
  {
  }

  /** The error line names the first required variable, in call order,
      that is unset or empty. */
  lemma AssertEnvNamesFirstMissing(env: Env, i: int)
    requires 0 <= i < |REQUIRED| && !IsSet(env, REQUIRED[i])
    requires forall j :: 0 <= j < i ==> IsSet(env, REQUIRED[j])
    ensures AssertEnv(env) == Some("[ERROR] Umgebungsvariable " + REQUIRED[i] + " fehlt.")
  {
    var r := FirstMissing(env, REQUIRED);
    assert r.Some?;
    assert !(r.value < i) && !(i < r.value);
  }

  /** Any of the three required variables unset or empty stops the run with
      exit 1 before a browser is launched; the secret is not among them. */
  lemma MissingEnvIsFatal(env: Env, login: Login, dl: seq<Request>, dw: seq<Request>, reply: FetchResult, i: nat)
    requires i < |REQUIRED| && !IsSet(env, REQUIRED[i])
    ensures Run(env, login, dl, dw, reply) == ConfigFailure
  {
  }

  lemma MissingSecretNotFatal(env: Env, login: Login, dl: seq<Request>, dw: seq<Request>, reply: FetchResult)
    requires forall i :: 0 <= i < |REQUIRED| ==> IsSet(env, REQUIRED[i])
    ensures Run(env - {SECRET_VARIABLE}, login, dl, dw, reply).launched
  {
    var env' := env - {SECRET_VARIABLE};
    assert forall i :: 0 <= i < |REQUIRED| ==> REQUIRED[i] != SECRET_VARIABLE && IsSet(env', REQUIRED[i]);
  }

  // ---------------------------------------------------------------------
  // The header policy

  /** A request to the boards API whose `authorization` header (or, when
      that is missing or empty, `Authorization` header) is `Bearer `
      followed by a token with any whitespace around it yields the token
      without that whitespace. */
  lemma BearerAccepted(path: string, h: map<string, string>, key: string, a: string, t: string, b: string)
    requires key == "authorization" || (key == "Authorization" && !TruthyString(Get(h, "authorization")))
    requires AllTrimmable(a) && AllTrimmable(b) && Trimmed(t) && t != ""
    ensures BearerToken(Request(BOARDS_API + path, h[key := BEARER + a + t + b])) == Some(t)
  {
    var v := BEARER + a + t + b;
    var h' := h[key := v];
    if key == "Authorization" {
      assert Get(h', "authorization") == Get(h, "authorization");
    }
    assert AuthHeader(h') == Some(v);
    assert StartsWith(BOARDS_API + path, BOARDS_API);
    assert StartsWith(v, BEARER);
    assert v[|BEARER|..] == a + t + b;
    TrimOfPadded(a, t, b);
  }

  /** Every token the policy yields comes from the header looked up, which
      starts with `Bearer ` and holds the token padded only by whitespace. */
  lemma BearerTokenSound(q: Request)
    requires BearerToken(q).Some?
    ensures var auth := AuthHeader(q.headers);
      && auth.Some? && StartsWith(auth.value, BEARER)
      && exists i :: PaddedAt(auth.value[|BEARER|..], BearerToken(q).value, i)
  {
  }

  /** `Bearer ` followed only by whitespace, `Bearer ` itself included, is
      rejected. */
  lemma EmptyBearerRejected(url: string, h: map<string, string>, a: string)
    requires AllTrimmable(a)
    ensures BearerToken(Request(url, h["authorization" := BEARER + a])) == None
  {
    var v := BEARER + a;
    if StartsWith(url, BOARDS_API) {
      assert v[|BEARER|..] == [] + a + [];
      TrimOfPadded([], a[..0], a);
      assert a[..0] + a == a;
    }
  }

  /** A header with another scheme, or with the scheme in other case, is
      ignored: the prefix test is exact and case-sensitive. */
  lemma OtherSchemeIgnored(url: string, h: map<string, string>, v: string)
    requires v != "" && !StartsWith(v, BEARER)
    ensures BearerToken(Request(url, h["authorization" := v])) == None
  {
  }

  lemma SchemeExamples()
    ensures !StartsWith("bearer abc", BEARER) && !StartsWith("Basic abc", BEARER) && !StartsWith("Bearer", BEARER)
  {
    assert "bearer abc"[..7][0] != BEARER[0];
    assert "Basic abc"[..7][1] != BEARER[1];
  }

  /** Requests outside the boards API, and requests without a non-empty
      authorization header under either spelling, are ignored. */
  lemma NonCandidatesIgnored(q: Request)
    requires !StartsWith(q.url, BOARDS_API)
          || (!TruthyString(Get(q.headers, "authorization")) && !TruthyString(Get(q.headers, "Authorization")))
    ensures BearerToken(q) == None
  {
  }

  /** The log shows at most the first 20 characters of a token, then
      three dots. */
  lemma PreviewShowsAtMost20(t: string)
    ensures var p := Preview(t);
      && 3 <= |p| <= 23 && p[|p| - 3..] == "..."
      && p[..|p| - 3] == t[..if |t| <= 20 then |t| else 20]
  {
  }

  // ---------------------------------------------------------------------
  // The latch

  lemma StepKeepsValid(sink: Sink, s: ListenerState, q: Request)
    requires Valid(sink, s) && s.exit.NoExplicitExit?
    ensures Valid(sink, Step(sink, s, q))
  {
    var t := BearerToken(q);
    if t.Some? && !TruthyString(s.tokenFound) {
      AcceptKeepsValid(sink, s, t.value);
    }
  }

  lemma {:induction false} ObserveKeepsValid(sink: Sink, s: ListenerState, qs: seq<Request>)
    requires Valid(sink, s)
    ensures Valid(sink, Observe(sink, s, qs))
    decreases |qs|
  {
    if qs != [] && s.exit.NoExplicitExit? {
      StepKeepsValid(sink, s, qs[0]);
      ObserveKeepsValid(sink, Step(sink, s, qs[0]), qs[1..]);
    }
  }

  /** Once `tokenFound` is set, later requests return at the latch check:
      no second token, no second webhook call. */
  lemma {:induction false} ObserveLatched(sink: Sink, s: ListenerState, qs: seq<Request>)
    requires TruthyString(s.tokenFound)
    ensures Observe(sink, s, qs) == s
    decreases |qs|
  {
    if qs != [] && s.exit.NoExplicitExit? {
      ObserveLatched(sink, s, qs[1..]);
    }
  }

  /** The same request handled twice has the effect of handling it once. */
  lemma DuplicateIgnored(sink: Sink, s: ListenerState, q: Request)
    ensures Step(sink, Step(sink, s, q), q) == Step(sink, s, q)
  {
  }

  lemma {:induction false} ObserveConcat(sink: Sink, s: ListenerState, a: seq<Request>, b: seq<Request>)
    ensures Observe(sink, s, a + b) == Observe(sink, Observe(sink, s, a), b)
    decreases |a|
  {
    if a == [] {
      assert a + b == b;
    } else {
      assert (a + b)[0] == a[0] && (a + b)[1..] == a[1..] + b;
      if s.exit.NoExplicitExit? {
        ObserveConcat(sink, Step(sink, s, a[0]), a[1..], b);
      } else {
        assert Observe(sink, s, b) == s;
      }
    }
  }

  lemma {:induction false} NoMatchUnchanged(sink: Sink, s: ListenerState, qs: seq<Request>)
    requires NoneAccepted(qs)
    ensures Observe(sink, s, qs) == s
    decreases |qs|
  {
    if qs != [] && s.exit.NoExplicitExit? {
      NoMatchUnchanged(sink, s, qs[1..]);
    }
  }

  /** First match wins: from a live, unlatched state, the state after all
      the requests is the one that accepting the first accepted token gives. */
  lemma {:induction false} FirstMatchWins(sink: Sink, s: ListenerState, qs: seq<Request>, k: int)
    requires s.tokenFound.None? && s.exit.NoExplicitExit?
    requires FirstAcceptedAt(qs, k)
    ensures Observe(sink, s, qs) == Accept(sink, s, BearerToken(qs[k]).value)
    decreases |qs|
  {
    assert Observe(sink, s, qs) == Observe(sink, Step(sink, s, qs[0]), qs[1..]);
    if k == 0 {
      var t := BearerToken(qs[0]).value;
      assert Step(sink, s, qs[0]) == Accept(sink, s, t);
      AcceptFields(sink, s, t);
      ObserveLatched(sink, Accept(sink, s, t), qs[1..]);
    } else {
      assert Step(sink, s, qs[0]) == s;
      assert qs[1..][k - 1] == qs[k];
      assert forall j :: 0 <= j < k - 1 ==> qs[1..][j] == qs[j + 1];
      assert FirstAcceptedAt(qs[1..], k - 1);
      FirstMatchWins(sink, s, qs[1..], k - 1);
    }
  }

  lemma {:induction false} FirstAcceptedExists(qs: seq<Request>)
    requires !NoneAccepted(qs)
    ensures exists k :: FirstAcceptedAt(qs, k)
    decreases |qs|
  {
    if BearerToken(qs[0]).Some? {
      assert FirstAcceptedAt(qs, 0);
    } else {
      assert !NoneAccepted(qs[1..]) by {
        var j :| 0 <= j < |qs| && BearerToken(qs[j]).Some?;
        assert qs[1..][j - 1] == qs[j];
      }
      FirstAcceptedExists(qs[1..]);
      var k :| FirstAcceptedAt(qs[1..], k);
      assert qs[k + 1] == qs[1..][k];
      forall j | 0 <= j < k + 1
        ensures BearerToken(qs[j]).None?
      {
        if j > 0 { assert qs[j] == qs[1..][j - 1]; }
      }
      assert FirstAcceptedAt(qs, k + 1);
    }
  }

  /** Where in the two phases the first accepted request falls. */
  lemma SplitFirstAccepted(dl: seq<Request>, dw: seq<Request>, k: int)
    requires FirstAcceptedAt(dl + dw, k)
    ensures k < |dl| ==> FirstAcceptedAt(dl, k)
    ensures k >= |dl| ==> NoneAccepted(dl) && FirstAcceptedAt(dw, k - |dl|)
  {
    var rs := dl + dw;
    if k < |dl| {
      assert forall j :: 0 <= j <= k ==> rs[j] == dl[j];
    } else {
      assert forall j :: 0 <= j < |dl| ==> rs[j] == dl[j];
      assert forall j :: 0 <= j <= k - |dl| ==> rs[j + |dl|] == dw[j];
    }
  }

  lemma SplitNoneAccepted(dl: seq<Request>, dw: seq<Request>)
    requires NoneAccepted(dl + dw)
    ensures NoneAccepted(dl) && NoneAccepted(dw)
  {
    assert forall j :: 0 <= j < |dl| ==> (dl + dw)[j] == dl[j];
    assert forall j :: 0 <= j < |dw| ==> (dl + dw)[j + |dl|] == dw[j];
  }

  // ---------------------------------------------------------------------
  // The outcome of run()

  /** The first accepted token is delivered: the handler closes the browser
      and exits 0 (during the login too, before a login failure could
      surface). */
  lemma DeliveredExitsZero(env: Env, login: Login, dl: seq<Request>, dw: seq<Request>, reply: FetchResult, k: int, t: string)
    requires AssertEnv(env).None? && SendTokenToWebhook(reply).Delivered?
    requires FirstAcceptedAt(dl + dw, k) && BearerToken((dl + dw)[k]) == Some(t)
    requires login.LoginOk? || k < |dl|
    ensures "XZONE_WEBHOOK_URL" in env
    ensures Run(env, login, dl, dw, reply)
         == Outcome(true, ExitCode(0), 1, [WebhookRequest(env["XZONE_WEBHOOK_URL"], t, WebhookSecret(env))], None)
  {
    assert IsSet(env, REQUIRED[2]);
    var sink := Sink(env["XZONE_WEBHOOK_URL"], WebhookSecret(env), reply);
    assert Run(env, login, dl, dw, reply) == Capture(sink, login, dl, dw);
    var a := Accept(sink, Init, t);
    AcceptFields(sink, Init, t);
    assert Finish(a) == Outcome(true, ExitCode(0), 1, [WebhookRequest(sink.url, t, sink.secret)], None);
    SplitFirstAccepted(dl, dw, k);
    if k < |dl| {
      assert (dl + dw)[k] == dl[k];
      FirstMatchWins(sink, Init, dl, k);
      assert Observe(sink, Init, dl) == a && a.exit.ExitCode?;
      assert Capture(sink, login, dl, dw) == Finish(a);
    } else {
      assert (dl + dw)[k] == dw[k - |dl|];
      NoMatchUnchanged(sink, Init, dl);
      FirstMatchWins(sink, Init, dw, k - |dl|);
      assert login.LoginOk? && Observe(sink, Init, dl) == Init;
      assert Observe(sink, Init, dw) == a && a.exit.ExitCode?;
      assert Capture(sink, login, dl, dw) == Finish(a);
    }
  }

  /** The state a failed delivery leaves: token latched, process alive,
      browser open, the error logged. */
  lemma FailedAccept(sink: Sink, t: string)
    requires !SendTokenToWebhook(sink.reply).Delivered?
    ensures Accept(sink, Init, t)
         == ListenerState(Some(t), Some(Preview(t)), [WebhookRequest(sink.url, t, sink.secret)],
                          NoExplicitExit, 0, Some(SendTokenToWebhook(sink.reply).message), None)
  {
  }

  /** The state a successful delivery leaves: the reply logged (the JSON
      when it is truthy, `<kein JSON>` otherwise), the browser closed once
      and exit 0. */
  lemma DeliveredAccept(sink: Sink, t: string)
    requires sink.reply.Responded? && Ok(sink.reply.status)
    ensures Accept(sink, Init, t)
         == ListenerState(Some(t), Some(Preview(t)), [WebhookRequest(sink.url, t, sink.secret)],
                          ExitCode(0), 1, None, Some(ReplyLog(sink.reply.json)))
    ensures TruthyOpt(sink.reply.json) ==> Accept(sink, Init, t).replyLine == Some(ShowsJson(sink.reply.json.value))
    ensures !TruthyOpt(sink.reply.json) ==> Accept(sink, Init, t).replyLine == Some(ShowsText(NO_JSON))
  {
  }

  lemma CaptureAfterFailedDelivery(sink: Sink, dl: seq<Request>, dw: seq<Request>, k: int, t: string)
    requires !SendTokenToWebhook(sink.reply).Delivered? && t != ""
    requires FirstAcceptedAt(dl + dw, k) && BearerToken((dl + dw)[k]) == Some(t)
    ensures Observe(sink, Observe(sink, Init, dl), dw) == Accept(sink, Init, t)
  {
    SplitFirstAccepted(dl, dw, k);
    if k < |dl| {
      assert (dl + dw)[k] == dl[k];
      FirstMatchWins(sink, Init, dl, k);
      assert Accept(sink, Init, t).tokenFound == Some(t);
      ObserveLatched(sink, Accept(sink, Init, t), dw);
    } else {
      assert (dl + dw)[k] == dw[k - |dl|];
      NoMatchUnchanged(sink, Init, dl);
      FirstMatchWins(sink, Init, dw, k - |dl|);
    }
  }

  /** The first accepted token is not delivered: the error is logged,
      `tokenFound` stays set, so the check after the wait passes and `run()`
      returns without `browser.close` and without an explicit exit. */
  lemma DeliveryFailureReturnsSilently(env: Env, dl: seq<Request>, dw: seq<Request>, reply: FetchResult, k: int, t: string)
    requires AssertEnv(env).None? && !SendTokenToWebhook(reply).Delivered?
    requires FirstAcceptedAt(dl + dw, k) && BearerToken((dl + dw)[k]) == Some(t)
    ensures "XZONE_WEBHOOK_URL" in env
    ensures Run(env, LoginOk, dl, dw, reply)
         == Outcome(true, NoExplicitExit, 0, [WebhookRequest(env["XZONE_WEBHOOK_URL"], t, WebhookSecret(env))],
                    Some(SendTokenToWebhook(reply).message))
  {
    assert IsSet(env, REQUIRED[2]);
    var sink := ConfiguredSink(env, reply);
    CaptureAfterFailedDelivery(sink, dl, dw, k, t);
    FailedAccept(sink, t);
    var s1 := Observe(sink, Init, dl);
    assert s1.exit.NoExplicitExit? by { ObserveKeepsValid(sink, Init, dl); }
  }

  /** No accepted request by the end of the wait: the browser is closed and
      the run exits 1; the webhook is never called. */
  lemma NoTokenExitsOne(env: Env, dl: seq<Request>, dw: seq<Request>, reply: FetchResult)
    requires AssertEnv(env).None? && NoneAccepted(dl + dw)
    ensures Run(env, LoginOk, dl, dw, reply) == Outcome(true, ExitCode(1), 1, [], None)
  {
    assert IsSet(env, REQUIRED[2]);
    var sink := Sink(env["XZONE_WEBHOOK_URL"], WebhookSecret(env), reply);
    SplitNoneAccepted(dl, dw);
    NoMatchUnchanged(sink, Init, dl);
    NoMatchUnchanged(sink, Init, dw);
  }

  /** A login that throws, with no token delivered before it, reaches
      `run().catch`: exit 1, `browser.close` never called. */
  lemma LoginFailureExitsOne(env: Env, dl: seq<Request>, dw: seq<Request>, reply: FetchResult)
    requires AssertEnv(env).None? && NoneAccepted(dl)
    ensures Run(env, LoginThrows, dl, dw, reply) == Outcome(true, ExitCode(1), 0, [], None)
  {
    assert IsSet(env, REQUIRED[2]);
    NoMatchUnchanged(Sink(env["XZONE_WEBHOOK_URL"], WebhookSecret(env), reply), Init, dl);
  }

  /** With the environment complete and the login through: exit 0 exactly
      when some request is accepted and the delivery succeeds, exit 1
      exactly when no request is accepted, and no explicit exit otherwise. */
  lemma OutcomeTable(env: Env, dl: seq<Request>, dw: seq<Request>, reply: FetchResult)
    requires AssertEnv(env).None?
    ensures var o := Run(env, LoginOk, dl, dw, reply);
      && (o.exit == ExitCode(0) <==> !NoneAccepted(dl + dw) && SendTokenToWebhook(reply).Delivered?)
      && (o.exit == ExitCode(1) <==> NoneAccepted(dl + dw))
      && (o.exit == NoExplicitExit <==> !NoneAccepted(dl + dw) && !SendTokenToWebhook(reply).Delivered?)
  {
    if NoneAccepted(dl + dw) {
      NoTokenExitsOne(env, dl, dw, reply);
    } else {
      FirstAcceptedExists(dl + dw);
      var k :| FirstAcceptedAt(dl + dw, k);
      var t := BearerToken((dl + dw)[k]).value;
      if SendTokenToWebhook(reply).Delivered? {
        DeliveredExitsZero(env, LoginOk, dl, dw, reply, k, t);
      } else {
        DeliveryFailureReturnsSilently(env, dl, dw, reply, k, t);
      }
    }
  }

  /** On every path: the browser is closed at most once, at most one
      webhook request is issued, and none when the environment check
      stopped the run. */
  lemma AtMostOnce(env: Env, login: Login, dl: seq<Request>, dw: seq<Request>, reply: FetchResult)
    ensures var o := Run(env, login, dl, dw, reply);
      && o.browserCloses <= 1
      && |o.webhookCalls| <= 1
      && (o.exit == ExitCode(0) ==> o.browserCloses == 1 && |o.webhookCalls| == 1)
      && (!o.launched ==> o.webhookCalls == [] && o.exit == ExitCode(1))
  {
    if AssertEnv(env).None? {
      assert IsSet(env, REQUIRED[2]);
      var sink := Sink(env["XZONE_WEBHOOK_URL"], WebhookSecret(env), reply);
      ObserveKeepsValid(sink, Init, dl);
      ObserveKeepsValid(sink, Observe(sink, Init, dl), dw);
    }
  }
}
