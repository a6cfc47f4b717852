/**
 * What scripts/update-xzone-token.js promises, proved about the model in
 * ResponseCapture: the extraction policy, the first-match latch and the
 * exit-code table of `run()`.
 */
module ResponseCaptureProperties {
  import opened Wrappers
  import opened JsStrings
  import opened JsonValue
  import opened Environment
  import opened Webhook
  import opened RunOutcome
  import opened ResponseCapture

  /** `k` is the first response the policy accepts. */
  ghost predicate FirstAcceptedAt(rs: seq<Response>, k: int) {
    0 <= k < |rs| && Accepted(rs[k]).Some? && forall j :: 0 <= j < k ==> Accepted(rs[j]).None?
  }

  ghost predicate NoneAccepted(rs: seq<Response>) {
    forall j :: 0 <= j < |rs| ==> Accepted(rs[j]).None?
  }

  // ---------------------------------------------------------------------
  // The extraction policy

  /** A 2xx response from an URL containing `/oauth/token` whose body has
      a non-empty string `access_token` yields that string verbatim: no
      trimming, whatever it contains. */
  lemma TokenTakenVerbatim(a: string, b: string, status: nat, fields: map<string, Value>, t: string)
    requires Ok(status) && t != ""
    requires "access_token" in fields && fields["access_token"] == JString(t)
    ensures Accepted(Response(a + TOKEN_ENDPOINT + b, status, Some(JObject(fields)))) == Some(JString(t))
  {
    IncludesInfix(a, TOKEN_ENDPOINT, b);
  }

  /** Every response the policy does not accept: an URL without the
      endpoint, a non-2xx status, a body that did not parse (or is not an
      object), a missing `access_token`, or a falsy one such as `""`. */
  lemma NonCandidatesSkipped(r: Response)
    requires
      || !Includes(r.url, TOKEN_ENDPOINT)
      || !Ok(r.status)
      || r.body.None?
      || !r.body.value.JObject?
      || "access_token" !in r.body.value.fields
      || !Truthy(r.body.value.fields["access_token"])
    ensures Accepted(r).None?
  {
  }

  /** The log shows at most the first 20 characters of a token, then an
      ellipsis. */
  lemma PreviewShowsAtMost20(t: string)
    ensures var p := Preview(t);
      && 1 <= |p| <= 21 && p[|p| - 1] == '\U{2026}'
      && p[..|p| - 1] == t[..if |t| <= 20 then |t| else 20]
  {
  }

  // ---------------------------------------------------------------------
  // The latch

  lemma StepKeepsValid(sink: Sink, s: ListenerState, r: Response)
    requires Valid(sink, s)
    ensures Valid(sink, Step(sink, s, r))
  {
  }

  lemma {:induction false} ObserveKeepsValid(sink: Sink, s: ListenerState, rs: seq<Response>)
    requires Valid(sink, s)
    ensures Valid(sink, Observe(sink, s, rs))
    decreases |rs|
  {
    if rs != [] {
      StepKeepsValid(sink, s, rs[0]);
      ObserveKeepsValid(sink, Step(sink, s, rs[0]), rs[1..]);
    }
  }

  /** Once `tokenFound` is set, no later response changes anything: no
      second resolve, no second webhook request. */
  lemma {:induction false} ObserveLatched(sink: Sink, s: ListenerState, rs: seq<Response>)
    requires TruthyOpt(s.tokenFound)
    ensures Observe(sink, s, rs) == s
    decreases |rs|
  {
    if rs != [] {
      ObserveLatched(sink, s, rs[1..]);
    }
  }

  /** The same response handled twice has the effect of handling it once. */
  lemma DuplicateIgnored(sink: Sink, s: ListenerState, r: Response)
    ensures Step(sink, Step(sink, s, r), r) == Step(sink, s, r)
  {
  }

  lemma {:induction false} ObserveConcat(sink: Sink, s: ListenerState, a: seq<Response>, b: seq<Response>)
    ensures Observe(sink, s, a + b) == Observe(sink, Observe(sink, s, a), b)
    decreases |a|
  {
    if a == [] {
      assert a + b == b;
    } else {
      assert (a + b)[0] == a[0] && (a + b)[1..] == a[1..] + b;
      ObserveConcat(sink, Step(sink, s, a[0]), a[1..], b);
    }
  }

  /** Responses the policy rejects leave the state as it was. */
  lemma {:induction false} NoMatchUnchanged(sink: Sink, s: ListenerState, rs: seq<Response>)
    requires NoneAccepted(rs)
    ensures Observe(sink, s, rs) == s
    decreases |rs|
  {
    if rs != [] {
      NoMatchUnchanged(sink, s, rs[1..]);
    }
  }

  /** First match wins: from an unlatched state, the state after all the
      responses is the one that latching the first accepted value gives. */
  lemma {:induction false} FirstMatchWins(sink: Sink, s: ListenerState, rs: seq<Response>, k: nat)
    requires !TruthyOpt(s.tokenFound)
    requires FirstAcceptedAt(rs, k)
    ensures Observe(sink, s, rs) == Latch(sink, s, Accepted(rs[k]).value)
    decreases |rs|
  {
    if k == 0 {
      ObserveLatched(sink, Step(sink, s, rs[0]), rs[1..]);
    } else {
      assert forall j :: 0 <= j < k - 1 ==> rs[1..][j] == rs[j + 1];
      FirstMatchWins(sink, s, rs[1..], k - 1);
    }
  }

  lemma {:induction false} FirstAcceptedExists(rs: seq<Response>)
    requires !NoneAccepted(rs)
    ensures exists k :: FirstAcceptedAt(rs, k)
    decreases |rs|
  {
    if Accepted(rs[0]).Some? {
      assert FirstAcceptedAt(rs, 0);
    } else {
      assert !NoneAccepted(rs[1..]) by {
        var j :| 0 <= j < |rs| && Accepted(rs[j]).Some?;
        assert rs[1..][j - 1] == rs[j];
      }
      FirstAcceptedExists(rs[1..]);
      var k :| FirstAcceptedAt(rs[1..], k);
      assert rs[k + 1] == rs[1..][k];
      forall j | 0 <= j < k + 1
        ensures Accepted(rs[j]).None?
      {
        if j > 0 { assert rs[j] == rs[1..][j - 1]; }
      }
      assert FirstAcceptedAt(rs, k + 1);
    }
  }

  /** From the initial state, the first accepted string is the token: it is
      what the promise resolves with and the one webhook request carries. */
  lemma FirstStringTokenSent(sink: Sink, rs: seq<Response>, k: nat, t: string)
    requires FirstAcceptedAt(rs, k) && Accepted(rs[k]) == Some(JString(t))
    ensures var s := Observe(sink, Init, rs);
      && s.tokenFound == Some(JString(t))
      && s.resolved == Some(t)
      && s.preview == Some(Truncate(t, 20) + "\U{2026}")
      && s.webhookCalls == [WebhookRequest(sink.url, t, sink.secret)]
      && s.deliveryError == DeliveryError(SendTokenToWebhook(sink.reply))
  {
    FirstMatchWins(sink, Init, rs, k);
  }

  /** A truthy `access_token` that is not a string (a number, an object)
      still sets `tokenFound`, but `substring` throws before the promise is
      resolved: nothing is sent, and every later response is ignored. */
  lemma NonStringTokenBlocksCapture(sink: Sink, rs: seq<Response>, k: nat)
    requires FirstAcceptedAt(rs, k) && !Accepted(rs[k]).value.JString?
    ensures var s := Observe(sink, Init, rs);
      && s.tokenFound == Accepted(rs[k])
      && s.resolved.None? && s.webhookCalls == []
  {
    FirstMatchWins(sink, Init, rs, k);
  }

  /** The delivery's result is only logged: two runs whose webhook answers
      differently agree on everything else. */
  lemma {:induction false} ObserveIgnoresReply(url: string, secret: string, r1: FetchResult, r2: FetchResult,
                                               s1: ListenerState, s2: ListenerState, rs: seq<Response>)
    requires s1.(deliveryError := None) == s2.(deliveryError := None)
    ensures Observe(Sink(url, secret, r1), s1, rs).(deliveryError := None)
         == Observe(Sink(url, secret, r2), s2, rs).(deliveryError := None)
    decreases |rs|
  {
    if rs != [] {
      ObserveIgnoresReply(url, secret, r1, r2,
        Step(Sink(url, secret, r1), s1, rs[0]), Step(Sink(url, secret, r2), s2, rs[0]), rs[1..]);
    }
  }

  // ---------------------------------------------------------------------
  // The outcome of run()

  /** The fatal line names the first required variable, in call order,
      that is unset or empty. */
  lemma AssertEnvNamesFirstMissing(env: Env, i: int)
    requires 0 <= i < |REQUIRED| && !IsSet(env, REQUIRED[i])
    requires forall j :: 0 <= j < i ==> IsSet(env, REQUIRED[j])
    ensures AssertEnv(env) == Some("[FATAL] Umgebungsvariable " + REQUIRED[i] + " fehlt")
  {
    var r := FirstMissing(env, REQUIRED);
    assert r.Some?;
    assert !(r.value < i) && !(i < r.value);
  }

  /** Any required variable unset or empty (TOKEN_UPDATE_SECRET included:
      it has no default) stops the run with exit 1 before a browser is
      launched. */
  lemma MissingEnvIsFatal(env: Env, login: Login, dl: seq<Response>, dw: seq<Response>, reply: FetchResult, i: nat)
    requires i < |REQUIRED| && !IsSet(env, REQUIRED[i])
    ensures Run(env, login, dl, dw, reply) == ConfigFailure
  {
  }

  /** A login that throws reaches `run().catch`: exit 1, `browser.close`
      never called. */
  lemma LoginFailureSkipsClose(env: Env, dl: seq<Response>, dw: seq<Response>, reply: FetchResult)
    requires AssertEnv(env).None?
    ensures var o := Run(env, LoginThrows, dl, dw, reply);
      o.launched && o.exit == ExitCode(1) && o.browserCloses == 0
  {
  }

  /** The token wins the race: exit 0 after one `browser.close`, one
      webhook request with the token and the configured secret, whatever
      the webhook answers. */
  lemma TokenWinsRace(env: Env, dl: seq<Response>, dw: seq<Response>, reply: FetchResult, k: nat, t: string)
    requires AssertEnv(env).None?
    requires FirstAcceptedAt(dl + dw, k) && Accepted((dl + dw)[k]) == Some(JString(t))
    ensures "WEBHOOK_URL" in env && "TOKEN_UPDATE_SECRET" in env
    ensures Run(env, LoginOk, dl, dw, reply)
         == Outcome(true, ExitCode(0), 1, [WebhookRequest(env["WEBHOOK_URL"], t, env["TOKEN_UPDATE_SECRET"])],
                    DeliveryError(SendTokenToWebhook(reply)))
  {
    assert IsSet(env, REQUIRED[2]) && IsSet(env, REQUIRED[3]);
    var sink := Sink(env["WEBHOOK_URL"], env["TOKEN_UPDATE_SECRET"], reply);
    ObserveConcat(sink, Init, dl, dw);
    FirstStringTokenSent(sink, dl + dw, k, t);
  }

  /** No accepted response before the deadline: the timeout wins, exit 1
      after one `browser.close`, and the webhook is never called. */
  lemma DeadlineWinsRace(env: Env, dl: seq<Response>, dw: seq<Response>, reply: FetchResult)
    requires AssertEnv(env).None?
    requires NoneAccepted(dl + dw)
    ensures Run(env, LoginOk, dl, dw, reply) == Outcome(true, ExitCode(1), 1, [], None)
  {
    assert IsSet(env, REQUIRED[2]) && IsSet(env, REQUIRED[3]);
    var sink := Sink(env["WEBHOOK_URL"], env["TOKEN_UPDATE_SECRET"], reply);
    ObserveConcat(sink, Init, dl, dw);
    NoMatchUnchanged(sink, Init, dl + dw);
  }

  /** With the environment complete and the login through, the run exits 0
      exactly when the first accepted response before the deadline carries
      a string, and 1 otherwise. */
  lemma ExitCodeTable(env: Env, dl: seq<Response>, dw: seq<Response>, reply: FetchResult)
    requires AssertEnv(env).None?
    ensures var o := Run(env, LoginOk, dl, dw, reply);
      && (o.exit == ExitCode(0) || o.exit == ExitCode(1))
      && (o.exit == ExitCode(0) <==> exists k :: FirstAcceptedAt(dl + dw, k) && Accepted((dl + dw)[k]).value.JString?)
  {
    var rs := dl + dw;
    assert IsSet(env, REQUIRED[2]) && IsSet(env, REQUIRED[3]);
    var sink := Sink(env["WEBHOOK_URL"], env["TOKEN_UPDATE_SECRET"], reply);
    ObserveConcat(sink, Init, dl, dw);
    if NoneAccepted(rs) {
      NoMatchUnchanged(sink, Init, rs);
    } else {
      FirstAcceptedExists(rs);
      var k :| FirstAcceptedAt(rs, k);
      FirstMatchWins(sink, Init, rs, k);
    }
  }

  /** A failed delivery is only logged: the exit code, the `browser.close`
      count and the requests issued do not depend on the webhook's answer. */
  lemma DeliveryNeverChangesExit(env: Env, login: Login, dl: seq<Response>, dw: seq<Response>, r1: FetchResult, r2: FetchResult)
    ensures var o1, o2 := Run(env, login, dl, dw, r1), Run(env, login, dl, dw, r2);
      o1.(deliveryError := None) == o2.(deliveryError := None)
  {
    if AssertEnv(env).None? {
      assert IsSet(env, REQUIRED[2]) && IsSet(env, REQUIRED[3]);
      var url, secret := env["WEBHOOK_URL"], env["TOKEN_UPDATE_SECRET"];
      ObserveIgnoresReply(url, secret, r1, r2, Init, Init, dl);
      var a1, a2 := Observe(Sink(url, secret, r1), Init, dl), Observe(Sink(url, secret, r2), Init, dl);
      ObserveIgnoresReply(url, secret, r1, r2, a1, a2, dw);
    }
  }

  /** On every path: the browser is closed at most once, and exactly once
      when the login went through; at most one webhook request is issued,
      and none when the environment check stopped the run. */
  lemma AtMostOnce(env: Env, login: Login, dl: seq<Response>, dw: seq<Response>, reply: FetchResult)
    ensures var o := Run(env, login, dl, dw, reply);
      && o.browserCloses <= 1
      && (o.browserCloses == 1 <==> o.launched && login.LoginOk?)
      && |o.webhookCalls| <= 1
      && (!o.launched ==> o.webhookCalls == [] && o.exit == ExitCode(1))
  {
    if AssertEnv(env).None? {
      assert IsSet(env, REQUIRED[2]) && IsSet(env, REQUIRED[3]);
      var sink := Sink(env["WEBHOOK_URL"], env["TOKEN_UPDATE_SECRET"], reply);
      ObserveKeepsValid(sink, Init, dl);
      ObserveKeepsValid(sink, Observe(sink, Init, dl), dw);
    }
  }
}
