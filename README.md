# xzone token capture — a Dafny model

The repository holds two variants of one script. Each logs into exportarts.zone
(an Auth0 login form) with a headless Chromium, waits for the bearer token in the
browser's traffic, and POSTs it with a shared secret to an Apps Script webhook.

- `scripts/update-xzone-token.js` is the **body variant**. It watches *responses*
  whose URL contains `/oauth/token` and takes `access_token` from a 2xx JSON body.
  It resolves a one-shot `tokenPromise`, fires the webhook in the background, and
  ends `run()` with a race between that promise and a 30 s timeout.
- `update-xzone-token.js` is the **header variant**. It watches *requests* to the
  boards API and takes the token from their `Authorization: Bearer …` header. It
  awaits the webhook from inside the handler and exits there. After a fixed 30 s
  wait it checks whether any token was found.

The model keeps the decision core of both scripts:

- the environment checks and the secret default;
- the extraction policy of each handler;
- the `tokenFound` latch;
- how the webhook result is classified;
- the outcome of `run()`: exit code, `browser.close` count and webhook requests.

Browser automation and HTTP are abstract inputs.

Layout:

- `wrappers.dfy` (`Wrappers`): `Option`, standing for `null` / `undefined`.
- `js_strings.dfy` (`JsStrings`): `trim`, `startsWith`, `includes`,
  `substring(0, n)` and the decimal rendering of a status.
- `json_value.dfy` (`JsonValue`): parsed JSON, JavaScript truthiness and `v?.key`.
- `environment.dfy` (`Environment`): `!process.env[name]` and the `HEADLESS`
  switch. Both scripts have the same `HEADLESS` code.
- `webhook.dfy` (`Webhook`): the POST request, the abstract `fetch` result and its
  classification.
- `run_outcome.dfy` (`RunOutcome`): what a run ends with.
- `response_capture.dfy` and `response_capture_properties.dfy`: the body variant.
- `request_capture.dfy` and `request_capture_properties.dfy`: the header variant.
- `variants.dfy` (`Variants`): the two variants side by side, and concrete runs.

Each handler is modelled in three pieces:

- a pure `Step` function for one event;
- `Observe`, which folds `Step` over events in arrival order;
- a listener class whose method follows the handler line by line.

The class method is proved to compute `Step` and to keep the latch invariant
`Valid`. `Run` is the whole script as a function of five inputs:

- the environment;
- whether the login sequence throws;
- the events that arrive during the login;
- the events that arrive after the login and before the deadline;
- what the webhook answers.

Assumption: each handler call runs to completion before the next one starts.
In the body variant this skips the `await response.json()` between the latch check
(:97) and the latch set (:102). In the header variant it includes the awaited
webhook call (:97) and `browser.close()` (:100). The header variant also takes
such a call to finish before `run()`'s own pending login step or wait can fail
(see "## Left out").

Where the scripts behave in ways an operator would not expect, the model
follows the scripts:

- A failed delivery does not make either script exit non-zero. The body variant
  still exits 0. The header variant leaves the browser open and returns from
  `run()` without calling `process.exit`.
- A login failure never reaches `browser.close` in either variant.
- The header variant defaults the secret to `abc123`.
- The header variant has no race: in the model, a token delivered during the login
  exits 0 at once.
- In the body variant, a truthy `access_token` that is not a string still sets
  `tokenFound`. The `substring` call then throws before the promise is resolved, so
  the run times out and ignores every later token.

## Model

| member | source | states |
|---|---|---|
| JsStrings.Trim | update-xzone-token.js:89 | `trim` keeps a stretch of its input that has only ECMAScript whitespace or line terminators around it, and neither end of the result is such a character |
| JsStrings.TrimUnique | update-xzone-token.js:89 | any string without trimmable ends, found padded by trimmable characters inside `s`, is `Trim(s)`; with Trim's contract this fixes `trim` completely |
| JsStrings.TrimIdempotent | update-xzone-token.js:89 | trimming twice is trimming once |
| JsStrings.Includes | scripts/update-xzone-token.js:95 | `includes` holds exactly when the substring occurs at some index |
| JsStrings.Truncate | scripts/update-xzone-token.js:106 | `substring(0, n)` is the first `n` characters, or the whole of a shorter string |
| JsStrings.NumberBeforeSpace | scripts/update-xzone-token.js:54 | a status rendered in a template literal and followed by a space is read back exactly from the leading digits |
| JsonValue.Member | scripts/update-xzone-token.js:100 | `json?.access_token` yields a value only for an object that has the key, and then yields that key's value |
| Environment.FirstMissing | scripts/update-xzone-token.js:23-33 | the `assertEnv` calls stop at the first variable that is unset or empty; None exactly when all the names are set |
| Environment.HeadlessUnlessExactlyFalse | scripts/update-xzone-token.js:81-83 | the browser is headless unless HEADLESS is exactly `false`; unset, `False` and `0` all keep it headless |
| Webhook.PayloadRoundTrip | scripts/update-xzone-token.js:42-49 | the POSTed JSON object has exactly the fields `token` and `secret`, and the sink reads the sent token and secret back from them |
| Webhook.Classify | scripts/update-xzone-token.js:51-56 | exactly a 2xx status is a delivery. A network error propagates with its message. Any other status gives an error built from the status, status text and body text, where an unreadable body counts as `''` |
| Webhook.RejectionCarriesStatus | update-xzone-token.js:48-53 | a rejection message starts with its lead and carries the status, which can be read back from it; an unreadable body leaves the message ending in the separator |
| JsStrings.NatToString | scripts/update-xzone-token.js:54 | `${res.status}` (also update-xzone-token.js:51): a non-empty string of decimal digits; pinned down by JsStrings.NatToStringRoundTrip and Variants.StatusRendering |
| Webhook.Ok | scripts/update-xzone-token.js:51 | `res.ok` (also update-xzone-token.js:48) and `response.ok()` (scripts/update-xzone-token.js:96): a status in 200-299; used by Webhook.Classify and ResponseCapture.Accepted |
| Webhook.BodyText | scripts/update-xzone-token.js:52 | `await res.text().catch(() => '')` (also update-xzone-token.js:49): the body text, or `''` when it cannot be read; specified through Webhook.Classify and Webhook.RejectionCarriesStatus |
| Environment.IsSet | scripts/update-xzone-token.js:24 | `!process.env[name]` is false (also update-xzone-token.js:19): the variable is present and non-empty; specified through Environment.FirstMissing |
| ResponseCapture.ConfiguredSink | scripts/update-xzone-token.js:18-19 | the webhook URL and secret actually sent are WEBHOOK_URL and TOKEN_UPDATE_SECRET; specified through ResponseCaptureProperties.TokenWinsRace and FirstStringTokenSent |
| RequestCapture.ConfiguredSink | update-xzone-token.js:29-30 | the webhook URL and secret actually sent are XZONE_WEBHOOK_URL and the defaulted secret; specified through RequestCapture.WebhookSecret, RequestCaptureProperties.SecretDefault and DeliveryFailureReturnsSilently |
| JsonValue.TruthyOpt | scripts/update-xzone-token.js:97-100 | `if (tokenFound)` and `!json?.access_token`: a value that is present and truthy; specified through ResponseCaptureProperties.NonCandidatesSkipped |
| RequestCapture.TruthyString | update-xzone-token.js:83-90 | `!authHeader`, `!token` and `tokenFound` on strings: present and non-empty; specified through RequestCaptureProperties.BearerAccepted, EmptyBearerRejected and NonCandidatesIgnored |
| RequestCapture.Get | update-xzone-token.js:83 | `headers[key]`: the header's value, or undefined when absent; specified through RequestCaptureProperties.BearerAccepted and NonCandidatesIgnored |
| ResponseCapture.SendTokenToWebhook | scripts/update-xzone-token.js:39-59 | the webhook call with this script's message lead and separator; specified by Webhook.Classify and Webhook.RejectionCarriesStatus |
| ResponseCapture.Preview | scripts/update-xzone-token.js:104-107 | the logged preview; specified by ResponseCaptureProperties.PreviewShowsAtMost20 |
| ResponseCapture.Latch | scripts/update-xzone-token.js:102-115 | setting `tokenFound`, then preview, resolve and webhook for a string and a caught throw otherwise; specified by ResponseCaptureProperties.FirstStringTokenSent, NonStringTokenBlocksCapture and StepKeepsValid |
| ResponseCapture.Step | scripts/update-xzone-token.js:92-120 | one handler call; specified by ResponseCaptureProperties.StepKeepsValid, DuplicateIgnored and NoMatchUnchanged, and proved equal to ResponseCapture.ResponseListener.OnResponse |
| ResponseCapture.Observe | scripts/update-xzone-token.js:92-120 | the handler over the responses in arrival order; specified by ResponseCaptureProperties.ObserveKeepsValid, ObserveLatched, ObserveConcat and FirstMatchWins |
| ResponseCapture.Capture | scripts/update-xzone-token.js:178-205 | the race and `run().catch` after the environment check; specified by ResponseCaptureProperties.TokenWinsRace, DeadlineWinsRace, LoginFailureSkipsClose and ExitCodeTable |
| ResponseCapture.Run | scripts/update-xzone-token.js:30-205 | the whole script; specified by ResponseCaptureProperties.MissingEnvIsFatal, ExitCodeTable, DeliveryNeverChangesExit and AtMostOnce |
| RequestCapture.SendTokenToWebhook | update-xzone-token.js:34-57 | the webhook call with this script's message lead and separator; specified by Webhook.Classify and Webhook.RejectionCarriesStatus |
| RequestCapture.Preview | update-xzone-token.js:95 | the logged preview; specified by RequestCaptureProperties.PreviewShowsAtMost20 |
| RequestCapture.AuthHeader | update-xzone-token.js:83 | the lower-case header unless it is missing or empty, then `Authorization`; specified by RequestCaptureProperties.BearerAccepted and NonCandidatesIgnored |
| RequestCapture.Accept | update-xzone-token.js:94-104 | setting `tokenFound`, the preview, the awaited webhook, then close and exit 0 or the caught error; specified by RequestCaptureProperties.DeliveredAccept and FailedAccept |
| RequestCapture.Step | update-xzone-token.js:73-105 | one handler call; specified by RequestCaptureProperties.StepKeepsValid, DuplicateIgnored and NoMatchUnchanged, and proved equal to RequestCapture.RequestListener.OnRequest |
| RequestCapture.Observe | update-xzone-token.js:73-105 | the handler over the requests in arrival order until one exits; specified by RequestCaptureProperties.ObserveKeepsValid, ObserveLatched, ObserveConcat and FirstMatchWins |
| RequestCapture.Capture | update-xzone-token.js:107-160 | the login, the fixed wait, the `tokenFound` check and `run().catch`; specified by RequestCaptureProperties.DeliveredExitsZero, NoTokenExitsOne, LoginFailureExitsOne and OutcomeTable |
| RequestCapture.Run | update-xzone-token.js:25-160 | the whole script; specified by RequestCaptureProperties.MissingEnvIsFatal, OutcomeTable and AtMostOnce |
| Webhook.WebhookRequest | scripts/update-xzone-token.js:42-49 | a POST to the given URL with a JSON content type; its body is specified by Webhook.PayloadRoundTrip |
| Webhook.RejectionMessage | scripts/update-xzone-token.js:53-55 | the thrown status message; specified by Webhook.RejectionCarriesStatus and Variants.StatusRendering |
| Environment.Headless | scripts/update-xzone-token.js:81-83 | the `headless` launch option; specified by Environment.HeadlessUnlessExactlyFalse |
| JsStrings.StartsWith | update-xzone-token.js:78 | `startsWith`; used by RequestCapture.BearerToken and specified through RequestCaptureProperties.OtherSchemeIgnored and SchemeExamples |
| JsonValue.Truthy | scripts/update-xzone-token.js:97-100 | JavaScript truthiness of a JSON value; used by ResponseCapture.Accepted and specified through ResponseCaptureProperties.NonCandidatesSkipped |
| ResponseCapture.AssertEnv | scripts/update-xzone-token.js:23-33 | no fatal line exactly when XZONE_EMAIL, XZONE_PASSWORD, WEBHOOK_URL and TOKEN_UPDATE_SECRET are all set and non-empty; otherwise the line is `[FATAL] Umgebungsvariable <name> fehlt` for the first missing one |
| ResponseCaptureProperties.AssertEnvNamesFirstMissing | scripts/update-xzone-token.js:23-33 | the fatal line names exactly the first required variable, in call order, that is unset or empty |
| ResponseCapture.DeliveryError | scripts/update-xzone-token.js:113-115 | the background webhook call logs an error exactly when the delivery did not succeed |
| ResponseCapture.Accepted | scripts/update-xzone-token.js:94-100 | a response offers a credential only if its URL contains `/oauth/token`, its status is 2xx and the offered value is truthy; the value offered is the body's `access_token`, whatever its type |
| ResponseCapture.ResponseListener.constructor | scripts/update-xzone-token.js:65-72 | a listener starts with no token, an unresolved promise, no preview, no request and no error |
| ResponseCapture.ResponseListener.OnResponse | scripts/update-xzone-token.js:92-120 | the handler computes `Step` on the listener's fields and keeps the latch invariant; once `tokenFound` is set a call changes nothing |
| ResponseCaptureProperties.TokenTakenVerbatim | scripts/update-xzone-token.js:99-102 | a 2xx token-endpoint response whose body has a non-empty string `access_token` yields that string verbatim, untrimmed |
| ResponseCaptureProperties.NonCandidatesSkipped | scripts/update-xzone-token.js:94-100 | these responses are ignored: a wrong URL, a non-2xx status, an unparsed or non-object body, a missing `access_token`, or a falsy one such as `""` |
| ResponseCaptureProperties.PreviewShowsAtMost20 | scripts/update-xzone-token.js:104-107 | the log preview is the token's first 20 characters (or fewer) followed by `…` |
| ResponseCaptureProperties.StepKeepsValid | scripts/update-xzone-token.js:97-115 | one handler call keeps the latch invariant: at most one webhook request, carrying the string the promise resolved with |
| ResponseCaptureProperties.ObserveKeepsValid | scripts/update-xzone-token.js:92-120 | any sequence of responses keeps the latch invariant |
| ResponseCaptureProperties.ObserveLatched | scripts/update-xzone-token.js:97 | once `tokenFound` is set, no later response changes the state: no second resolve and no second webhook call |
| ResponseCaptureProperties.DuplicateIgnored | scripts/update-xzone-token.js:97 | handling the same response twice has the effect of handling it once |
| ResponseCaptureProperties.NoMatchUnchanged | scripts/update-xzone-token.js:94-100 | responses the policy rejects leave the state unchanged |
| ResponseCaptureProperties.FirstMatchWins | scripts/update-xzone-token.js:97-110 | from an unlatched state, the final state is the one that latching the first accepted value gives |
| ResponseCaptureProperties.FirstStringTokenSent | scripts/update-xzone-token.js:102-115 | if the first accepted value is a string, it becomes `tokenFound`, resolves the promise, is previewed, and is the one token sent, with the configured secret |
| ResponseCaptureProperties.NonStringTokenBlocksCapture | scripts/update-xzone-token.js:102-110 | if the first accepted value is a truthy non-string, it latches `tokenFound`, but the promise stays unresolved and nothing is sent |
| ResponseCaptureProperties.ObserveIgnoresReply | scripts/update-xzone-token.js:113-115 | the webhook's answer changes only the logged delivery error, nothing else in the state |
| ResponseCaptureProperties.MissingEnvIsFatal | scripts/update-xzone-token.js:23-33 | any required variable unset or empty, TOKEN_UPDATE_SECRET included, gives exit 1 with no browser launched and no request sent |
| ResponseCaptureProperties.LoginFailureSkipsClose | scripts/update-xzone-token.js:202-205 | a login that throws gives exit 1 with `browser.close` never called |
| ResponseCaptureProperties.TokenWinsRace | scripts/update-xzone-token.js:185-195 | if the first accepted response before the deadline is a string, the run exits 0 after one close and sends exactly that token, whatever the webhook answers |
| ResponseCaptureProperties.DeadlineWinsRace | scripts/update-xzone-token.js:178-191 | if nothing is accepted before the deadline, the run exits 1 after one close and never calls the webhook |
| ResponseCaptureProperties.ExitCodeTable | scripts/update-xzone-token.js:178-195 | after a successful login the exit code is 0 or 1, and it is 0 exactly when the first accepted response carries a string |
| ResponseCaptureProperties.DeliveryNeverChangesExit | scripts/update-xzone-token.js:113-115 | two runs that differ only in the webhook's answer agree on the exit, the close count and the requests sent |
| ResponseCaptureProperties.AtMostOnce | scripts/update-xzone-token.js:185-205 | every run closes the browser at most once, and exactly once when the login succeeded. It sends at most one request. A run stopped by the environment check sends none and exits 1 |
| RequestCapture.AssertEnv | update-xzone-token.js:18-27 | no error line exactly when XZONE_EMAIL, XZONE_PASSWORD and XZONE_WEBHOOK_URL are all set and non-empty; otherwise the line is `[ERROR] Umgebungsvariable <name> fehlt.` for the first missing one |
| RequestCaptureProperties.AssertEnvNamesFirstMissing | update-xzone-token.js:18-27 | the error line names exactly the first required variable, in call order, that is unset or empty |
| RequestCapture.WebhookSecret | update-xzone-token.js:30 | the secret sent is never empty |
| RequestCapture.ReplyLog | update-xzone-token.js:55-56 | the log shows the JSON reply exactly when it is truthy, and `<kein JSON>` for a reply that is unparsed or falsy |
| RequestCapture.BearerToken | update-xzone-token.js:78-92 | a token is extracted only from a boards-API URL, and it is non-empty and has no whitespace at either end |
| RequestCapture.RequestListener.constructor | update-xzone-token.js:70 | a listener starts with no token, no request, no exit, no close and no error |
| RequestCapture.RequestListener.OnRequest | update-xzone-token.js:73-105 | the handler computes `Step` on the closure's variables and keeps the latch invariant; once `tokenFound` is set a call changes nothing |
| RequestCapture.RequestListener.AcceptToken | update-xzone-token.js:94-104 | the accepting part of the handler computes `Accept` on the closure's variables and keeps the latch invariant |
| RequestCaptureProperties.SecretDefault | update-xzone-token.js:30 | the secret is the configured one when it is set and non-empty, and `abc123` when it is unset or empty |
| RequestCaptureProperties.MissingEnvIsFatal | update-xzone-token.js:18-27 | any of the three required variables unset or empty gives exit 1 with no browser launched |
| RequestCaptureProperties.MissingSecretNotFatal | update-xzone-token.js:25-30 | an unset secret does not stop the run |
| RequestCaptureProperties.BearerAccepted | update-xzone-token.js:82-90 | a boards request whose `authorization` header is `Bearer ` plus a whitespace-padded token yields the token without the padding. The `Authorization` header is used the same way when the lower-case one is missing or empty |
| RequestCaptureProperties.BearerTokenSound | update-xzone-token.js:82-90 | every extracted token comes from the header that was looked up: that header starts with `Bearer ` and holds the token padded only by whitespace |
| RequestCaptureProperties.EmptyBearerRejected | update-xzone-token.js:89-90 | `Bearer ` followed only by whitespace, `Bearer ` alone included, is rejected |
| RequestCaptureProperties.OtherSchemeIgnored | update-xzone-token.js:85-87 | a non-empty header that does not start exactly with `Bearer ` is ignored |
| RequestCaptureProperties.SchemeExamples | update-xzone-token.js:85 | `bearer abc`, `Basic abc` and `Bearer` fail the case-sensitive prefix test |
| RequestCaptureProperties.NonCandidatesIgnored | update-xzone-token.js:78-87 | these requests are ignored: a URL outside the boards API, or no non-empty header under either spelling |
| RequestCaptureProperties.PreviewShowsAtMost20 | update-xzone-token.js:95 | the log preview is the token's first 20 characters (or fewer) followed by `...` |
| RequestCaptureProperties.StepKeepsValid | update-xzone-token.js:90-101 | one call of a live handler keeps the latch invariant: at most one token, sent once; the handler exits only after a delivery succeeded |
| RequestCaptureProperties.ObserveKeepsValid | update-xzone-token.js:73-105 | any sequence of requests keeps the latch invariant |
| RequestCaptureProperties.ObserveLatched | update-xzone-token.js:90-92 | once `tokenFound` is set, later requests return at the latch check: no second token and no second webhook call |
| RequestCaptureProperties.DuplicateIgnored | update-xzone-token.js:90-92 | handling the same request twice has the effect of handling it once |
| RequestCaptureProperties.NoMatchUnchanged | update-xzone-token.js:78-92 | requests the policy rejects leave the state unchanged |
| RequestCaptureProperties.FirstMatchWins | update-xzone-token.js:90-101 | from a live, unlatched state, the final state is the one that accepting the first accepted token gives |
| RequestCaptureProperties.DeliveredAccept | update-xzone-token.js:55-56 | after a successful delivery the reply is logged (the JSON when truthy, `<kein JSON>` otherwise), the browser is closed once and the handler exits 0 |
| RequestCaptureProperties.FailedAccept | update-xzone-token.js:97-104 | after a failed delivery the token stays latched and the process stays alive. The browser is not closed and the error is logged |
| RequestCaptureProperties.DeliveredExitsZero | update-xzone-token.js:97-101 | if the first accepted token is delivered, the run exits 0 after one close with exactly that request, even when the token arrives during a login that later throws |
| RequestCaptureProperties.DeliveryFailureReturnsSilently | update-xzone-token.js:143-153 | if the first accepted token is not delivered, `run()` returns without an exit code and without a close, with one request sent and the error logged |
| RequestCaptureProperties.NoTokenExitsOne | update-xzone-token.js:143-152 | if no request is accepted by the end of the wait, the browser is closed and the run exits 1 with no webhook call |
| RequestCaptureProperties.LoginFailureExitsOne | update-xzone-token.js:157-160 | a login that throws with no token accepted before it gives exit 1 and no close |
| RequestCaptureProperties.OutcomeTable | update-xzone-token.js:97-152 | after a successful login, there are three outcomes. Exit 0 exactly when a token is accepted and delivered. Exit 1 exactly when none is accepted. No explicit exit otherwise |
| RequestCaptureProperties.AtMostOnce | update-xzone-token.js:90-152 | every run closes the browser at most once and sends at most one request. Exit 0 comes with one close and one request. A run stopped by the environment check sends none |
| Variants.DeliveredAgree | update-xzone-token.js:97-101 | a captured and delivered token gives exit 0, one close and one request in both variants |
| Variants.DeliveryFailureDiverges | scripts/update-xzone-token.js:113-115 | a captured but rejected token behaves differently in the two variants. The body variant exits 0 after a close; the header variant neither closes nor exits. Both log the status error |
| Variants.TimeoutAgree | scripts/update-xzone-token.js:178-191 | with nothing accepted before the deadline, both variants give the same outcome: exit 1, one close, no request |
| Variants.BoardRequestCarriesToken | update-xzone-token.js:89 | the header `Bearer abc123` yields the token `abc123` |
| Variants.HeaderScenarioDelivered | update-xzone-token.js:94-101 | a board request with `Bearer abc123` sends `{token: "abc123", secret}` and exits 0 |
| Variants.HeaderScenarioRejected | update-xzone-token.js:48-53 | the same run with a 500 answer and an unreadable body logs the status error with an empty body, and ends with no exit and no close |
| Variants.BodyScenarioRejected | scripts/update-xzone-token.js:51-56 | a token response with a 500 answer from the webhook still exits 0, and the logged error names the status |
| Variants.StatusRendering | scripts/update-xzone-token.js:54 | 500, 404 and 0 render as `500`, `404` and `0` |
| Variants.ScenarioNoTraffic | update-xzone-token.js:143-152 | with no traffic, both variants exit 1 after one close |
| Variants.ScenarioMissingPassword | update-xzone-token.js:18-27 | with the password missing, both variants exit 1 with no browser |

## Left out

- Playwright: launching Chromium, contexts, navigation, `waitForLoadState`,
  selectors, `fill` and `click`. The whole login sequence, the optional board
  navigation included, is one abstract input that completes or throws.
- `fetch` and HTTP transport. The webhook's answer is an abstract `FetchResult`:
  a status, status text, body text and body JSON, or a network error.
- Real time. The 30 s timer and `waitForTimeout` are a cut point in the event
  sequence, and no events are delivered after the deadline. In the body variant a
  response handled during the final `await browser.close()` after the timeout is
  not modelled.
- Concurrent handlers. Each handler call is atomic. So the model does not capture
  two body-variant responses that both pass the latch check at :97 before either
  sets it at :102. It also does not capture a header-variant delivery that is still
  pending when the wait ends.
- Header-variant handlers racing `run()`. The handler awaits the webhook (:97) and
  `browser.close()` (:100) while `run()` is still awaiting a login step (:110-139)
  or the wait (:143). If that pending step throws first, for instance because the
  handler's close makes a page call reject, `run().catch` exits 1 (:157-160) before
  the handler's `process.exit(0)` (:101). The model takes a header-variant handler
  call to finish before `run()`'s own pending step can fail.
- The body variant does not await its webhook call, so `process.exit` may end the
  process before the call completes. The model takes the call, and its logged
  error, as completed when it is issued.
- `JSON.parse` and `JSON.stringify`. The body is an already-parsed value, and the
  payload is modelled as a JSON object. The serialised text and its key order are
  not modelled. JSON numbers are reals: NaN and -0 do not exist in the model.
- JavaScript strings are UTF-16. Here a character is a Unicode scalar value, so
  `substring(0, 20)` and lengths differ from the script for text outside the Basic
  Multilingual Plane.
- `console` output other than the token preview, the `assertEnv` line, the
  delivery error and, in the header variant, the webhook reply line. The reply
  line is held in the handler's state but not in `Outcome`. Stack traces and `[INFO]` lines are
  left out, and so is the text of the error a throwing login prints.
- `process.exit` is returned as an `Exit` value. Whether Node terminates after
  `run()` returns with the browser still open (header variant) is not modelled.
- `chromium.launch` failing. It is covered only as "the login sequence throws", so
  such a run still has `launched` true although no browser exists.
- `browser.close()` throwing, at scripts/update-xzone-token.js:189 and :194 and at
  update-xzone-token.js:100 and :150. The model has no run in which a close throws.
  In the body variant, a throw at :194 after a captured token reaches `run().catch`
  and exits 1 (:202-205), where ResponseCaptureProperties.ExitCodeTable gives exit 0.
  In the header variant, a throw at :100 is caught at :102-103: `tokenFound` stays
  set and the run returns with no explicit exit, where the model gives exit 0.
- `tokenReject` is created but never called, so no rejection path exists. Neither
  script retries.
- Header names. Playwright lower-cases them; the model accepts any map, so the
  `Authorization` fallback is reachable.
- ResponseCapture.Accepted: its contract states what an accepted response must
  satisfy and that the offered value is the body's `access_token`. The converse is
  stated only for string tokens, by TokenTakenVerbatim; the rejected cases are in
  NonCandidatesSkipped.
