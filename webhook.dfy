/**
 * The parts of `sendTokenToWebhook` the two scripts share: the POST
 * request with the `{token, secret}` payload, the abstract result of
 * `fetch`, and how a result is classified.
 */
module Webhook {
  import opened Wrappers
  import opened JsStrings
  import opened JsonValue

  /** What `fetch(url, {method, headers, body})` is asked to send; the body
      is the value `JSON.stringify` serialises. */
  datatype HttpRequest = HttpRequest(url: string, verb: string, contentType: string, body: Value)

  function WebhookRequest(url: string, token: string, secret: string): (q: HttpRequest)
    ensures q.url == url && q.verb == "POST" && q.contentType == "application/json"
  {
    HttpRequest(url, "POST", "application/json",
      JObject(map["token" := JString(token), "secret" := JString(secret)]))
  }

  /** How the sink reads a payload: an object with exactly the string
      fields `token` and `secret`. */
  function ReadPayload(body: Value): Option<(string, string)> {
    if body.JObject? && body.fields.Keys == {"token", "secret"}
       && body.fields["token"].JString? && body.fields["secret"].JString?
    then Some((body.fields["token"].s, body.fields["secret"].s))
    else None
  }

  /** The sink reads back exactly the token and the secret that were sent. */
  lemma PayloadRoundTrip(url: string, token: string, secret: string)
    ensures ReadPayload(WebhookRequest(url, token, secret).body) == Some((token, secret))
  {
    var f := WebhookRequest(url, token, secret).body.fields;
    assert "token" in f && "secret" in f;
  }

  /** The result of the `fetch` call: a response (status, status text, the
      body as text or None when reading it fails, the body as JSON or None
      when it does not parse), or a rejection of `fetch` itself. */
  datatype FetchResult =
    | Responded(status: nat, statusText: string, text: Option<string>, json: Option<Value>)
    | NetworkError(message: string)

  /** `res.ok`: a 2xx status. */
  predicate Ok(status: nat) {
    200 <= status <= 299
  }

  /** `await res.text().catch(() => '')`. */
  function BodyText(text: Option<string>): string {
    if text.Some? then text.value else ""
  }

  /** How `sendTokenToWebhook` ends: it returns (with the JSON reply, when
      there is one), it throws the status error it builds itself, or the
      error of `fetch` propagates. */
  datatype Delivery =
    | Delivered(reply: Option<Value>)
    | Rejected(status: nat, message: string)
    | NetworkFailed(message: string)

  /** The thrown message for a non-2xx response: `lead`, the status, a
      space, the status text, `sep` and the body text. */
  function RejectionMessage(lead: string, status: nat, statusText: string, sep: string, text: string): string {
    lead + NatToString(status) + " " + statusText + sep + text
  }

  function Classify(f: FetchResult, lead: string, sep: string): (d: Delivery)
    ensures d.Delivered? <==> f.Responded? && Ok(f.status)
    ensures d.NetworkFailed? <==> f.NetworkError?
    ensures d.Delivered? ==> d.reply == f.json
    ensures d.NetworkFailed? ==> d.message == f.message
    ensures d.Rejected? ==> d.status == f.status && !Ok(d.status)
    ensures d.Rejected? ==> d.message == RejectionMessage(lead, f.status, f.statusText, sep, BodyText(f.text))
  {
    match f
    case NetworkError(m) => NetworkFailed(m)
    case Responded(status, statusText, text, json) =>
      if Ok(status) then Delivered(json)
      else Rejected(status, RejectionMessage(lead, status, statusText, sep, BodyText(text)))
  }

  /** A rejection message carries the status: the digits after its lead are
      the status, so it can be read back from the log line. A body that
      could not be read leaves the message ending in `sep`. */
  lemma RejectionCarriesStatus(f: FetchResult, lead: string, sep: string)
    requires Classify(f, lead, sep).Rejected?
    ensures var m := Classify(f, lead, sep).message;
      && StartsWith(m, lead)
      && DigitsValue(LeadingDigits(m[|lead|..])) == f.status
      && (f.text.None? ==> m == lead + NatToString(f.status) + " " + f.statusText + sep)
  {
    var m := Classify(f, lead, sep).message;
    var rest := f.statusText + sep + BodyText(f.text);
    assert m == lead + (NatToString(f.status) + " " + rest);
    assert m[|lead|..] == NatToString(f.status) + " " + rest;
    NumberBeforeSpace(f.status, rest);
  }
}
