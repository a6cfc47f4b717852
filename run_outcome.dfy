/**
 * What a capture run ends with, as both scripts observe it from outside:
 * whether a browser was launched, how the process exits, how often
 * `browser.close` was called and which webhook requests were issued.
 */
module RunOutcome {
  import opened Wrappers
  import opened Webhook

  /** The straight-line login sequence of `run()` (launch, navigation,
      selectors, submit, optional board): it completes or it throws. */
  datatype Login = LoginOk | LoginThrows

  /** `process.exit(code)`, or `run()` returning without calling it. */
  datatype Exit = ExitCode(code: int) | NoExplicitExit

  /** The webhook as the run sees it: the URL and secret the script was
      configured with, and what `fetch` would yield for the call. */
  datatype Sink = Sink(url: string, secret: string, reply: FetchResult)

  datatype Outcome = Outcome(
    launched: bool,
    exit: Exit,
    browserCloses: nat,
    webhookCalls: seq<HttpRequest>,
    deliveryError: Option<string>)

  /** The outcome of a run stopped by `assertEnv`: exit 1, no browser. */
  const ConfigFailure := Outcome(false, ExitCode(1), 0, [], None)
}
