/**
 * Waiting for a prediction: one poll classifies the fetched snapshot as
 * finished, not finished (retryable) or failed, and a bounded fixed-backoff
 * loop repeats the poll while it is not finished. The service is an oracle:
 * `polls[i]` is what the (i+1)-th `getPrediction` returned.
 */
module Polling {
  import opened Wrappers
  import opened Predictions
  import opened Requests

  const DEFAULT_MAX_ATTEMPTS := 60
  const DEFAULT_BACKOFF_MILLIS := 5000

  const INVALID_POLL := "Polling for Prediction did not return a valid response."
  const INVALID_CREATE := "PredictionRequest did not return a valid response."
  const NOT_FINISHED := "Prediction not finished yet."
  const FAILED_PREFIX := "Prediction failed: "
  const UNKNOWN_ERROR := "Unknown error"
  const CANCELED := "Prediction was canceled"
  const UNKNOWN_STATUS := "Unknown Replicate Prediction Status"

  /** The retry template's settings: at most `maxAttempts` polls, `backoffMillis` apart. */
  datatype RetryPolicy = RetryPolicy(maxAttempts: int, backoffMillis: int)

  /** The three classes a lifecycle state falls into. */
  datatype StatusClass = TerminalSuccess | TerminalFailure | NonTerminal

  /** The lifecycle classification: only `succeeded` is a success, only starting and processing go on. */
  function Classify(s: PredictionStatus): (c: StatusClass)
    ensures c == TerminalSuccess <==> s == Succeeded
    ensures c == NonTerminal <==> s == Starting || s == Processing
    ensures c == TerminalFailure <==> s in {Failed, Canceled, Aborted}
  {
    match s
    case Succeeded => TerminalSuccess
    case Starting | Processing => NonTerminal
    case Failed | Canceled | Aborted => TerminalFailure
  }

  /** The one outcome the retry template retries. */
  predicate Retryable<T>(r: Result<T, Failure>) {
    r.Err? && r.error.NotFinished?
  }

  /**
   * One poll (`pollStatusFromReplicate`) on the snapshot the service returned:
   * a succeeded snapshot is returned as it is, a running one asks for a retry,
   * anything else fails with a message that tells failure from cancellation.
   */
  function PollStatus(response: Option<PredictionResponse>): (r: Result<PredictionResponse, Failure>)
    ensures r.Ok? ==> response == Some(r.value)
    ensures !HasId(response) ==> r == Err(PredictionError(INVALID_POLL))
    ensures HasId(response) && response.value.status.None? ==> r == Err(PredictionError(UNKNOWN_STATUS))
    ensures HasId(response) && response.value.status.Some? ==>
              (r.Ok? <==> Classify(response.value.status.value) == TerminalSuccess)
              && (Retryable(r) <==> Classify(response.value.status.value) == NonTerminal)
    ensures Retryable(r) ==> r.error.message == NOT_FINISHED
    ensures HasId(response) && response.value.status == Some(Failed) ==>
              r == Err(PredictionError(FAILED_PREFIX + response.value.error.GetOr(UNKNOWN_ERROR)))
    ensures HasId(response) && response.value.status in {Some(Canceled), Some(Aborted)} ==>
              r == Err(PredictionError(CANCELED))
    ensures r.Err? ==> !r.error.IllegalArgument?
  {
    if !HasId(response) then Err(PredictionError(INVALID_POLL))
    else
      var p := response.value;
      if p.status == Some(Succeeded) then Ok(p)
      else if p.status == Some(Processing) || p.status == Some(Starting) then Err(NotFinished(NOT_FINISHED))
      else if p.status == Some(Failed) then Err(PredictionError(FAILED_PREFIX + p.error.GetOr(UNKNOWN_ERROR)))
      else if p.status == Some(Canceled) || p.status == Some(Aborted) then Err(PredictionError(CANCELED))
      else Err(PredictionError(UNKNOWN_STATUS))
  }

  /** A canceled or aborted prediction never reports the message of a failed one. */
  lemma CancellationIsDistinguishable(canceled: PredictionResponse, failed: PredictionResponse)
    requires canceled.id.Some? && canceled.status in {Some(Canceled), Some(Aborted)}
    requires failed.id.Some? && failed.status == Some(Failed)
    ensures PollStatus(Some(canceled)).error.message != PollStatus(Some(failed)).error.message
  {
    var m := PollStatus(Some(failed)).error.message;
    assert m[11] == 'f';
    assert CANCELED[11] == 'w';
  }

  /** The result of a run of polls and how many polls it took. */
  datatype PollRun = PollRun(outcome: Result<PredictionResponse, Failure>, attempts: nat)

  /**
   * The retry template from attempt `k` (0-based) on: poll, and poll again while
   * the poll asks for a retry and attempts remain. It stops at the first poll
   * that does not ask for a retry, or after `maxAttempts` polls with the last
   * poll's not-finished failure.
   */
  function Run(polls: seq<Option<PredictionResponse>>, maxAttempts: int, k: nat): (r: PollRun)
    requires k < maxAttempts <= |polls|
    ensures k < r.attempts <= maxAttempts
    ensures r.outcome == PollStatus(polls[r.attempts - 1])
    ensures forall i :: k <= i < r.attempts - 1 ==> Retryable(PollStatus(polls[i]))
    ensures r.attempts < maxAttempts ==> !Retryable(r.outcome)
    decreases maxAttempts - k
  {
    var o := PollStatus(polls[k]);
    if Retryable(o) && k + 1 < maxAttempts then Run(polls, maxAttempts, k + 1) else PollRun(o, k + 1)
  }

  /** The run is determined by where the first non-retryable poll is, or by the attempt cap. */
  lemma RunStopsAt(polls: seq<Option<PredictionResponse>>, maxAttempts: int, k: nat, n: nat)
    requires k < n <= maxAttempts <= |polls|
    requires forall i :: k <= i < n - 1 ==> Retryable(PollStatus(polls[i]))
    requires n == maxAttempts || !Retryable(PollStatus(polls[n - 1]))
    ensures Run(polls, maxAttempts, k) == PollRun(PollStatus(polls[n - 1]), n)
  {
  }

  /** Poll N (at most the cap) succeeds after N-1 not-finished polls: that snapshot, after exactly N polls. */
  lemma SucceedsOnAttempt(polls: seq<Option<PredictionResponse>>, maxAttempts: int, n: nat, result: PredictionResponse)
    requires 0 < n <= maxAttempts <= |polls|
    requires forall i :: 0 <= i < n - 1 ==> Retryable(PollStatus(polls[i]))
    requires PollStatus(polls[n - 1]) == Ok(result)
    ensures Run(polls, maxAttempts, 0) == PollRun(Ok(result), n)
  {
  }

  /** A prediction that never finishes within the cap fails with not-finished after exactly the cap. */
  lemma ExhaustsAfterMaxAttempts(polls: seq<Option<PredictionResponse>>, maxAttempts: int)
    requires 0 < maxAttempts <= |polls|
    requires forall i :: 0 <= i < maxAttempts ==> Retryable(PollStatus(polls[i]))
    ensures Run(polls, maxAttempts, 0) == PollRun(Err(NotFinished(NOT_FINISHED)), maxAttempts)
  {
  }

  /** `waitForCompletion` as a value: refused without polling for an id without text, else the run. */
  function WaitOutcome(id: Option<string>, policy: RetryPolicy, polls: seq<Option<PredictionResponse>>): (r: PollRun)
    requires 0 < policy.maxAttempts <= |polls|
    ensures !HasText(id) <==> r.attempts == 0
    ensures r.attempts == 0 ==> r.outcome == Err(IllegalArgument(EMPTY_ID))
  {
    if HasText(id) then Run(polls, policy.maxAttempts, 0) else PollRun(Err(IllegalArgument(EMPTY_ID)), 0)
  }

  /**
   * `waitForCompletion`: checks the id, then polls with a fixed backoff between
   * attempts. Returns the outcome, the requests sent and the number of delays.
   */
  method WaitForCompletion(id: Option<string>, policy: RetryPolicy, polls: seq<Option<PredictionResponse>>)
    returns (r: Result<PredictionResponse, Failure>, sent: seq<HttpRequest>, delays: nat)
    requires 0 < policy.maxAttempts <= |polls|
    ensures PollRun(r, |sent|) == WaitOutcome(id, policy, polls)
    ensures delays == if sent == [] then 0 else |sent| - 1
    ensures forall i :: 0 <= i < |sent| ==> GetPrediction(id) == Ok(sent[i])
  {
    var request := GetPrediction(id);
    if request.Err? {
      return Err(request.error), [], 0;
    }
    var max := policy.maxAttempts;
    sent, delays := [request.value], 0;
    r := PollStatus(polls[0]);
    while Retryable(r) && |sent| < max
      invariant 1 <= |sent| <= max
      invariant r == PollStatus(polls[|sent| - 1])
      invariant Run(polls, max, 0) == Run(polls, max, |sent| - 1)
      invariant delays == |sent| - 1
      invariant forall i :: 0 <= i < |sent| ==> sent[i] == request.value
      decreases max - |sent|
    {
      delays := delays + 1;
      sent := sent + [request.value];
      r := PollStatus(polls[|sent| - 1]);
    }
  }

  /**
   * `createPredictionAndWait`: submit, refuse a response without an id before
   * any polling, then wait for the prediction the service created.
   */
  method CreatePredictionAndWait(modelName: Option<string>, request: Option<PredictionRequest>,
                                 preferWait: Option<string>, cancelAfter: Option<string>,
                                 policy: RetryPolicy, created: Option<PredictionResponse>,
                                 polls: seq<Option<PredictionResponse>>)
    returns (r: Result<PredictionResponse, Failure>, submitted: Option<HttpRequest>, sent: seq<HttpRequest>, delays: nat)
    requires 0 < policy.maxAttempts <= |polls|
    ensures var c := CreatePrediction(modelName, request, preferWait, cancelAfter);
            && (c.Err? ==> r == Err(c.error) && submitted == None && sent == [] && delays == 0)
            && (c.Ok? ==> submitted == Some(c.value))
            && (c.Ok? && !HasId(created) ==> r == Err(PredictionError(INVALID_CREATE)) && sent == [] && delays == 0)
            && (c.Ok? && HasId(created) ==> PollRun(r, |sent|) == WaitOutcome(created.value.id, policy, polls)
                                             && (forall i :: 0 <= i < |sent| ==> sent[i] == GetPrediction(created.value.id).value)
                                             && delays == (if sent == [] then 0 else |sent| - 1))
  {
    var c := CreatePrediction(modelName, request, preferWait, cancelAfter);
    if c.Err? {
      return Err(c.error), None, [], 0;
    }
    submitted := Some(c.value);
    if !HasId(created) {
      return Err(PredictionError(INVALID_CREATE)), submitted, [], 0;
    }
    r, sent, delays := WaitForCompletion(created.value.id, policy, polls);
  }

  /** A prediction that is already succeeded on the first poll is returned after that one poll. */
  lemma WaitReturnsImmediateSuccess(id: Option<string>, policy: RetryPolicy, polls: seq<Option<PredictionResponse>>)
    requires 0 < policy.maxAttempts <= |polls| && HasText(id)
    requires HasId(polls[0]) && polls[0].value.status == Some(Succeeded)
    ensures WaitOutcome(id, policy, polls) == PollRun(Ok(polls[0].value), 1)
  {
  }

  /** Waiting on a canceled prediction fails with the cancellation message after one poll. */
  lemma WaitReportsCancellation(id: Option<string>, policy: RetryPolicy, polls: seq<Option<PredictionResponse>>)
    requires 0 < policy.maxAttempts <= |polls| && HasText(id)
    requires HasId(polls[0]) && polls[0].value.status in {Some(Canceled), Some(Aborted)}
    ensures WaitOutcome(id, policy, polls) == PollRun(Err(PredictionError(CANCELED)), 1)
  {
  }
}
