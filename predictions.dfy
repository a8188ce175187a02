/**
 * The records exchanged with the prediction service, the failures the client
 * raises, and the two notions of "text is present" that its checks use.
 */
module Predictions {
  import opened Wrappers

  /** A decoded JSON value: a prediction's output or one entry of its input map. */
  datatype Value =
    | JsonNull
    | JsonBool(b: bool)
    | JsonNumber(n: real)
    | JsonString(s: string)
    | JsonArray(items: seq<Value>)
    | JsonObject(fields: map<string, Value>)

  /** The six lifecycle states the service reports. */
  datatype PredictionStatus = Starting | Processing | Succeeded | Failed | Canceled | Aborted

  /** Timing and token counts; the client never looks inside. */
  datatype Metrics = Metrics(
    predictTime: Option<real>,
    totalTime: Option<real>,
    inputTokenCount: Option<int>,
    outputTokenCount: Option<int>)

  /** Links for fetching, cancelling, streaming and viewing a prediction. */
  datatype Urls = Urls(get: Option<string>, cancel: Option<string>, stream: Option<string>, web: Option<string>)

  /** The body of a submission. A community model is named by `version`. */
  datatype PredictionRequest = PredictionRequest(
    version: Option<string>,
    input: Option<map<string, Value>>,
    webhook: Option<string>,
    webhookEventsFilter: Option<seq<string>>,
    stream: Option<bool>)

  /** One snapshot of a prediction as the service reports it. */
  datatype PredictionResponse = PredictionResponse(
    id: Option<string>,
    model: Option<string>,
    version: Option<string>,
    status: Option<PredictionStatus>,
    input: Option<map<string, Value>>,
    output: Option<Value>,
    error: Option<string>,
    logs: Option<string>,
    metrics: Option<Metrics>,
    urls: Option<Urls>,
    createdAt: Option<string>,
    startedAt: Option<string>,
    completedAt: Option<string>,
    dataRemoved: Option<bool>,
    source: Option<string>,
    deployment: Option<string>,
    deadline: Option<string>)

  /**
   * What the client throws: an argument check failing (IllegalArgumentException),
   * a prediction-level failure (ReplicatePredictionException), and the one
   * condition the poll loop retries (ReplicatePredictionNotFinishedException).
   */
  datatype Failure =
    | IllegalArgument(message: string)
    | PredictionError(message: string)
    | NotFinished(message: string)

  /** A response that carries an identifier (non-null response, non-null id). */
  predicate HasId(response: Option<PredictionResponse>) {
    response.Some? && response.value.id.Some?
  }

  /** `s != null && !s.isEmpty()`. */
  predicate NonEmpty(s: Option<string>) {
    s.Some? && s.value != ""
  }

  /** `Character.isWhitespace`: the ASCII separators and controls 9-13 and 28-31, and the Unicode space, line and paragraph separators other than the no-break spaces. */
  predicate IsWhitespace(c: char) {
    var n := c as int;
    (9 <= n <= 13) || (28 <= n <= 32) || n == 0x1680 || (0x2000 <= n <= 0x2006)
    || (0x2008 <= n <= 0x200A) || n == 0x2028 || n == 0x2029 || n == 0x205F || n == 0x3000
  }

  /** Spring's `Assert.hasText`: non-null and holding at least one non-whitespace character. */
  predicate HasText(s: Option<string>) {
    s.Some? && exists i :: 0 <= i < |s.value| && !IsWhitespace(s.value[i])
  }

  /** Every string `Assert.hasText` accepts is also non-empty; the converse fails on blanks. */
  lemma HasTextIsStricter(s: Option<string>)
    ensures HasText(s) ==> NonEmpty(s)
    ensures s == Some(" ") ==> NonEmpty(s) && !HasText(s)
  {
  }
}
