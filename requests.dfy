/**
 * The request side of the prediction client: which endpoint a submission goes
 * to, which headers it carries, and the requests for fetching and cancelling a
 * prediction. Sending a request is modelled by returning its description.
 */
module Requests {
  import opened Wrappers
  import opened Predictions

  const PREDICTIONS_PATH := "/predictions"
  const MODELS_PATH := "/models/"

  const NO_TARGET := "Either model name or version must be specified"
  const BOTH_TARGETS := "Cannot specify both model name and version"
  const NULL_REQUEST := "Request must not be null"
  const EMPTY_ID := "Prediction ID must not be empty"

  const WAIT := "wait"
  const WAIT_PREFIX := "wait="

  datatype HttpMethod = Get | Post

  datatype Header = Header(name: string, value: string)

  /** A request as handed to the transport; the URI is relative to the base URL. */
  datatype HttpRequest = HttpRequest(verb: HttpMethod, uri: string, headers: seq<Header>, body: Option<PredictionRequest>)

  /** The value of the first header called `name`, if any. */
  function HeaderValue(headers: seq<Header>, name: string): Option<string> {
    if headers == [] then None
    else if headers[0].name == name then Some(headers[0].value)
    else HeaderValue(headers[1..], name)
  }

  /**
   * The submission endpoint. Exactly one of a non-empty model name and a
   * non-empty request version must be given: an official model has its own
   * endpoint, a community model goes to the shared one with its version in the body.
   */
  function BuildUri(modelName: Option<string>, request: PredictionRequest): (r: Result<string, Failure>)
    ensures r.Ok? <==> NonEmpty(modelName) != NonEmpty(request.version)
    ensures !NonEmpty(modelName) && !NonEmpty(request.version) ==> r == Err(IllegalArgument(NO_TARGET))
    ensures NonEmpty(modelName) && NonEmpty(request.version) ==> r == Err(IllegalArgument(BOTH_TARGETS))
    ensures r.Ok? && NonEmpty(modelName) ==> r.value == MODELS_PATH + modelName.value + PREDICTIONS_PATH
    ensures r.Ok? && NonEmpty(request.version) ==> r.value == PREDICTIONS_PATH
  {
    var hasModel := NonEmpty(modelName);
    var hasVersion := NonEmpty(request.version);
    if !hasModel && !hasVersion then Err(IllegalArgument(NO_TARGET))
    else if hasModel && hasVersion then Err(IllegalArgument(BOTH_TARGETS))
    else if hasModel then Ok(MODELS_PATH + modelName.value + PREDICTIONS_PATH)
    else Ok(PREDICTIONS_PATH)
  }

  /** Reads the model name back out of a submission URI; `None` for the shared endpoint. */
  function ModelOfUri(uri: string): Option<string> {
    var lo, hi := |MODELS_PATH|, |uri| - |PREDICTIONS_PATH|;
    if lo <= hi && uri[..lo] == MODELS_PATH && uri[hi..] == PREDICTIONS_PATH
    then Some(uri[lo..hi])
    else None
  }

  /** The endpoint chosen determines the route: the model name is recovered from the URI. */
  lemma RouteIsRecoverable(modelName: Option<string>, request: PredictionRequest)
    requires BuildUri(modelName, request).Ok?
    ensures ModelOfUri(BuildUri(modelName, request).value) == if NonEmpty(modelName) then modelName else None
  {
  }

  /** Official models with different names get different endpoints, never the shared one. */
  lemma RoutesAreDistinct(m1: Option<string>, r1: PredictionRequest, m2: Option<string>, r2: PredictionRequest)
    requires BuildUri(m1, r1).Ok? && BuildUri(m2, r2).Ok?
    requires (if NonEmpty(m1) then m1 else None) != (if NonEmpty(m2) then m2 else None)
    ensures BuildUri(m1, r1).value != BuildUri(m2, r2).value
  {
    RouteIsRecoverable(m1, r1);
    RouteIsRecoverable(m2, r2);
  }

  /** An already well-formed `Prefer` value: the bare `wait` or `wait=<n>`. */
  predicate IsWaitDirective(v: string) {
    v == WAIT || WAIT_PREFIX <= v
  }

  /**
   * The `Prefer` header value for a synchronous-wait request: none for a null or
   * empty setting, well-formed values unchanged, a bare timeout `n` as `wait=n`.
   */
  function PreferHeader(preferWait: Option<string>): (r: Option<string>)
    ensures r.Some? <==> NonEmpty(preferWait)
    ensures r.Some? ==> IsWaitDirective(r.value)
    ensures r.Some? && IsWaitDirective(preferWait.value) ==> r.value == preferWait.value
    ensures r.Some? && !IsWaitDirective(preferWait.value) ==> r.value == WAIT_PREFIX + preferWait.value
  {
    if !NonEmpty(preferWait) then None
    else if preferWait.value == WAIT then Some(WAIT)
    else if WAIT_PREFIX <= preferWait.value then Some(preferWait.value)
    else Some(WAIT_PREFIX + preferWait.value)
  }

  /** Formatting is idempotent: a formatted value formats to itself. */
  lemma PreferHeaderIdempotent(preferWait: Option<string>)
    ensures PreferHeader(PreferHeader(preferWait)) == PreferHeader(preferWait)
  {
  }

  /** A bare timeout is recoverable from the header it produced. */
  lemma PreferHeaderKeepsTimeout(timeout: string)
    requires timeout != "" && !IsWaitDirective(timeout)
    ensures PreferHeader(Some(timeout)).value[|WAIT_PREFIX|..] == timeout
  {
  }

  /** The three documented forms: `wait`, `5` and `wait=5`. */
  lemma PreferHeaderExamples()
    ensures PreferHeader(Some("wait")) == Some("wait")
    ensures PreferHeader(Some("5")) == Some("wait=5")
    ensures PreferHeader(Some("wait=5")) == Some("wait=5")
    ensures PreferHeader(Some("")) == None && PreferHeader(None) == None
  {
    assert "5" != WAIT && !(WAIT_PREFIX <= "5");
    assert WAIT_PREFIX + "5" == "wait=5";
  }

  /** The `Cancel-After` value: passed through unchanged when non-null and non-empty. */
  function CancelAfterHeader(cancelAfter: Option<string>): (r: Option<string>)
    ensures r.Some? <==> NonEmpty(cancelAfter)
    ensures r.Some? ==> r == cancelAfter
  {
    if NonEmpty(cancelAfter) then cancelAfter else None
  }

  /** The optional headers of a submission, `Prefer` before `Cancel-After`. */
  function SubmissionHeaders(preferWait: Option<string>, cancelAfter: Option<string>): (r: seq<Header>)
    ensures HeaderValue(r, "Prefer") == PreferHeader(preferWait)
    ensures HeaderValue(r, "Cancel-After") == CancelAfterHeader(cancelAfter)
    ensures forall i :: 0 <= i < |r| ==> r[i].name == "Prefer" || r[i].name == "Cancel-After"
    ensures forall i, j :: 0 <= i < j < |r| ==> r[i].name != r[j].name
  {
    var prefer := PreferHeader(preferWait);
    var cancel := CancelAfterHeader(cancelAfter);
    var cancelHeaders := if cancel.Some? then [Header("Cancel-After", cancel.value)] else [];
    if prefer.Some? then
      assert ([Header("Prefer", prefer.value)] + cancelHeaders)[1..] == cancelHeaders;
      [Header("Prefer", prefer.value)] + cancelHeaders
    else cancelHeaders
  }

  /**
   * `createPrediction` up to the point where the request is sent: the request
   * must be non-null and routable; the body is the request itself.
   */
  function CreatePrediction(modelName: Option<string>, request: Option<PredictionRequest>,
                            preferWait: Option<string>, cancelAfter: Option<string>): (r: Result<HttpRequest, Failure>)
    ensures request.None? ==> r == Err(IllegalArgument(NULL_REQUEST))
    ensures request.Some? && BuildUri(modelName, request.value).Err? ==> r == Err(BuildUri(modelName, request.value).error)
    ensures r.Ok? <==> request.Some? && BuildUri(modelName, request.value).Ok?
    ensures r.Ok? ==> r.value.verb == Post && r.value.body == request
                      && r.value.uri == BuildUri(modelName, request.value).value
                      && r.value.headers == SubmissionHeaders(preferWait, cancelAfter)
                      && HeaderValue(r.value.headers, "Prefer") == PreferHeader(preferWait)
                      && HeaderValue(r.value.headers, "Cancel-After") == CancelAfterHeader(cancelAfter)
    ensures r.Ok? && !NonEmpty(preferWait) && !NonEmpty(cancelAfter) ==> r.value.headers == []
  {
    if request.None? then Err(IllegalArgument(NULL_REQUEST))
    else
      match BuildUri(modelName, request.value)
      case Err(e) => Err(e)
      case Ok(uri) => Ok(HttpRequest(Post, uri, SubmissionHeaders(preferWait, cancelAfter), request))
  }

  /** `getPrediction`: a GET of `/predictions/{id}`, refused for an id without text. */
  function GetPrediction(id: Option<string>): (r: Result<HttpRequest, Failure>)
    ensures r.Ok? <==> HasText(id)
    ensures r.Err? ==> r.error == IllegalArgument(EMPTY_ID)
    ensures r.Ok? ==> r.value.verb == Get && r.value.uri == PREDICTIONS_PATH + "/" + id.value
                      && r.value.headers == [] && r.value.body == None
  {
    if HasText(id) then Ok(HttpRequest(Get, PREDICTIONS_PATH + "/" + id.value, [], None))
    else Err(IllegalArgument(EMPTY_ID))
  }

  /** `cancelPrediction`: a POST to `/predictions/{id}/cancel`, refused for an id without text. */
  function CancelPrediction(id: Option<string>): (r: Result<HttpRequest, Failure>)
    ensures r.Ok? <==> HasText(id)
    ensures r.Err? ==> r.error == IllegalArgument(EMPTY_ID)
    ensures r.Ok? ==> r.value.verb == Post && r.value.uri == PREDICTIONS_PATH + "/" + id.value + "/cancel"
                      && r.value.headers == [] && r.value.body == None
  {
    if HasText(id) then Ok(HttpRequest(Post, PREDICTIONS_PATH + "/" + id.value + "/cancel", [], None))
    else Err(IllegalArgument(EMPTY_ID))
  }

  /**
   * Each prediction has its own resource: fetch and cancel requests for two ids
   * are equal only when the ids are, and the cancel endpoint is the fetched
   * resource followed by `/cancel`.
   */
  lemma {:induction false} RequestsIdentifyPrediction(a: Option<string>, b: Option<string>)
    requires HasText(a) && HasText(b)
    ensures CancelPrediction(a).value.uri == GetPrediction(a).value.uri + "/cancel"
    ensures GetPrediction(a) == GetPrediction(b) <==> a == b
    ensures CancelPrediction(a) == CancelPrediction(b) <==> a == b
  {
    var n := |PREDICTIONS_PATH + "/"|;
    var fa, fb := GetPrediction(a).value.uri, GetPrediction(b).value.uri;
    assert fa[n..] == a.value && fb[n..] == b.value;
    var ca, cb := CancelPrediction(a).value.uri, CancelPrediction(b).value.uri;
    assert ca[n..|ca| - |"/cancel"|] == a.value;
    assert cb[n..|cb| - |"/cancel"|] == b.value;
  }
}
