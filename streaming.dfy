/**
 * Streaming a prediction: the submission's stream URL is opened as a
 * server-sent-event stream, and each event is turned into at most one emitted
 * snapshot. `output` events emit a chunk, `done` completes, `error` fails, and
 * anything else is skipped. The event stream is an oracle: a finite sequence
 * that ends when the connection closes.
 */
module Streaming {
  import opened Wrappers
  import opened Predictions
  import opened Requests

  const NO_STREAM_URL := "No stream URL returned from prediction"
  const STREAM_ERROR_PREFIX := "Streaming error: "
  const UNKNOWN_ERROR := "Unknown error"

  /** One decoded server-sent event: its type tag and its payload, either possibly null. */
  datatype Event = Event(eventType: Option<string>, data: Option<string>)

  /** What the handler does with one event. */
  datatype Step = Emit(snapshot: PredictionResponse) | Complete | Fail(failure: Failure) | Skip

  /** How the produced sequence ends: normally, or with an error signal. */
  datatype StreamEnd = Completed | Errored(failure: Failure)

  /** The elements a stream emitted and how it ended. */
  datatype Stream = Stream(emitted: seq<PredictionResponse>, end: StreamEnd)

  /** `r` is a chunk of `initial`: its identity and timestamps, status processing, and no error, logs, metrics or completion time. */
  predicate IsChunkOf(r: PredictionResponse, initial: PredictionResponse) {
    r == initial.(status := Some(Processing), output := r.output, error := None, logs := None,
                  metrics := None, completedAt := None)
  }

  /** The snapshot an `output` event produces: the chunk's text, or the empty string for a null payload. */
  function Chunk(initial: PredictionResponse, data: Option<string>): (r: PredictionResponse)
    ensures IsChunkOf(r, initial)
    ensures r.output == Some(JsonString(data.GetOr("")))
  {
    PredictionResponse(initial.id, initial.model, initial.version, Some(Processing), initial.input,
                       Some(JsonString(data.GetOr(""))), None, None, None, initial.urls, initial.createdAt,
                       initial.startedAt, None, initial.dataRemoved, initial.source, initial.deployment,
                       initial.deadline)
  }

  /** The event handler: dispatch on the type tag. */
  function Handle(initial: PredictionResponse, e: Event): (s: Step)
    ensures s.Emit? <==> e.eventType == Some("output")
    ensures s.Complete? <==> e.eventType == Some("done")
    ensures s.Fail? <==> e.eventType == Some("error")
    ensures s.Emit? ==> IsChunkOf(s.snapshot, initial) && s.snapshot.output == Some(JsonString(e.data.GetOr("")))
    ensures s.Fail? ==> s.failure == PredictionError(STREAM_ERROR_PREFIX + e.data.GetOr(UNKNOWN_ERROR))
  {
    if e.eventType == Some("error") then Fail(PredictionError(STREAM_ERROR_PREFIX + e.data.GetOr(UNKNOWN_ERROR)))
    else if e.eventType == Some("done") then Complete
    else if e.eventType == Some("output") then Emit(Chunk(initial, e.data))
    else Skip
  }

  /** The produced sequence for a stream of events, one event at a time. */
  function Demux(initial: PredictionResponse, events: seq<Event>): (r: Stream)
    ensures |r.emitted| <= |events|
    ensures r.end.Errored? ==> r.end.failure.PredictionError? && STREAM_ERROR_PREFIX <= r.end.failure.message
    decreases |events|
  {
    if events == [] then Stream([], Completed)
    else
      match Handle(initial, events[0])
      case Emit(s) =>
        var rest := Demux(initial, events[1..]);
        Stream([s] + rest.emitted, rest.end)
      case Skip => Demux(initial, events[1..])
      case Complete => Stream([], Completed)
      case Fail(f) => Stream([], Errored(f))
  }

  /** An event that ends the produced sequence. */
  predicate IsTerminal(e: Event) {
    e.eventType == Some("done") || e.eventType == Some("error")
  }

  /** The position of the first `done` or `error` event, or the length when there is none. */
  function Stop(events: seq<Event>): (r: nat)
    ensures r <= |events|
    ensures forall i :: 0 <= i < r ==> !IsTerminal(events[i])
    ensures r < |events| ==> IsTerminal(events[r])
  {
    if events == [] || IsTerminal(events[0]) then 0 else 1 + Stop(events[1..])
  }

  /** The payloads of the `output` events, in order. */
  function Outputs(events: seq<Event>): seq<Option<string>> {
    if events == [] then []
    else if events[0].eventType == Some("output") then [events[0].data] + Outputs(events[1..])
    else Outputs(events[1..])
  }

  /**
   * The stream emits, in event order, one chunk per `output` event before the
   * first `done` or `error`, and nothing else.
   */
  lemma {:induction false} DemuxEmitsOutputs(initial: PredictionResponse, events: seq<Event>)
    ensures var out := Outputs(events[..Stop(events)]);
            var s := Demux(initial, events);
            |s.emitted| == |out| && forall i :: 0 <= i < |out| ==> s.emitted[i] == Chunk(initial, out[i])
    decreases |events|
  {
    if events != [] && !IsTerminal(events[0]) {
      var n := Stop(events);
      DemuxEmitsOutputs(initial, events[1..]);
      assert events[..n][1..] == events[1..][..Stop(events[1..])];
      assert events[..n][0] == events[0];
    }
  }

  /** The stream fails exactly when its first terminal event is `error`, with that event's message. */
  lemma {:induction false} DemuxEnd(initial: PredictionResponse, events: seq<Event>)
    ensures var n := Stop(events);
            Demux(initial, events).end ==
              if n < |events| && events[n].eventType == Some("error")
              then Errored(PredictionError(STREAM_ERROR_PREFIX + events[n].data.GetOr(UNKNOWN_ERROR)))
              else Completed
    decreases |events|
  {
    if events != [] && !IsTerminal(events[0]) {
      DemuxEnd(initial, events[1..]);
    }
  }

  /** Every emitted element is a chunk of the initial snapshot. */
  lemma EmittedAreChunks(initial: PredictionResponse, events: seq<Event>)
    ensures forall i :: 0 <= i < |Demux(initial, events).emitted| ==> IsChunkOf(Demux(initial, events).emitted[i], initial)
  {
  }

  /** The two worked examples: two chunks then `done`; one chunk then `error`. */
  lemma DemuxExamples(initial: PredictionResponse)
    ensures Demux(initial, [Event(Some("output"), Some("ab")), Event(Some("output"), Some("cd")), Event(Some("done"), None)])
            == Stream([Chunk(initial, Some("ab")), Chunk(initial, Some("cd"))], Completed)
    ensures Demux(initial, [Event(Some("output"), Some("x")), Event(Some("error"), Some("boom"))])
            == Stream([Chunk(initial, Some("x"))], Errored(PredictionError("Streaming error: boom")))
  {
    var e1 := [Event(Some("output"), Some("ab")), Event(Some("output"), Some("cd")), Event(Some("done"), None)];
    assert e1[1..][1..] == [Event(Some("done"), None)];
    var e2 := [Event(Some("output"), Some("x")), Event(Some("error"), Some("boom"))];
    assert e2[1..] == [Event(Some("error"), Some("boom"))];
    assert STREAM_ERROR_PREFIX + "boom" == "Streaming error: boom";
  }

  /**
   * The event handler driven by the stream: each event is handled in arrival
   * order, a chunk is pushed to the sink, and `done` or `error` ends the sink.
   */
  method Demultiplex(initial: PredictionResponse, events: seq<Event>) returns (emitted: seq<PredictionResponse>, end: StreamEnd)
    ensures Stream(emitted, end) == Demux(initial, events)
  {
    emitted, end := [], Completed;
    var i, open := 0, true;
    while i < |events| && open
      invariant 0 <= i <= |events|
      invariant open ==> Demux(initial, events) == Stream(emitted + Demux(initial, events[i..]).emitted, Demux(initial, events[i..]).end)
      invariant !open ==> Demux(initial, events) == Stream(emitted, end)
      invariant open ==> end == Completed
      decreases |events| - i
    {
      var step := Handle(initial, events[i]);
      assert events[i..][1..] == events[i + 1..];
      if step.Emit? {
        emitted := emitted + [step.snapshot];
      } else if step.Complete? {
        open, end := false, Completed;
      } else if step.Fail? {
        open, end := false, Errored(step.failure);
      }
      i := i + 1;
    }
    if open {
      assert events[i..] == [];
      assert emitted + [] == emitted;
    }
  }

  /** The request that opens the event stream: a GET of the stream URL that bypasses caches. */
  function StreamRequest(url: string): (r: HttpRequest)
    ensures r.verb == Get && r.uri == url && r.body == None
    ensures HeaderValue(r.headers, "Accept") == Some("text/event-stream")
    ensures HeaderValue(r.headers, "Cache-Control") == Some("no-store")
  {
    HttpRequest(Get, url, [Header("Accept", "text/event-stream"), Header("Cache-Control", "no-store")], None)
  }

  /** The initial response carries a stream URL. */
  predicate HasStreamUrl(initial: Option<PredictionResponse>) {
    initial.Some? && initial.value.urls.Some? && initial.value.urls.value.stream.Some?
  }

  /**
   * `createPredictionStream`: submit without `Prefer` or `Cancel-After`; a
   * rejected submission throws before any stream exists (`Err`); a response
   * without a stream URL gives a stream that fails at once; otherwise the
   * stream URL is opened and the events are demultiplexed.
   */
  method CreatePredictionStream(modelName: Option<string>, request: Option<PredictionRequest>,
                                initial: Option<PredictionResponse>, events: seq<Event>)
    returns (r: Result<Stream, Failure>, submitted: Option<HttpRequest>, connection: Option<HttpRequest>)
    ensures var c := CreatePrediction(modelName, request, None, None);
            && (c.Err? ==> r == Err(c.error) && submitted == None && connection == None)
            && (c.Ok? ==> submitted == Some(c.value) && c.value.headers == [])
            && (c.Ok? && !HasStreamUrl(initial) ==> r == Ok(Stream([], Errored(PredictionError(NO_STREAM_URL)))) && connection == None)
            && (c.Ok? && HasStreamUrl(initial) ==> r == Ok(Demux(initial.value, events))
                                                   && connection == Some(StreamRequest(initial.value.urls.value.stream.value)))
  {
    var c := CreatePrediction(modelName, request, None, None);
    if c.Err? {
      return Err(c.error), None, None;
    }
    submitted := Some(c.value);
    if !HasStreamUrl(initial) {
      return Ok(Stream([], Errored(PredictionError(NO_STREAM_URL)))), submitted, None;
    }
    connection := Some(StreamRequest(initial.value.urls.value.stream.value));
    var emitted, end := Demultiplex(initial.value, events);
    r := Ok(Stream(emitted, end));
  }
}
