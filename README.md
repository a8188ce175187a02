# Replicate prediction client — a Dafny model

This project models the core of the Spring AI Replicate client: the part of
`ReplicateApi` that decides where a prediction is submitted and with which
headers, classifies the snapshots it polls, runs the bounded fixed-backoff
poll loop, guards submit-and-wait, and turns the server-sent-event stream of a
prediction into a sequence of snapshots; the builder that configures a client;
and `ReplicateChatOptions`, the mutable options bag with its builder and copy
semantics.

The remote service is an oracle. The answers to successive `getPrediction`
calls are a sequence `polls`, the answer to the submission is `created` or
`initial`, and the event stream is a sequence of `Event`s. Sending a request
is modelled by returning an `HttpRequest` description (method, URI, headers,
body). Java `null` is `Option.None`; an exception is `Result.Err` with a
`Failure`: `IllegalArgument` for Spring's `Assert` checks and routing errors,
`PredictionError` for `ReplicatePredictionException`, and `NotFinished` for
`ReplicatePredictionNotFinishedException`, the only failure the poll loop retries.

Modules, one per component:

- `wrappers.dfy` — `Option`, `Result`.
- `predictions.dfy` — the records (`PredictionRequest`, `PredictionResponse`,
  `Urls`, `Metrics`, `PredictionStatus`), `Failure`, and the two text checks:
  `NonEmpty` (`!isEmpty()`, used by routing and headers) and `HasText`
  (Spring's `Assert.hasText`, which also rejects all-whitespace identifiers).
- `requests.dfy` — endpoint routing, `Prefer`/`Cancel-After` formatting, and
  the submission, fetch and cancel requests.
- `polling.dfy` — status classification, the retry run as a function (`Run`)
  and as a loop (`WaitForCompletion`), and submit-and-wait.
- `streaming.dfy` — the per-event handler, the fold over events (`Demux`) and
  the loop that drives the sink (`Demultiplex`), and stream setup.
- `client.dfy` — `ReplicateApi.Builder` and the configuration it builds.
- `options.dfy` — `ReplicateChatOptions` and its `Builder` as classes, with
  `HashMap.put`/`putAll` as `Put`/`PutAll`, and the events filter list as a
  shared `StringList` object.

Behaviour of the source that the model keeps as written:

- Exhausting the attempt cap rethrows the last not-finished failure
  (`NotFinished`, "Prediction not finished yet."), which callers can tell apart
  from a failed or canceled prediction (`PredictionError`).
- A stream `error` event fails the stream with `"Streaming error: "` followed
  by the event's payload.
- A `Prefer` value is passed through when it is exactly `wait` or starts with
  `wait=`; any other non-empty value is prefixed with `wait=`.
- An event stream that ends without `done` completes normally, like `done`.
- The non-terminal states are `starting` and `processing`.
- Building a client fails when no API key was set and, inside the retry
  template's builder, when the fixed backoff is shorter than one millisecond
  ("Interval should be >= 1").

## Model

| member | source | states |
|---|---|---|
| `Predictions.HasTextIsStricter` | spring-ai-replicate/src/main/java/org/springaicommunity/replicate/api/ReplicateApi.java:196-197 | an identifier accepted by the id checks is non-empty, while a blank string passes the routing check but not the id check |
| `Requests.BuildUri` | spring-ai-replicate/src/main/java/org/springaicommunity/replicate/api/ReplicateApi.java:195-214 | routing succeeds iff exactly one of a non-empty model name and a non-empty version is given; neither and both fail with their own messages; a model name routes to `/models/{name}/predictions`, a version to `/predictions` |
| `Requests.RouteIsRecoverable` | spring-ai-replicate/src/main/java/org/springaicommunity/replicate/api/ReplicateApi.java:205-213 | the model name is read back from the routed URI, and the shared endpoint reads back as no model |
| `Requests.RoutesAreDistinct` | spring-ai-replicate/src/main/java/org/springaicommunity/replicate/api/ReplicateApi.java:205-213 | different model names, or a model name and a version, never share an endpoint |
| `Requests.PreferHeader` | spring-ai-replicate/src/main/java/org/springaicommunity/replicate/api/ReplicateApi.java:164-177 | no header for a null or empty value; the header is always `wait` or `wait=…`; well-formed values pass unchanged, any other value `v` becomes `wait=v` |
| `Requests.PreferHeaderIdempotent` | spring-ai-replicate/src/main/java/org/springaicommunity/replicate/api/ReplicateApi.java:169-175 | formatting a formatted value changes nothing |
| `Requests.PreferHeaderKeepsTimeout` | spring-ai-replicate/src/main/java/org/springaicommunity/replicate/api/ReplicateApi.java:173-175 | the bare timeout is what follows `wait=` in the header |
| `Requests.PreferHeaderExamples` | spring-ai-replicate/src/main/java/org/springaicommunity/replicate/api/ReplicateApi.java:165-167 | `wait` → `wait`, `5` → `wait=5`, `wait=5` → `wait=5`, empty or null → no header |
| `Requests.CancelAfterHeader` | spring-ai-replicate/src/main/java/org/springaicommunity/replicate/api/ReplicateApi.java:179-181 | `Cancel-After` is present iff the value is non-null and non-empty, and then is the value unchanged |
| `Requests.SubmissionHeaders` | spring-ai-replicate/src/main/java/org/springaicommunity/replicate/api/ReplicateApi.java:163-181 | looking up `Prefer` and `Cancel-After` in the header list gives the formatted values; no other header and no name twice |
| `Requests.CreatePrediction` | spring-ai-replicate/src/main/java/org/springaicommunity/replicate/api/ReplicateApi.java:156-185 | a null request and a routing error are raised before anything is sent; otherwise a POST to the routed URI with the request as body and exactly the submission headers (the formatted `Prefer` and `Cancel-After` values, no other name and none twice), and no headers when neither option is set |
| `Requests.GetPrediction` | spring-ai-replicate/src/main/java/org/springaicommunity/replicate/api/ReplicateApi.java:221-228 | an id without text is refused before any request; otherwise a GET of `/predictions/{id}` |
| `Requests.CancelPrediction` | spring-ai-replicate/src/main/java/org/springaicommunity/replicate/api/ReplicateApi.java:235-242 | an id without text is refused before any request; otherwise a POST to `/predictions/{id}/cancel` |
| `Requests.RequestsIdentifyPrediction` | spring-ai-replicate/src/main/java/org/springaicommunity/replicate/api/ReplicateApi.java:224-241 | fetch requests for two ids are equal iff the ids are, likewise cancel requests, and the cancel endpoint is the fetched resource followed by `/cancel` |
| `Polling.Classify` | spring-ai-replicate/src/main/java/org/springaicommunity/replicate/api/ReplicateApi.java:266-278 | of the six states only succeeded is a terminal success, starting and processing are non-terminal, the other three are terminal failures |
| `Polling.PollStatus` | spring-ai-replicate/src/main/java/org/springaicommunity/replicate/api/ReplicateApi.java:260-280 | a missing response or id and a null status are protocol errors; it returns the snapshot unchanged iff it succeeded, asks for a retry iff it is non-terminal, fails with `Prediction failed: ` and the error (or `Unknown error`) for failed, and `Prediction was canceled` for canceled or aborted |
| `Polling.CancellationIsDistinguishable` | spring-ai-replicate/src/main/java/org/springaicommunity/replicate/api/ReplicateApi.java:272-278 | the cancellation message never equals a failure message, whatever the error text |
| `Polling.Run` | spring-ai-replicate/src/main/java/org/springaicommunity/replicate/api/ReplicateApi.java:99-102 | between 1 and the cap polls; every poll but the last asked for a retry; the outcome is the last poll's; stopping before the cap means the last poll did not ask for a retry |
| `Polling.RunStopsAt` | spring-ai-replicate/src/main/java/org/springaicommunity/replicate/api/ReplicateApi.java:99-102 | the run ends exactly at the first poll that does not ask for a retry, or at the cap |
| `Polling.SucceedsOnAttempt` | spring-ai-replicate/src/main/java/org/springaicommunity/replicate/api/ReplicateApi.java:99-102 | if poll N (N at most the cap) succeeds after N-1 not-finished polls, the result is that snapshot after exactly N polls |
| `Polling.ExhaustsAfterMaxAttempts` | spring-ai-replicate/src/main/java/org/springaicommunity/replicate/api/ReplicateApi.java:99-102 | a prediction never finished within the cap fails with the not-finished failure after exactly the cap |
| `Polling.WaitOutcome` | spring-ai-replicate/src/main/java/org/springaicommunity/replicate/api/ReplicateApi.java:250-253 | an id without text is refused with no poll at all; an id with text always polls at least once |
| `Polling.WaitForCompletion` | spring-ai-replicate/src/main/java/org/springaicommunity/replicate/api/ReplicateApi.java:250-253 | the loop's outcome and poll count are those of the retry run; one delay between consecutive polls (polls − 1 delays); every request sent is the GET of that id |
| `Polling.CreatePredictionAndWait` | spring-ai-replicate/src/main/java/org/springaicommunity/replicate/api/ReplicateApi.java:131-138 | a rejected submission sends nothing; a response without an id fails with no poll; otherwise the outcome and poll count are those of waiting on the returned id, and every poll sent is the GET of that prediction |
| `Polling.WaitReturnsImmediateSuccess` | spring-ai-replicate/src/main/java/org/springaicommunity/replicate/api/ReplicateApi.java:265-268 | a prediction already succeeded on the first poll is returned after one poll |
| `Polling.WaitReportsCancellation` | spring-ai-replicate/src/main/java/org/springaicommunity/replicate/api/ReplicateApi.java:276-278 | waiting on a canceled or aborted prediction fails with the cancellation message after one poll |
| `Streaming.Chunk` | spring-ai-replicate/src/main/java/org/springaicommunity/replicate/api/ReplicateApi.java:347-355 | an output snapshot is the initial snapshot with status processing, output the payload (or empty), and no error, logs, metrics or completion time |
| `Streaming.Handle` | spring-ai-replicate/src/main/java/org/springaicommunity/replicate/api/ReplicateApi.java:336-357 | an event emits iff it is `output`, completes iff `done`, fails iff `error` (with `Streaming error: ` and the payload or `Unknown error`), and is skipped otherwise |
| `Streaming.Stop` | spring-ai-replicate/src/main/java/org/springaicommunity/replicate/api/ReplicateApi.java:338-346 | the position of the first `done` or `error` event: none before it, and it is one unless it is the end |
| `Streaming.Demux` | spring-ai-replicate/src/main/java/org/springaicommunity/replicate/api/ReplicateApi.java:336-357 | the fold over the events: in order, each emitted chunk is appended, the first `done` or `error` stops it, and running out of events completes it; it emits at most one element per event, and a failure is always a prediction error carrying the `Streaming error: ` prefix (its exact contents and end are characterised by `DemuxEmitsOutputs` and `DemuxEnd`) |
| `Streaming.DemuxEmitsOutputs` | spring-ai-replicate/src/main/java/org/springaicommunity/replicate/api/ReplicateApi.java:336-357 | the stream emits, in event order, exactly one chunk per `output` event before the first `done` or `error` |
| `Streaming.DemuxEnd` | spring-ai-replicate/src/main/java/org/springaicommunity/replicate/api/ReplicateApi.java:338-346 | the stream fails iff its first terminal event is `error`, with that event's message, and completes otherwise |
| `Streaming.EmittedAreChunks` | spring-ai-replicate/src/main/java/org/springaicommunity/replicate/api/ReplicateApi.java:349-353 | every emitted element keeps the initial snapshot's identity and is reported as processing |
| `Streaming.DemuxExamples` | spring-ai-replicate/src/main/java/org/springaicommunity/replicate/api/ReplicateApi.java:336-357 | two outputs then `done` emit two chunks and complete; one output then `error` emits one chunk and fails with `Streaming error: boom` |
| `Streaming.Demultiplex` | spring-ai-replicate/src/main/java/org/springaicommunity/replicate/api/ReplicateApi.java:336-357 | the sink loop pushes exactly the fold's elements and ends as the fold does |
| `Streaming.StreamRequest` | spring-ai-replicate/src/main/java/org/springaicommunity/replicate/api/ReplicateApi.java:330-335 | the stream is opened by a GET of the stream URL accepting `text/event-stream` with `Cache-Control: no-store` |
| `Streaming.CreatePredictionStream` | spring-ai-replicate/src/main/java/org/springaicommunity/replicate/api/ReplicateApi.java:320-358 | submission carries no `Prefer` or `Cancel-After`; a rejected submission throws before any stream; a missing response, urls or stream URL gives a stream that fails at once with nothing emitted; otherwise the stream URL is opened and the events are folded |
| `Client.DefaultBaseUrlHasText` | spring-ai-replicate/src/main/java/org/springaicommunity/replicate/api/ReplicateApi.java:61 | the default base URL satisfies the builder's own check |
| `Client.Builder.constructor` | spring-ai-replicate/src/main/java/org/springaicommunity/replicate/api/ReplicateApi.java:503-517 | defaults: the public base URL, no key, 5000 ms backoff, 60 attempts, 16 MB buffer |
| `Client.Builder.BaseUrl` | spring-ai-replicate/src/main/java/org/springaicommunity/replicate/api/ReplicateApi.java:519-523 | a base URL without text is refused and nothing changes; otherwise only the base URL changes |
| `Client.Builder.ApiKey` | spring-ai-replicate/src/main/java/org/springaicommunity/replicate/api/ReplicateApi.java:525-529 | a null key is refused and nothing changes; otherwise only the key changes |
| `Client.Builder.RetryFixedBackoff` | spring-ai-replicate/src/main/java/org/springaicommunity/replicate/api/ReplicateApi.java:549-553 | a null backoff is refused and nothing changes; otherwise only the backoff changes |
| `Client.Builder.RetryMaxAttempts` | spring-ai-replicate/src/main/java/org/springaicommunity/replicate/api/ReplicateApi.java:555-559 | a non-positive cap is refused and nothing changes; otherwise only the cap changes |
| `Client.Builder.MaxInMemorySize` | spring-ai-replicate/src/main/java/org/springaicommunity/replicate/api/ReplicateApi.java:561-565 | a non-positive buffer size is refused and nothing changes; otherwise only that size changes |
| `Client.Builder.Build` | spring-ai-replicate/src/main/java/org/springaicommunity/replicate/api/ReplicateApi.java:567-571 | building succeeds iff a key was set and the fixed backoff is at least one millisecond, failing with the key message first and the retry builder's interval message otherwise; a built configuration has the builder's settings, a positive attempt cap and a positive backoff |
| `Options.Put` | spring-ai-replicate/src/main/java/org/springaicommunity/replicate/ReplicateChatOptions.java:76 | after `put(k, v)` the key set gains `k`, `k` maps to `v`, every other entry is unchanged |
| `Options.PutAll` | spring-ai-replicate/src/main/java/org/springaicommunity/replicate/ReplicateChatOptions.java:84 | after `putAll(p)` every key of `p` maps to its value in `p`, other keys keep theirs, and no other key appears |
| `Options.PutEachLastWins` | spring-ai-replicate/src/main/java/org/springaicommunity/replicate/ReplicateChatOptions.java:244-252 | after a series of puts a key holds the value of its last put, and a key never put keeps its entry |
| `Options.ReplicateChatOptions.constructor` | spring-ai-replicate/src/main/java/org/springaicommunity/replicate/ReplicateChatOptions.java:45-60 | default options have an empty input map and nothing else set |
| `Options.ReplicateChatOptions.FromBuilder` | spring-ai-replicate/src/main/java/org/springaicommunity/replicate/ReplicateChatOptions.java:62-70 | the options take the builder's settings verbatim and a copy of its input map |
| `Options.ReplicateChatOptions.WithParameter` | spring-ai-replicate/src/main/java/org/springaicommunity/replicate/ReplicateChatOptions.java:75-78 | puts one entry into the input map in place, returns the same object, and changes nothing else |
| `Options.ReplicateChatOptions.WithParameters` | spring-ai-replicate/src/main/java/org/springaicommunity/replicate/ReplicateChatOptions.java:83-86 | puts all entries into the input map in place, returns the same object, and changes nothing else |
| `Options.ReplicateChatOptions.SetModel` | spring-ai-replicate/src/main/java/org/springaicommunity/replicate/ReplicateChatOptions.java:158-160 | changes only the model |
| `Options.ReplicateChatOptions.SetVersion` | spring-ai-replicate/src/main/java/org/springaicommunity/replicate/ReplicateChatOptions.java:166-168 | changes only the version |
| `Options.ReplicateChatOptions.SetWebhook` | spring-ai-replicate/src/main/java/org/springaicommunity/replicate/ReplicateChatOptions.java:182-184 | changes only the webhook |
| `Options.ReplicateChatOptions.SetWebhookEventsFilter` | spring-ai-replicate/src/main/java/org/springaicommunity/replicate/ReplicateChatOptions.java:190-192 | changes only the events filter reference |
| `Options.ReplicateChatOptions.SetPreferWait` | spring-ai-replicate/src/main/java/org/springaicommunity/replicate/ReplicateChatOptions.java:198-200 | changes only the preferred wait |
| `Options.ReplicateChatOptions.SetCancelAfter` | spring-ai-replicate/src/main/java/org/springaicommunity/replicate/ReplicateChatOptions.java:206-208 | changes only the cancel-after setting |
| `Options.ReplicateChatOptions.SamplingSettings` | spring-ai-replicate/src/main/java/org/springaicommunity/replicate/ReplicateChatOptions.java:110-149 | frequency penalty, max tokens, presence penalty, stop sequences, temperature, top-k and top-p are always null |
| `Options.ReplicateChatOptions.FromOptions` | spring-ai-replicate/src/main/java/org/springaicommunity/replicate/ReplicateChatOptions.java:95-104 | a new object with the same settings and input contents, sharing the events filter list |
| `Options.ReplicateChatOptions.Copy` | spring-ai-replicate/src/main/java/org/springaicommunity/replicate/ReplicateChatOptions.java:153-156 | a new object with the same settings, as `fromOptions(this)` |
| `Options.Builder.constructor` | spring-ai-replicate/src/main/java/org/springaicommunity/replicate/ReplicateChatOptions.java:212-227 | a new builder has an empty input map and nothing else set |
| `Options.Builder.Model` | spring-ai-replicate/src/main/java/org/springaicommunity/replicate/ReplicateChatOptions.java:229-232 | changes only the model and returns the builder |
| `Options.Builder.Version` | spring-ai-replicate/src/main/java/org/springaicommunity/replicate/ReplicateChatOptions.java:234-237 | changes only the version and returns the builder |
| `Options.Builder.Input` | spring-ai-replicate/src/main/java/org/springaicommunity/replicate/ReplicateChatOptions.java:239-242 | replaces only the input map and returns the builder |
| `Options.Builder.WithParameter` | spring-ai-replicate/src/main/java/org/springaicommunity/replicate/ReplicateChatOptions.java:244-247 | puts one entry into the builder's map and changes nothing else |
| `Options.Builder.WithParameters` | spring-ai-replicate/src/main/java/org/springaicommunity/replicate/ReplicateChatOptions.java:249-252 | puts all entries into the builder's map and changes nothing else |
| `Options.Builder.Webhook` | spring-ai-replicate/src/main/java/org/springaicommunity/replicate/ReplicateChatOptions.java:254-257 | changes only the webhook and returns the builder |
| `Options.Builder.WebhookEventsFilter` | spring-ai-replicate/src/main/java/org/springaicommunity/replicate/ReplicateChatOptions.java:259-262 | changes only the events filter reference and returns the builder |
| `Options.Builder.PreferWait` | spring-ai-replicate/src/main/java/org/springaicommunity/replicate/ReplicateChatOptions.java:264-267 | changes only the preferred wait and returns the builder |
| `Options.Builder.CancelAfter` | spring-ai-replicate/src/main/java/org/springaicommunity/replicate/ReplicateChatOptions.java:269-272 | changes only the cancel-after setting and returns the builder |
| `Options.Builder.Build` | spring-ai-replicate/src/main/java/org/springaicommunity/replicate/ReplicateChatOptions.java:274-276 | a new options object with the builder's settings |
| `Options.BuildWithParameters` | spring-ai-replicate/src/main/java/org/springaicommunity/replicate/ReplicateChatOptions.java:244-247 | a builder fed puts in order builds options whose input is the accumulated map, later puts overwriting earlier ones |
| `Options.CopyHasOwnInput` | spring-ai-replicate/src/main/java/org/springaicommunity/replicate/ReplicateChatOptions.java:98 | adding a parameter to a copy leaves the original unchanged |
| `Options.CopySharesEventsFilter` | spring-ai-replicate/src/main/java/org/springaicommunity/replicate/ReplicateChatOptions.java:100 | an event added to the copy's filter list is seen through the original: the list is shared |
| `Options.BuiltOptionsAreIndependent` | spring-ai-replicate/src/main/java/org/springaicommunity/replicate/ReplicateChatOptions.java:65 | changing a builder after `build()` leaves the built options unchanged |

## Left out

- HTTP transport: client construction, default headers (JSON content type, bearer authentication), the response error handler, and `retrieve`/`toEntity`/`bodyToMono`/`block`. Requests are returned as descriptions and responses are oracle inputs.
- Transport failures while polling or streaming (an HTTP error during a poll, a dropped event-stream connection) are not modelled; only the service's answers are.
- The builder's `restClientBuilder`, `webClientBuilder` and `responseErrorHandler` setters: they only configure transport.
- `uploadFile`: one multipart request with no lifecycle logic.
- Reactor `Flux` laziness, backpressure and consumer cancellation: the stream is a finite sequence of events folded into a sequence of snapshots and an end.
- Decoding of the event-stream wire format: events arrive already split into type and payload.
- Sleeping: the fixed backoff is counted as a number of delays; its duration is not. The retry listener only logs.
- JSON serialisation of the records; `Metrics` is carried but never inspected.
- Percent-encoding of identifiers substituted into URI templates: the model concatenates the id into the path.
- `setInput`: its conversion helper `ReplicateOptionsUtils` is not part of this model.
- Plain getters: the model reads the fields directly. `getInput` hands out the live map in Java, so a caller could mutate it; the model's input is a map value and does not capture that aliasing.
- The `builder.input == null` branch of the options constructor: the builder's input field is never null in the model (it starts as an empty map and is only replaced by a copied map).
- Null map keys and values other than JSON null: keys are strings.
- Null arguments to the options: `withParameters(null)` on the options or its builder (which throws from `putAll`) and `fromOptions(null)` (which throws on dereferencing its argument) cannot be expressed, since maps and objects are never null in the model.
- Polling.WaitForCompletion: requires the oracle to supply at least `maxAttempts` answers, which the real service always can.
- Client.Builder.RetryFixedBackoff: the backoff is held as a whole number of milliseconds, so `Duration.toMillis` truncating a sub-millisecond duration is not modelled; the interval check itself happens in `Build`.
- The seven null-returning sampling getters are one function, `SamplingSettings`, whose result holds all seven values.
- Logging and the `ApiKey` wrapper: the key is a plain string.
