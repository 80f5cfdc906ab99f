# Mistral Go client: streaming, errors, file listing and configuration in Dafny

This project models the logic of the Go client for the Mistral AI API that is
more than plumbing:

- **The event-stream processor** of `streamChatCompletion` (`EventStream`). It
  reads the response body line by line. Lines without the `data: ` prefix are
  skipped. A `[DONE]` payload stops the loop. Every other payload is decoded
  into a chat-completion chunk and handed to the consumer in order. A payload
  that does not decode ends the stream with an error, and the end of input ends
  it cleanly. `Parse` states this as a recursive function. `ScanEvents` is the
  loop itself, with `continue`, `break` and early returns, and it is proved
  equal to `Parse` with cancellation applied (`Deliver`).
- **The streaming session** (`Session`). `CreateChatCompletionStream` forces
  the request's `Stream` flag to true. The status gate lets only 200 through;
  `doRequest` accepts any 2xx. The error responder turns any other status into
  an `APIError` whose status is the response's.
- **`APIError.Error()`** (`Types`).
- **The `ListFiles` request path** (`FilesQuery`): `/v1/files`, then `?` and one
  `key=value&` field per set parameter, in a fixed order.
- **`NewClient` and its functional options** (`Config`). `Client` is a class
  whose methods update its fields in place. `HttpClient` is a separate object
  that can be shared, so `WithTimeout` writes the timeout of whichever HTTP
  client the `Client` points at when it runs.

Several things outside the model are parameters:

- JSON decoding of chunks and of error bodies: the `Decoder` and
  `ErrorDecoder` function parameters.
- What the network does: the `Exchange` value, which says how far the request
  got, and the status, body and lines of the response.
- When the caller cancels: `cancelAt`, the hand-off at which `ctx.Done()` wins
  the `select`.

## Model

| member | source | states |
|---|---|---|
| Types.APIError.Error | types.go:13-18 | With no type the rendering is the message exactly. With a type it is the type, then ": ", then the message, of length \|type\|+2+\|message\|. It always ends with the message. |
| Types.MessageRecoverable | types.go:13-18 | Removing the "<type>: " prefix from the rendering gives back the message, so rendering loses nothing of it. |
| Types.ErrorIgnoresStatusAndCode | types.go:13-18 | Two errors with the same message and type render identically, whatever their status code and code. |
| EventStream.IsDataLine | client.go:321 | A line passes the prefix test exactly when it is "data: " followed by some text. |
| EventStream.EndOutcome | client.go:342-346 | When the lines run out, the stream fails exactly when reading failed, and then with the read error; otherwise it ends cleanly. |
| EventStream.PayloadOf | client.go:321-325 | The payload is what follows the "data: " prefix: prefix + payload is the line. |
| EventStream.Parse | client.go:318-346 | The processor never yields more chunks than there are lines. It fails only with a decode failure or a read error, and with a read error only when reading failed. |
| EventStream.StopIndex | client.go:326-333 | The position of the first payload that stops the loop: every earlier payload decodes and is not "[DONE]"; the one there is "[DONE]" or fails to decode. |
| EventStream.ParseByPayloads | client.go:319-346 | Closed form: the chunks are exactly the decoded payloads before the stop position, in input order, and the outcome is what the stopping payload (or the end of input) dictates. |
| EventStream.ParseDeterminedByPayloads | client.go:320-323 | Two inputs whose data lines carry the same payloads give the same result. |
| EventStream.NonDataLineSkipped | client.go:321-323 | Inserting a line without the "data: " prefix anywhere changes neither the chunks nor the outcome, whatever the line holds. |
| EventStream.SentinelEndsStream | client.go:326-346 | After "data: [DONE]" nothing is decoded or delivered, and the result equals that of input ending cleanly at the sentinel. The model's ending is never consulted after the sentinel, since its scanner records a read failure only after the last line. |
| EventStream.DecodeFailureEndsStream | client.go:330-333 | If data payload k (from 0) fails to decode and all before it decode, exactly the k earlier chunks are delivered and the outcome is a decode failure on that payload, whatever follows, "[DONE]" included. |
| EventStream.DecodeFailureIgnoresRest | client.go:330-333 | Once the processor has failed on a payload, appending lines or changing how the input ends changes nothing. |
| EventStream.AllPayloadsDelivered | client.go:319-346 | When every payload decodes and none is "[DONE]", all are delivered in order and the outcome is the end of input's: clean, or a read error. |
| EventStream.Deliver | client.go:335-338 | Definition of the select at each hand-off: if the context wins at hand-off n while the processor has a chunk n, the first n chunks are delivered and the outcome is the cancellation; otherwise the processor's result stands. Its consequences are proved by DeliverCutsShort. |
| EventStream.DeliverCutsShort | client.go:335-338 | Cancellation only ever cuts the delivered chunks to a prefix and then reports cancellation; without cancellation the run is unchanged. |
| EventStream.ScanEvents | client.go:318-346 | The scanner loop delivers exactly the chunks, and ends with exactly the outcome, of the processor function with cancellation applied. |
| EventStream.TwoChunksThenSentinel | client_test.go:103-193 | Two decodable data lines separated by blank lines and followed by "[DONE]" give both chunks in order and a clean end, however the input ends. |
| EventStream.MalformedPayloadStopsBeforeSentinel | client.go:330-333 | One good chunk, a malformed payload, then "[DONE]": one chunk is delivered and the outcome is the decode failure. |
| Session.HandleErrorResponse | client.go:193-206 | The status code is always the response status. When the body does not decode, the message is the raw body and type and code are empty; otherwise all three come from the decoded body. |
| Session.RawBodyErrorRendersBody | client_test.go:551-557 | An error body that is not structured renders as the body text itself. |
| Session.TypedErrorRendersType | client_test.go:531-550 | A structured error with a type renders as "<type>: <message>". |
| Session.StreamStatusAccepted | client.go:314-316 | Definition of the streaming gate: only status 200 lets the scan start. Compared with doRequest's gate by StreamGateIsStricter. |
| Session.RequestStatusAccepted | client.go:171-173 | Definition of doRequest's gate: any status from 200 to 299 is accepted. Compared with the streaming gate by StreamGateIsStricter. |
| Session.StreamGateIsStricter | client.go:314-316 | Every status the streaming gate accepts, doRequest accepts too (client.go:171); 204 passes doRequest but not the stream. |
| Session.StreamSession | client.go:293-316 | A failure before the response gives no chunk and an error. A status other than 200 gives no chunk and an APIError carrying that status. On 200 the delivered chunks are a prefix of what the processor yields. |
| Session.StreamChatCompletion | client.go:293-347 | A request is handed to `httpClient.Do` exactly when the exchange got that far (a transport failure included), with the caller's model and stream flag. The chunks and outcome are those of the session. |
| Session.CreateChatCompletionStream | client.go:265-281 | The caller's request has its stream flag set to true in place, with the model untouched. Whatever is handed to `httpClient.Do` has stream true. Chunks and outcome are those of the session. |
| Session.CancellationStopsDelivery | client.go:335-338 | When the context wins the select at hand-off n (from 0) and the processor has a chunk n, exactly the first n chunks are delivered and the outcome is the cancellation error. |
| Session.UncancelledSessionIsParse | client.go:314-346 | A 200 session without cancellation delivers exactly what the processor yields. |
| Session.TwoChunkSession | client_test.go:103-193 | The test's 200 session with two chunks and "[DONE]" delivers both chunks in order with no error. |
| FilesQuery.NatToDecimal | client.go:476-479 | The decimal text of a number is non-empty, all digits, and has no leading zero for a positive number. |
| FilesQuery.DecimalRoundTrip | client.go:476-479 | Reading the decimal text back gives the number. |
| FilesQuery.ListFilesPath | client.go:471-487 | The path built with `+=` equals the specified path: "/v1/files" without parameters, else "/v1/files?" followed by the fields of the set parameters. |
| FilesQuery.ParseRenderRoundTrip | client.go:474-486 | Splitting the rendered fields at '&' and '=' gives back the pairs, as long as no key holds '&' or '=' and no value holds '&'. |
| FilesQuery.FilesPathRoundTrip | client.go:471-487 | The path starts with "/v1/files?". If purpose and search hold no '&', its query reads back as exactly the set parameters, in order. |
| FilesQuery.QueryKeys | client.go:475-486 | The keys of the query are exactly, in this order: page if the page is positive, page_size if the page size is positive, purpose if non-empty, search if non-empty. So each key is present if and only if its parameter is set. |
| FilesQuery.PagedListExample | client_test.go:335-357 | Page 2, page size 10 and purpose "fine-tune" give "/v1/files?page=2&page_size=10&purpose=fine-tune&". |
| FilesQuery.UnpagedListExamples | client_test.go:294-333 | No parameters give "/v1/files"; parameters that are all unset give "/v1/files?". |
| FilesQuery.UnescapedValuesCollide | client.go:481-486 | Values are not escaped: purpose "batch&search=x" and (purpose "batch", search "x") are different parameters with the same path. |
| Config.Initial | client.go:117-123 | Before any option, the base URL is "https://api.mistral.ai", the API key is the caller's, and the HTTP client is the one NewClient allocated. |
| Config.Step | options.go:31-88 | An option panics exactly when it is WithTimeout and the current HTTP client is nil. No option changes the API key. |
| Config.Fold | client.go:125-127 | Definition of the option loop on values: the options run in argument order, and the first panic ends the run with no result. Its properties are proved by ApiKeyKept, the Unset*Kept and Last*Wins lemmas and PanicIsFinal. |
| Config.TimeoutAfter | client.go:125-127 | Definition of the timeout one HTTP client object holds after the option loop: each WithTimeout that runs while that object is current overwrites it, and nothing runs after a panic. Its properties are proved by LastTimeoutWins, TimeoutUntouched and PanicIsFinal. |
| Config.Client.constructor | client.go:117-123 | A new Client holds the default base URL, the given API key and the given HTTP client. |
| Config.Client.SetBaseURL | options.go:31-35 | Only the base URL changes, to the given one. |
| Config.Client.SetHTTPClient | options.go:60-64 | The Client now points at the given HTTP client. Base URL and API key are unchanged, and no HTTP client object is written. |
| Config.Client.SetTimeout | options.go:84-88 | Only the current HTTP client object is written, and its timeout becomes the given one. A nil client is reported as the panic. |
| Config.Client.Apply | client.go:125-127 | Running one option changes the Client's fields as Step says, or not at all when it panics. The old current HTTP client gets the timeout TimeoutStep gives. |
| Config.NewClient | client.go:116-130 | The result is null exactly when the option fold panics; otherwise its fields are the fold's result. NewClient's own HTTP client and every HTTP client passed in end with the timeouts TimeoutAfter gives, starting from the 60-second default and their own timeouts. |
| Config.PanicIsFinal | client.go:125-127 | After a panic no later option takes effect and no timeout changes. |
| Config.ApiKeyKept | options.go:31-88 | No sequence of options changes the API key. |
| Config.UnsetBaseURLKept | client.go:117-127 | Without WithBaseURL the base URL stays the starting one, the default in NewClient. |
| Config.UnsetHTTPClientKept | client.go:117-127 | Without WithHTTPClient the Client keeps the HTTP client it started with: WithBaseURL and WithTimeout never repoint it. |
| Config.LastBaseURLWins | client.go:125-127 | The last WithBaseURL in argument order decides the base URL. |
| Config.LastHTTPClientWins | client.go:125-127 | The last WithHTTPClient in argument order decides the Client's HTTP client. |
| Config.LastTimeoutWins | options.go:84-88 | An object that was current at some WithTimeout(t), with no later WithTimeout, ends with timeout t, even if another HTTP client is installed afterwards. |
| Config.TimeoutUntouched | options.go:60-64 | Without WithTimeout no HTTP client's timeout changes, so an installed client keeps its own timeout. |
| Config.NoNilClientNoPanic | options.go:84-88 | Starting from a non-nil HTTP client, options that never install a nil one cannot panic. |
| Config.NilClientThenTimeoutPanics | options.go:84-88 | WithHTTPClient(nil) followed by WithTimeout panics. |
| Config.OptionChainingExample | options_test.go:57-68 | Two WithTimeout options in a row: the second sets the timeout of NewClient's own HTTP client. |
| Config.HTTPClientThenTimeoutExample | options_test.go:70-84 | WithHTTPClient(h) then WithTimeout(t): the Client points at h, and h's own timeout is t. |
| Config.SharedClientAliasing | options.go:84-88 | WithHTTPClient(a), WithTimeout(t), WithHTTPClient(b): the Client points at b, a's timeout is t, and b keeps its own. |
| Config.NewClientWithTimeout | options_test.go:70-84 | NewClient with the caller's HTTP client and a timeout returns a Client pointing at that object, with the default base URL and the given API key. The caller's object now has the new timeout. |

## Left out

- Goroutines, channels and `select` (client.go:268-280, 335-338). Delivery is modelled as an ordered sequence of chunks plus one terminal outcome. Cancellation is the hand-off number at which the context wins, a parameter rather than a race.
- HTTP transport, request headers, closing the response body, and the ignored `io.ReadAll` error in the error responder. A response is given as an `Exchange` value.
- JSON marshalling and unmarshalling of requests, chunks and error bodies. These are decode oracles passed as function parameters. The marshalled request is reduced to the fields the model reads, the model and the stream flag.
- How `bufio.Scanner` splits lines, its buffer limit and its read errors. A response carries its body both as text and as lines already split. A read failure is one abstract ending (`ReadFailed`) after the last line.
- The text wrapped around errors by `fmt.Errorf` ("failed to unmarshal stream chunk: …" and so on). Each error is a constructor of `StreamError`.
- `UploadFile` multipart encoding and `DownloadFile` streaming: library calls and I/O.
- The `doRequest` wrappers (`CreateChatCompletion`, `CreateEmbedding`, `GetFile`, `DeleteFile`, `ListModels`, `GetModel`, `DeleteModel`). They add nothing beyond a path string. Of `doRequest`, only its 2xx status check is modelled (`RequestStatusAccepted`).
- Data fields the logic never reads: floats (temperature, embeddings), usage counts, file metadata.
- `time.Duration` semantics: a timeout is an opaque integer, the default written in nanoseconds.
- EventStream.SentinelEndsStream: a read failure that `bufio.Scanner` had already recorded when it returned the "data: [DONE]" line is reported by the source (client.go:342 is reached after the break), but not by the model, whose scanner records a read failure only after its last line. `EventStream.Parse` and `EventStream.ScanEvents` share this simplification: a break on the sentinel always ends cleanly.
- FilesQuery.NatToDecimal: `%d` of a non-positive page or page size is never reached, because the source writes those fields only when positive.
- Config.NewClient: a Go panic is modelled as a null result, with the timeouts written up to the panic. The panic's unwinding into the caller is not modelled.
