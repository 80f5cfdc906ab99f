/**
 * One streaming chat-completion session: CreateChatCompletionStream and the
 * steps of streamChatCompletion around the scan loop (client.go:265-347),
 * with the error responder the streaming and plain request paths share
 * (client.go:193-206).
 *
 * What the network does is a parameter: an `Exchange` says how far the
 * request got and, when a response arrived, its status, its body as text
 * (what io.ReadAll returns) and its body as scanner lines.
 */
module Session {
  import opened Wrappers
  import opened Types
  import opened EventStream

  /** The fields a structured error body can carry (the JSON names of APIError, types.go:8-10). */
  datatype ErrorBody = ErrorBody(message: string, errorType: string, code: string)

  /** json.Unmarshal of an error body into an APIError, as an oracle. */
  type ErrorDecoder = string -> Option<ErrorBody>

  /**
   * handleErrorResponse (client.go:193-206): the status always comes from the
   * response; the message, type and code come from the decoded body, or the
   * raw body becomes the message when it does not decode.
   */
  function HandleErrorResponse(status: int, body: string, decodeError: ErrorDecoder): (e: APIError)
    ensures e.statusCode == status
    ensures decodeError(body).None? ==> e.message == body && e.errorType == "" && e.code == ""
    ensures decodeError(body).Some? ==>
              && e.message == decodeError(body).value.message
              && e.errorType == decodeError(body).value.errorType
              && e.code == decodeError(body).value.code
  {
    match decodeError(body)
    case None => APIError(status, body, "", "")
    case Some(b) => APIError(status, b.message, b.errorType, b.code)
  }

  /** A body that is not a structured error renders as itself (client_test.go:551-557). */
  lemma RawBodyErrorRendersBody(status: int, body: string, decodeError: ErrorDecoder)
    requires decodeError(body).None?
    ensures HandleErrorResponse(status, body, decodeError).Error() == body
  {
  }

  /** A structured error with a type renders as "<type>: <message>" (client_test.go:531-550). */
  lemma TypedErrorRendersType(status: int, body: string, decodeError: ErrorDecoder)
    requires decodeError(body).Some? && decodeError(body).value.errorType != ""
    ensures var b := decodeError(body).value;
            HandleErrorResponse(status, body, decodeError).Error() == b.errorType + ": " + b.message
  {
  }

  const StatusOK: int := 200

  /** The streaming path goes on only with status 200 exactly (client.go:314). */
  predicate StreamStatusAccepted(status: int) {
    status == StatusOK
  }

  /** The plain request path doRequest goes on with any 2xx status (client.go:171). */
  predicate RequestStatusAccepted(status: int) {
    200 <= status < 300
  }

  /** The streaming gate is strictly narrower: 204 No Content passes doRequest but not the stream. */
  lemma StreamGateIsStricter(status: int)
    ensures StreamStatusAccepted(status) ==> RequestStatusAccepted(status)
    ensures status == 204 ==> RequestStatusAccepted(status) && !StreamStatusAccepted(status)
  {
  }

  /** How far one request got, and what came back. */
  datatype Exchange =
    | MarshalFailed        // json.Marshal(req) failed (client.go:294-297)
    | RequestFailed        // http.NewRequestWithContext failed (client.go:299-302)
    | TransportFailed      // httpClient.Do failed (client.go:308-311)
    | Responded(status: int, body: string, lines: seq<string>, ending: Ending)

  /** The request fields as marshalled onto the wire. */
  datatype WireRequest = WireRequest(model: string, stream: bool)

  /** The caller's ChatCompletionRequest (chat.go:7-78), the fields the session reads or writes. */
  class ChatCompletionRequest {
    var model: string
    var stream: bool

    constructor (model: string, stream: bool)
      ensures this.model == model && this.stream == stream
    {
      this.model := model;
      this.stream := stream;
    }
  }

  /**
   * The consumer's view of one session: no chunk at all before a 200
   * response, the error responder's APIError on any other status, and the
   * event-stream processor (cut short by cancellation) on 200.
   */
  function StreamSession(exchange: Exchange, decode: Decoder, decodeError: ErrorDecoder, cancelAt: Option<nat>): (r: Run)
    ensures !exchange.Responded? ==> r.chunks == [] && r.outcome.Failed?
    ensures exchange.Responded? && !StreamStatusAccepted(exchange.status) ==>
              && r.chunks == []
              && r.outcome.Failed? && r.outcome.err.Api?
              && r.outcome.err.apiError.statusCode == exchange.status
    ensures exchange.Responded? && StreamStatusAccepted(exchange.status) ==>
              r.chunks <= Parse(exchange.lines, exchange.ending, decode).chunks
  {
    match exchange
    case MarshalFailed => Run([], Failed(MarshalError))
    case RequestFailed => Run([], Failed(RequestError))
    case TransportFailed => Run([], Failed(TransportError))
    case Responded(status, body, lines, ending) =>
      if !StreamStatusAccepted(status) then Run([], Failed(Api(HandleErrorResponse(status, body, decodeError))))
      else
        DeliverCutsShort(Parse(lines, ending, decode), cancelAt);
        Deliver(Parse(lines, ending, decode), cancelAt)
  }

  /**
   * streamChatCompletion (client.go:293-347): marshal, build, send, check the
   * status, then run the scan loop. `wire` is the request handed to
   * `httpClient.Do`, when the session got that far; on a transport failure it
   * may never have reached the server.
   */
  method StreamChatCompletion(req: ChatCompletionRequest, exchange: Exchange, decode: Decoder,
                              decodeError: ErrorDecoder, cancelAt: Option<nat>)
    returns (wire: Option<WireRequest>, sent: seq<Chunk>, outcome: Outcome)
    ensures wire == if exchange.TransportFailed? || exchange.Responded? then Some(WireRequest(req.model, req.stream)) else None
    ensures Run(sent, outcome) == StreamSession(exchange, decode, decodeError, cancelAt)
  {
    wire := None;
    sent := [];
    if exchange.MarshalFailed? {
      outcome := Failed(MarshalError);
      return;
    }
    var body := WireRequest(req.model, req.stream);
    if exchange.RequestFailed? {
      outcome := Failed(RequestError);
      return;
    }
    wire := Some(body);
    if exchange.TransportFailed? {
      outcome := Failed(TransportError);
      return;
    }
    if !StreamStatusAccepted(exchange.status) {
      outcome := Failed(Api(HandleErrorResponse(exchange.status, exchange.body, decodeError)));
      return;
    }
    sent, outcome := ScanEvents(exchange.lines, exchange.ending, decode, cancelAt);
  }

  /**
   * CreateChatCompletionStream (client.go:265-281): sets the caller's
   * request to streaming, in place, and runs the session; the two channels
   * become the delivered chunks and the terminal outcome.
   */
  method CreateChatCompletionStream(req: ChatCompletionRequest, exchange: Exchange, decode: Decoder,
                                    decodeError: ErrorDecoder, cancelAt: Option<nat>)
    returns (wire: Option<WireRequest>, sent: seq<Chunk>, outcome: Outcome)
    modifies req
    ensures req.stream && req.model == old(req.model)
    ensures wire.Some? ==> wire.value == WireRequest(req.model, true)
    ensures Run(sent, outcome) == StreamSession(exchange, decode, decodeError, cancelAt)
  {
    req.stream := true;
    wire, sent, outcome := StreamChatCompletion(req, exchange, decode, decodeError, cancelAt);
  }

  /**
   * The context wins the select at hand-off n (counting from 0), while the
   * processor still has a chunk n to hand off: exactly the chunks at positions
   * 0 to n-1 reach the consumer, and the terminal error is the cancellation.
   * Which case of the select is taken when both are ready is Go's random
   * choice; `cancelAt` records the result of that choice.
   */
  lemma CancellationStopsDelivery(body: string, lines: seq<string>, ending: Ending, decode: Decoder,
                                  decodeError: ErrorDecoder, n: nat)
    requires n < |Parse(lines, ending, decode).chunks|
    ensures var r := StreamSession(Responded(StatusOK, body, lines, ending), decode, decodeError, Some(n));
            && r.chunks == Parse(lines, ending, decode).chunks[..n]
            && r.outcome == Failed(Cancelled)
  {
  }

  /** Without cancellation a 200 session delivers exactly what the processor produces. */
  lemma UncancelledSessionIsParse(body: string, lines: seq<string>, ending: Ending, decode: Decoder,
                                  decodeError: ErrorDecoder)
    ensures StreamSession(Responded(StatusOK, body, lines, ending), decode, decodeError, None)
            == Parse(lines, ending, decode)
  {
  }

  /**
   * The session of client_test.go:103-193: status 200, two chunks each
   * followed by a blank line, then the sentinel; both chunks arrive in order
   * and the error channel stays empty.
   */
  lemma TwoChunkSession(body: string, pa: string, pb: string, a: Chunk, b: Chunk, decode: Decoder,
                        decodeError: ErrorDecoder)
    requires decode(pa) == Some(a) && decode(pb) == Some(b)
    requires pa != DoneSentinel && pb != DoneSentinel
    ensures StreamSession(Responded(StatusOK, body,
                                    [DataPrefix + pa, "", DataPrefix + pb, "", DataPrefix + DoneSentinel, ""],
                                    EndOfInput),
                          decode, decodeError, None)
            == Run([a, b], Clean)
  {
    TwoChunksThenSentinel(pa, pb, a, b, EndOfInput, decode);
  }
}
