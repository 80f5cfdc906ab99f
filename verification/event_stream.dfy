/**
 * The event-stream line processor of streamChatCompletion (client.go:318-346).
 *
 * The response body arrives as the lines a bufio.Scanner yields, followed by
 * how the scanner stopped (end of input or a read failure). A read failure is
 * taken to be recorded only once those lines have run out, so a loop that
 * breaks on "[DONE]" finds no scanner error. JSON decoding of a
 * chunk is a parameter (`decode`), so every property below holds for any decoder.
 * Cancellation of the context is the hand-off number `cancelAt` at which the
 * `select` of client.go:335-338 takes `ctx.Done()` instead of delivering.
 */
module EventStream {
  import opened Wrappers
  import opened Types

  /** The incremental message of a streamed choice (ChatMessage, types.go:31-37, as a delta). */
  datatype Delta = Delta(role: string, content: string)

  /** ChatCompletionChoice (chat.go:108-126), the fields a streamed chunk uses. */
  datatype Choice = Choice(index: int, delta: Option<Delta>, finishReason: string)

  /** ChatCompletionStreamResponse (chat.go:132-148). */
  datatype Chunk = Chunk(id: string, object: string, created: int, model: string, choices: seq<Choice>)

  /** The error values streamChatCompletion can return (client.go:293-347). */
  datatype StreamError =
    | MarshalError                 // json.Marshal of the request failed
    | RequestError                 // http.NewRequestWithContext failed
    | TransportError               // httpClient.Do failed
    | Api(apiError: APIError)      // non-200 status, built by handleErrorResponse
    | DecodeFailure(payload: string) // a data payload was not a chunk
    | ReadError                    // the scanner stopped on a read failure
    | Cancelled                    // ctx.Err() at a hand-off

  /** How the scanner stopped once its lines ran out (what scanner.Err() then reports). */
  datatype Ending = EndOfInput | ReadFailed

  datatype Outcome = Clean | Failed(err: StreamError)

  /** What the consumer sees: the chunks delivered in order, then the terminal outcome. */
  datatype Run = Run(chunks: seq<Chunk>, outcome: Outcome)

  type Decoder = string -> Option<Chunk>

  const DataPrefix: string := "data: "
  const DoneSentinel: string := "[DONE]"

  /** strings.HasPrefix(line, "data: ") (client.go:321): the line is "data: " followed by something. */
  predicate IsDataLine(line: string)
    ensures IsDataLine(line) <==> exists rest :: line == DataPrefix + rest
  {
    var prefixed := |DataPrefix| <= |line| && line[..|DataPrefix|] == DataPrefix;
    assert prefixed ==> line == DataPrefix + line[|DataPrefix|..];
    prefixed
  }

  /** strings.TrimPrefix(line, "data: ") on a data line (client.go:325). */
  function PayloadOf(line: string): (p: string)
    requires IsDataLine(line)
    ensures DataPrefix + p == line
  {
    line[|DataPrefix|..]
  }

  /** The outcome when the lines run out: scanner.Err() decides (client.go:342-346). */
  function EndOutcome(ending: Ending): (r: Outcome)
    ensures r.Failed? <==> ending == ReadFailed
    ensures r.Failed? ==> r.err == ReadError
  {
    if ending == ReadFailed then Failed(ReadError) else Clean
  }

  /**
   * What the scan loop produces when every hand-off is accepted: non-data lines
   * are skipped, "[DONE]" stops cleanly (the scanner has recorded no read
   * failure while lines remain), a payload that does not decode stops
   * with a decode failure, any other payload is delivered and the scan goes on.
   */
  function Parse(lines: seq<string>, ending: Ending, decode: Decoder): (r: Run)
    ensures |r.chunks| <= |lines|
    ensures r.outcome.Failed? ==> r.outcome.err.DecodeFailure? || r.outcome.err == ReadError
    ensures r.outcome == Failed(ReadError) ==> ending == ReadFailed
    decreases |lines|
  {
    if |lines| == 0 then Run([], EndOutcome(ending))
    else if !IsDataLine(lines[0]) then Parse(lines[1..], ending, decode)
    else
      var payload := PayloadOf(lines[0]);
      if payload == DoneSentinel then Run([], Clean)
      else match decode(payload)
        case None => Run([], Failed(DecodeFailure(payload)))
        case Some(c) =>
          var rest := Parse(lines[1..], ending, decode);
          Run([c] + rest.chunks, rest.outcome)
  }

  /** The payloads of the data lines, in input order. */
  function Payloads(lines: seq<string>): (ps: seq<string>)
    ensures |ps| <= |lines|
    decreases |lines|
  {
    if |lines| == 0 then []
    else if IsDataLine(lines[0]) then [PayloadOf(lines[0])] + Payloads(lines[1..])
    else Payloads(lines[1..])
  }

  /** The index of the first payload that stops the scan: the sentinel or one that does not decode. */
  function StopIndex(ps: seq<string>, decode: Decoder): (k: nat)
    ensures k <= |ps|
    ensures forall j :: 0 <= j < k ==> ps[j] != DoneSentinel && decode(ps[j]).Some?
    ensures k < |ps| ==> ps[k] == DoneSentinel || decode(ps[k]).None?
    decreases |ps|
  {
    if |ps| == 0 || ps[0] == DoneSentinel || decode(ps[0]).None? then 0
    else 1 + StopIndex(ps[1..], decode)
  }

  /** The terminal outcome the first stopping payload gives (or the ending, when none stops). */
  function StopOutcome(ps: seq<string>, k: nat, ending: Ending): Outcome
    requires k <= |ps|
  {
    if k == |ps| then EndOutcome(ending)
    else if ps[k] == DoneSentinel then Clean
    else Failed(DecodeFailure(ps[k]))
  }

  lemma {:induction false} PayloadsAppend(a: seq<string>, b: seq<string>)
    ensures Payloads(a + b) == Payloads(a) + Payloads(b)
    decreases |a|
  {
    if |a| > 0 {
      assert (a + b)[0] == a[0];
      assert (a + b)[1..] == a[1..] + b;
      PayloadsAppend(a[1..], b);
    } else {
      assert a + b == b;
    }
  }

  /**
   * The closed form of the processor on `lines`: the delivered chunks are
   * exactly the decoded payloads before the first stopping payload, in order,
   * and the outcome is what that payload (or the end of input) dictates.
   */
  predicate ClosedForm(lines: seq<string>, ending: Ending, decode: Decoder) {
    var ps := Payloads(lines);
    var k := StopIndex(ps, decode);
    var r := Parse(lines, ending, decode);
    && |r.chunks| == k
    && (forall j :: 0 <= j < k ==> decode(ps[j]) == Some(r.chunks[j]))
    && r.outcome == StopOutcome(ps, k, ending)
  }

  /** A line whose payload is delivered keeps the closed form of the lines after it. */
  lemma ClosedFormDelivered(lines: seq<string>, ending: Ending, decode: Decoder)
    requires |lines| > 0 && IsDataLine(lines[0])
    requires PayloadOf(lines[0]) != DoneSentinel && decode(PayloadOf(lines[0])).Some?
    requires ClosedForm(lines[1..], ending, decode)
    ensures ClosedForm(lines, ending, decode)
  {
    var p := PayloadOf(lines[0]);
    var ps, ps' := Payloads(lines), Payloads(lines[1..]);
    assert ps == [p] + ps';
    assert ps[1..] == ps';
    var r, r' := Parse(lines, ending, decode), Parse(lines[1..], ending, decode);
    var k' := StopIndex(ps', decode);
    assert StopIndex(ps, decode) == 1 + k';
    assert r.chunks == [decode(p).value] + r'.chunks;
    forall j | 0 <= j < 1 + k'
      ensures decode(ps[j]) == Some(r.chunks[j])
    {
      if j > 0 {
        assert ps[j] == ps'[j - 1];
        assert r.chunks[j] == r'.chunks[j - 1];
      }
    }
  }

  /** Any other first line keeps the closed form: it is skipped or it stops the scan. */
  lemma ClosedFormOtherwise(lines: seq<string>, ending: Ending, decode: Decoder)
    requires |lines| > 0
    requires IsDataLine(lines[0]) ==> PayloadOf(lines[0]) == DoneSentinel || decode(PayloadOf(lines[0])).None?
    requires ClosedForm(lines[1..], ending, decode)
    ensures ClosedForm(lines, ending, decode)
  {
    if IsDataLine(lines[0]) {
      assert Payloads(lines)[0] == PayloadOf(lines[0]);
    }
  }

  /** The processor in closed form, for every input. */
  lemma {:induction false} ParseByPayloads(lines: seq<string>, ending: Ending, decode: Decoder)
    ensures ClosedForm(lines, ending, decode)
    decreases |lines|
  {
    if |lines| == 0 {
    } else {
      ParseByPayloads(lines[1..], ending, decode);
      if IsDataLine(lines[0]) && PayloadOf(lines[0]) != DoneSentinel && decode(PayloadOf(lines[0])).Some? {
        ClosedFormDelivered(lines, ending, decode);
      } else {
        ClosedFormOtherwise(lines, ending, decode);
      }
    }
  }

  /** Only the data payloads matter: inputs with the same payloads are processed alike. */
  lemma ParseDeterminedByPayloads(x: seq<string>, y: seq<string>, ending: Ending, decode: Decoder)
    requires Payloads(x) == Payloads(y)
    ensures Parse(x, ending, decode) == Parse(y, ending, decode)
  {
    ParseByPayloads(x, ending, decode);
    ParseByPayloads(y, ending, decode);
    var rx, ry := Parse(x, ending, decode), Parse(y, ending, decode);
    assert rx.chunks == ry.chunks by {
      forall j | 0 <= j < |rx.chunks|
        ensures rx.chunks[j] == ry.chunks[j]
      {
        assert Some(rx.chunks[j]) == decode(Payloads(x)[j]) == Some(ry.chunks[j]);
      }
    }
  }

  /** A line without the "data: " prefix never produces a chunk or an error, whatever it holds (client.go:321-323). */
  lemma NonDataLineSkipped(a: seq<string>, line: string, b: seq<string>, ending: Ending, decode: Decoder)
    requires !IsDataLine(line)
    ensures Parse(a + [line] + b, ending, decode) == Parse(a + b, ending, decode)
  {
    PayloadsAppend(a + [line], b);
    PayloadsAppend(a, [line]);
    PayloadsAppend(a, b);
    assert Payloads([line]) == [];
    ParseDeterminedByPayloads(a + [line] + b, a + b, ending, decode);
  }

  /**
   * "data: [DONE]" ends the stream: nothing after it is decoded or delivered,
   * and the result is the same as if the input had ended cleanly there
   * (client.go:326-328 and 342-346). The ending after the sentinel is never
   * consulted, because in this model the scanner records a read failure only
   * after its last line.
   */
  lemma {:induction false} SentinelEndsStream(a: seq<string>, b: seq<string>, ending: Ending, decode: Decoder)
    ensures Parse(a + [DataPrefix + DoneSentinel] + b, ending, decode) == Parse(a, EndOfInput, decode)
    decreases |a|
  {
    var done := DataPrefix + DoneSentinel;
    assert done[..|DataPrefix|] == DataPrefix;
    assert IsDataLine(done) && PayloadOf(done) == DoneSentinel;
    var all := a + [done] + b;
    if |a| == 0 {
      assert all[0] == done;
    } else {
      assert all[0] == a[0];
      assert all[1..] == a[1..] + [done] + b;
      SentinelEndsStream(a[1..], b, ending, decode);
    }
  }

  /**
   * A payload that fails to decode at data line k (counting from 0) ends the
   * stream with a decode failure after exactly the k earlier chunks, whatever
   * follows it, a trailing "[DONE]" included (client.go:330-333).
   */
  lemma DecodeFailureEndsStream(lines: seq<string>, k: nat, ending: Ending, decode: Decoder)
    requires k < |Payloads(lines)|
    requires forall j :: 0 <= j < k ==> Payloads(lines)[j] != DoneSentinel && decode(Payloads(lines)[j]).Some?
    requires Payloads(lines)[k] != DoneSentinel && decode(Payloads(lines)[k]).None?
    ensures var r := Parse(lines, ending, decode);
            && |r.chunks| == k
            && (forall j :: 0 <= j < k ==> decode(Payloads(lines)[j]) == Some(r.chunks[j]))
            && r.outcome == Failed(DecodeFailure(Payloads(lines)[k]))
  {
    ParseByPayloads(lines, ending, decode);
    var ps := Payloads(lines);
    assert StopIndex(ps, decode) == k;
  }

  /** Once the processor has failed on a payload, later lines and the ending change nothing. */
  lemma {:induction false} DecodeFailureIgnoresRest(a: seq<string>, b: seq<string>, e1: Ending, e2: Ending, decode: Decoder)
    requires Parse(a, e1, decode).outcome.Failed? && Parse(a, e1, decode).outcome.err.DecodeFailure?
    ensures Parse(a + b, e2, decode) == Parse(a, e1, decode)
    decreases |a|
  {
    assert |a| > 0;
    var all := a + b;
    assert all[0] == a[0];
    assert all[1..] == a[1..] + b;
    if !IsDataLine(a[0]) || decode(PayloadOf(a[0])).Some? {
      DecodeFailureIgnoresRest(a[1..], b, e1, e2, decode);
    }
  }

  /**
   * When every data payload decodes and none is the sentinel, all of them are
   * delivered, in input order, and the stream ends as the input does.
   */
  lemma AllPayloadsDelivered(lines: seq<string>, ending: Ending, decode: Decoder)
    requires forall j :: 0 <= j < |Payloads(lines)| ==> Payloads(lines)[j] != DoneSentinel && decode(Payloads(lines)[j]).Some?
    ensures var r := Parse(lines, ending, decode);
            && |r.chunks| == |Payloads(lines)|
            && (forall j :: 0 <= j < |r.chunks| ==> decode(Payloads(lines)[j]) == Some(r.chunks[j]))
            && r.outcome == EndOutcome(ending)
  {
    ParseByPayloads(lines, ending, decode);
  }

  /**
   * The consumer's view once cancellation is taken into account: if the
   * context wins the select at hand-off n before the parse ran out of chunks,
   * exactly the first n chunks were delivered and the outcome is the
   * cancellation error; otherwise the parse result stands.
   */
  function Deliver(run: Run, cancelAt: Option<nat>): Run {
    if cancelAt.Some? && cancelAt.value < |run.chunks| then Run(run.chunks[..cancelAt.value], Failed(Cancelled))
    else run
  }

  /**
   * Cancellation only ever cuts the delivery short: a prefix of the chunks is
   * delivered and, when anything is cut, the outcome is the cancellation.
   */
  lemma DeliverCutsShort(run: Run, cancelAt: Option<nat>)
    ensures var r := Deliver(run, cancelAt);
            && r.chunks <= run.chunks
            && (r.outcome == run.outcome || r.outcome == Failed(Cancelled))
            && (r.chunks != run.chunks ==> r.outcome == Failed(Cancelled))
            && (cancelAt.None? ==> r == run)
  {
  }

  /** `sent` delivered first, then what `run` delivers. */
  function Prepend(sent: seq<Chunk>, run: Run): Run {
    Run(sent + run.chunks, run.outcome)
  }

  /** Whether hand-off number |sent| and later may still be cancelled, i.e. none before it was. */
  predicate NotYetCancelled(sent: seq<Chunk>, cancelAt: Option<nat>) {
    cancelAt.None? || |sent| <= cancelAt.value
  }

  /** What the consumer ends up with, given `sent` already delivered and the lines from i on still to scan. */
  function Pending(sent: seq<Chunk>, lines: seq<string>, i: nat, ending: Ending, decode: Decoder, cancelAt: Option<nat>): Run
    requires i <= |lines|
  {
    Deliver(Prepend(sent, Parse(lines[i..], ending, decode)), cancelAt)
  }

  lemma PendingStart(lines: seq<string>, ending: Ending, decode: Decoder, cancelAt: Option<nat>)
    ensures Pending([], lines, 0, ending, decode, cancelAt) == Deliver(Parse(lines, ending, decode), cancelAt)
  {
    assert lines[0..] == lines;
    assert Prepend([], Parse(lines, ending, decode)) == Parse(lines, ending, decode);
  }

  lemma PendingEnd(sent: seq<Chunk>, lines: seq<string>, ending: Ending, decode: Decoder, cancelAt: Option<nat>)
    requires NotYetCancelled(sent, cancelAt)
    ensures Pending(sent, lines, |lines|, ending, decode, cancelAt) == Run(sent, EndOutcome(ending))
  {
    assert lines[|lines|..] == [];
    assert sent + [] == sent;
  }

  /** A non-data line leaves what is pending unchanged. */
  lemma PendingSkip(sent: seq<Chunk>, lines: seq<string>, i: nat, ending: Ending, decode: Decoder, cancelAt: Option<nat>)
    requires i < |lines| && !IsDataLine(lines[i])
    ensures Pending(sent, lines, i, ending, decode, cancelAt) == Pending(sent, lines, i + 1, ending, decode, cancelAt)
  {
    assert lines[i..][0] == lines[i];
    assert lines[i..][1..] == lines[i + 1..];
  }

  /** The sentinel settles the run: what was sent, and a clean end. */
  lemma PendingSentinel(sent: seq<Chunk>, lines: seq<string>, i: nat, ending: Ending, decode: Decoder, cancelAt: Option<nat>)
    requires i < |lines| && IsDataLine(lines[i]) && PayloadOf(lines[i]) == DoneSentinel
    requires NotYetCancelled(sent, cancelAt)
    ensures Pending(sent, lines, i, ending, decode, cancelAt) == Run(sent, Clean)
  {
    assert lines[i..][0] == lines[i];
    assert sent + [] == sent;
  }

  /** A payload that does not decode settles the run: what was sent, and the decode failure. */
  lemma PendingDecodeFailure(sent: seq<Chunk>, lines: seq<string>, i: nat, ending: Ending, decode: Decoder, cancelAt: Option<nat>)
    requires i < |lines| && IsDataLine(lines[i]) && PayloadOf(lines[i]) != DoneSentinel
    requires decode(PayloadOf(lines[i])).None?
    requires NotYetCancelled(sent, cancelAt)
    ensures Pending(sent, lines, i, ending, decode, cancelAt) == Run(sent, Failed(DecodeFailure(PayloadOf(lines[i]))))
  {
    assert lines[i..][0] == lines[i];
    assert sent + [] == sent;
  }

  /** A decoded chunk either is handed off (and pending moves on) or loses to cancellation. */
  lemma PendingChunk(sent: seq<Chunk>, lines: seq<string>, i: nat, ending: Ending, decode: Decoder, cancelAt: Option<nat>)
    requires i < |lines| && IsDataLine(lines[i]) && PayloadOf(lines[i]) != DoneSentinel
    requires decode(PayloadOf(lines[i])).Some?
    requires NotYetCancelled(sent, cancelAt)
    ensures var c := decode(PayloadOf(lines[i])).value;
            if cancelAt == Some(|sent|) then Pending(sent, lines, i, ending, decode, cancelAt) == Run(sent, Failed(Cancelled))
            else Pending(sent, lines, i, ending, decode, cancelAt) == Pending(sent + [c], lines, i + 1, ending, decode, cancelAt)
  {
    var c := decode(PayloadOf(lines[i])).value;
    var next := Parse(lines[i + 1..], ending, decode);
    assert lines[i..][0] == lines[i];
    assert lines[i..][1..] == lines[i + 1..];
    assert Parse(lines[i..], ending, decode) == Run([c] + next.chunks, next.outcome);
    assert sent + ([c] + next.chunks) == (sent + [c]) + next.chunks;
    assert (sent + [c] + next.chunks)[..|sent|] == sent;
  }

  /** What one more line does to what is pending, case by case as the loop body goes. */
  lemma PendingStep(sent: seq<Chunk>, lines: seq<string>, i: nat, ending: Ending, decode: Decoder, cancelAt: Option<nat>)
    requires i < |lines| && NotYetCancelled(sent, cancelAt)
    ensures var line := lines[i];
            Pending(sent, lines, i, ending, decode, cancelAt)
            == if !IsDataLine(line) then Pending(sent, lines, i + 1, ending, decode, cancelAt)
               else if PayloadOf(line) == DoneSentinel then Run(sent, Clean)
               else if decode(PayloadOf(line)).None? then Run(sent, Failed(DecodeFailure(PayloadOf(line))))
               else if cancelAt == Some(|sent|) then Run(sent, Failed(Cancelled))
               else Pending(sent + [decode(PayloadOf(line)).value], lines, i + 1, ending, decode, cancelAt)
  {
    if !IsDataLine(lines[i]) {
      PendingSkip(sent, lines, i, ending, decode, cancelAt);
    } else if PayloadOf(lines[i]) == DoneSentinel {
      PendingSentinel(sent, lines, i, ending, decode, cancelAt);
    } else if decode(PayloadOf(lines[i])).None? {
      PendingDecodeFailure(sent, lines, i, ending, decode, cancelAt);
    } else {
    }
  }

  /**
   * The scan loop itself (client.go:318-346): one line per iteration,
   * `continue` on a non-data line, `break` on the sentinel, an early return on
   * a decode failure or on cancellation at a hand-off, and the scanner's error
   * checked after the loop. Since a read failure is recorded only after the
   * last line, a break on the sentinel finds none.
   */
  method ScanEvents(lines: seq<string>, ending: Ending, decode: Decoder, cancelAt: Option<nat>)
    returns (sent: seq<Chunk>, outcome: Outcome)
    ensures Run(sent, outcome) == Deliver(Parse(lines, ending, decode), cancelAt)
  {
    ghost var goal := Deliver(Parse(lines, ending, decode), cancelAt);
    sent := [];
    var i := 0;
    var exhausted := true;
    PendingStart(lines, ending, decode, cancelAt);
    while i < |lines|
      invariant 0 <= i <= |lines|
      invariant NotYetCancelled(sent, cancelAt)
      invariant goal == Pending(sent, lines, i, ending, decode, cancelAt)
    {
      PendingStep(sent, lines, i, ending, decode, cancelAt);
      var line := lines[i];
      if !IsDataLine(line) {
        i := i + 1;
        continue;
      }
      var data := PayloadOf(line);
      if data == DoneSentinel {
        exhausted := false;
        break;
      }
      var decoded := decode(data);
      if decoded.None? {
        outcome := Failed(DecodeFailure(data));
        return;
      }
      var chunk := decoded.value;
      if cancelAt == Some(|sent|) {
        outcome := Failed(Cancelled);
        return;
      }
      sent := sent + [chunk];
      i := i + 1;
    }
    if exhausted {
      PendingEnd(sent, lines, ending, decode, cancelAt);
      outcome := if ending == ReadFailed then Failed(ReadError) else Clean;
    } else {
      outcome := Clean;
    }
  }

  /**
   * The two framings of client_test.go:152-161: two chunks, each followed by a
   * blank line, then "data: [DONE]". Both chunks arrive, in order, and the
   * stream ends without error.
   */
  lemma TwoChunksThenSentinel(pa: string, pb: string, a: Chunk, b: Chunk, ending: Ending, decode: Decoder)
    requires decode(pa) == Some(a) && decode(pb) == Some(b)
    requires pa != DoneSentinel && pb != DoneSentinel
    ensures Parse([DataPrefix + pa, "", DataPrefix + pb, "", DataPrefix + DoneSentinel, ""], ending, decode)
            == Run([a, b], Clean)
  {
    var lines := [DataPrefix + pa, "", DataPrefix + pb, "", DataPrefix + DoneSentinel, ""];
    SentinelEndsStream([DataPrefix + pa, "", DataPrefix + pb, ""], [""], ending, decode);
    assert lines == [DataPrefix + pa, "", DataPrefix + pb, ""] + [DataPrefix + DoneSentinel] + [""];
    ParseByPayloads([DataPrefix + pa, "", DataPrefix + pb, ""], EndOfInput, decode);
    assert (DataPrefix + pa)[..|DataPrefix|] == DataPrefix;
    assert (DataPrefix + pb)[..|DataPrefix|] == DataPrefix;
    assert Payloads([DataPrefix + pb, ""]) == [pb];
    assert Payloads([DataPrefix + pa, "", DataPrefix + pb, ""]) == [pa, pb];
  }

  /**
   * A malformed payload between a good chunk and the sentinel: the good chunk
   * is delivered, the error is the decode failure and "[DONE]" is never reached.
   */
  lemma MalformedPayloadStopsBeforeSentinel(pa: string, bad: string, a: Chunk, ending: Ending, decode: Decoder)
    requires decode(pa) == Some(a) && decode(bad).None?
    requires pa != DoneSentinel && bad != DoneSentinel
    ensures Parse([DataPrefix + pa, DataPrefix + bad, DataPrefix + DoneSentinel], ending, decode)
            == Run([a], Failed(DecodeFailure(bad)))
  {
    var lines := [DataPrefix + pa, DataPrefix + bad, DataPrefix + DoneSentinel];
    assert (DataPrefix + pa)[..|DataPrefix|] == DataPrefix;
    assert (DataPrefix + bad)[..|DataPrefix|] == DataPrefix;
    assert lines[1..] == [DataPrefix + bad, DataPrefix + DoneSentinel];
  }
}
