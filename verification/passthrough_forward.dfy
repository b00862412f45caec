/**
 Forwarding a request to an upstream, whatever the upstream does: the events the forward emits, the
 attempts it makes and the attempts it records.
 */
module PassthroughForward {
  import opened Wrappers
  import opened Bytes
  import opened JsonText
  import opened EventStream
  import opened PassthroughCopy

  // ---- What the upstream may do ----

  /** An answer: its status, whether its content type is an event stream, and how its body reads. */
  datatype Answer = Answer(status: int, eventStream: bool, chunks: seq<bytes>, broken: bool)

  /** The request cannot be built and is never sent, or is sent and fails, or is answered. */
  datatype Upstream = Unsendable | Unreachable | Answers(answer: Answer)

  /** `marshals` says that the rewritten request for the second attempt can be encoded. */
  datatype Options = Options(streamRequested: bool, streamIncrementally: bool, jsonMode: bool, marshals: bool)

  /** The JSON coercion of a body, None when it fails, and the usage found in a body. */
  datatype Codec = Codec(coerce: bytes -> Option<bytes>, usageOf: bytes -> Usage)

  // ---- What the forward leaves behind ----

  datatype Event = Started | StreamOpened | Finished(stream: bool, usage: Usage) | Failed(stream: bool)

  /** A capture row: which attempt, the status of its answer or 0, and what was captured. */
  datatype Row = Row(attempt: nat, status: int, result: CaptureResult)

  datatype Reply = Sent(status: int, body: bytes) | Streamed(status: int, body: bytes) | Refused

  // ---- What is to be expected ----

  predicate Succeeded(status: int) {
    200 <= status < 300
  }

  /** Stream opened: only after a 2xx answer. */
  predicate OpensStream(o: Options, first: Upstream) {
    first.Answers? && 200 <= first.answer.status < 300 && (o.streamRequested || first.answer.eventStream)
  }

  predicate CopiesThrough(o: Options, first: Upstream) {
    o.streamIncrementally && OpensStream(o, first)
  }

  /** A second attempt is due: JSON mode, a complete 200 answer, and coercion failed. */
  predicate NeedsRetry(o: Options, first: Upstream, codec: Codec) {
    && o.jsonMode && o.marshals && first.Answers? && first.answer.status == 200 && !first.answer.broken
    && !CopiesThrough(o, first) && codec.coerce(Join(first.answer.chunks)).None?
  }

  predicate IsSent(u: Upstream) {
    !u.Unsendable?
  }

  /** The attempts that are sent. */
  function Attempts(o: Options, first: Upstream, second: Upstream, codec: Codec): (r: seq<Upstream>)
    ensures |r| <= 2
    ensures |r| == 2 <==> NeedsRetry(o, first, codec) && IsSent(second)
  {
    (if IsSent(first) then [first] else []) + (if NeedsRetry(o, first, codec) && IsSent(second) then [second] else [])
  }

  predicate ReadsTo(u: Upstream, status: int) {
    u.Answers? && u.answer.status == status && !u.answer.broken
  }

  predicate Completes(o: Options, first: Upstream, second: Upstream, codec: Codec, accepts: nat) {
    && first.Answers? && 200 <= first.answer.status < 300 && !first.answer.broken
    && (CopiesThrough(o, first) ==> !CopyAll(first.answer.chunks, accepts).refused)
    && (NeedsRetry(o, first, codec) ==> ReadsTo(second, 200))
  }

  /** The body a completed forward replies with when it does not copy through. */
  function ReplyBody(o: Options, first: Upstream, second: Upstream, codec: Codec): bytes
    requires first.Answers? && (NeedsRetry(o, first, codec) ==> second.Answers?)
  {
    var body := Join(if NeedsRetry(o, first, codec) then second.answer.chunks else first.answer.chunks);
    if o.jsonMode && first.answer.status == 200 && codec.coerce(body).Some? then codec.coerce(body).value else body
  }

  /** A body coerced to JSON if it can be, else as it is. */
  function CoercedOr(codec: Codec, body: bytes): bytes {
    if codec.coerce(body).Some? then codec.coerce(body).value else body
  }

  function StatusOf(u: Upstream): int {
    if u.Answers? then u.answer.status else 0
  }

  /** One row for each attempt, in order. */
  predicate RecordsEach(rows: seq<Row>, attempts: seq<Upstream>) {
    |rows| == |attempts| && forall i :: 0 <= i < |rows| ==>
      rows[i].attempt == i && rows[i].status == StatusOf(attempts[i])
  }

  function FromBody(codec: Codec, body: bytes, truncated: bool): CaptureResult {
    CaptureResult(body, |body|, truncated, codec.usageOf(body))
  }

  /** A body captured whole: its bytes, their number, whether it broke off, and the usage found in it. */
  function Whole(codec: Codec, body: bytes, broken: bool): CaptureResult {
    CaptureResult(body, |body|, broken, codec.usageOf(body))
  }

  /** What is captured of an attempt whose answer is read whole, or that has none. */
  function PlainCapture(codec: Codec, u: Upstream): CaptureResult {
    if u.Answers? then Whole(codec, Join(u.answer.chunks), u.answer.broken) else Whole(codec, [], false)
  }

  /** What is captured of a 2xx answer to the first attempt: its stream, or its body as it is replied. */
  ghost function SuccessCapture(o: Options, a: Answer, codec: Codec, accepts: nat, retained: nat): CaptureResult {
    if CopiesThrough(o, Answers(a)) then CopyCapture(a.chunks, a.broken, accepts, retained)
    else
      var coerced := codec.coerce(Join(a.chunks));
      if o.jsonMode && a.status == 200 && !a.broken && coerced.Some? then Whole(codec, coerced.value, false)
      else PlainCapture(codec, Answers(a))
  }

  /** What is captured of the first attempt. The body of an answer below 200 is not read. */
  ghost function FirstCapture(o: Options, first: Upstream, codec: Codec, accepts: nat, retained: nat): CaptureResult {
    if !first.Answers? || first.answer.status < 200 then Whole(codec, [], false)
    else if first.answer.status < 300 then SuccessCapture(o, first.answer, codec, accepts, retained)
    else PlainCapture(codec, first)
  }

  /** The row of the second attempt, if it is sent. */
  function SecondRow(second: Upstream, attempt: nat, codec: Codec): seq<Row> {
    if IsSent(second) then [Row(attempt, StatusOf(second), PlainCapture(codec, second))] else []
  }

  /** The rows of a whole forward. */
  ghost function ExpectedRows(o: Options, first: Upstream, second: Upstream, codec: Codec, accepts: nat,
      retained: nat): seq<Row> {
    (if IsSent(first) then [Row(0, StatusOf(first), FirstCapture(o, first, codec, accepts, retained))] else [])
    + if NeedsRetry(o, first, codec) then SecondRow(second, 1, codec) else []
  }

  /** The event a forward ends with. */
  ghost function LastEvent(o: Options, first: Upstream, second: Upstream, codec: Codec, accepts: nat): Event {
    if !first.Answers? then Failed(o.streamRequested)
    else
      var a := first.answer;
      var stream := o.streamRequested || a.eventStream;
      if Completes(o, first, second, codec, accepts) then
        Finished(stream, if CopiesThrough(o, first) then StreamUsage(Join(a.chunks))
                         else codec.usageOf(ReplyBody(o, first, second, codec)))
      else if CopiesThrough(o, first) then Failed(true)
      else if NeedsRetry(o, first, codec) then
        Failed(o.streamRequested || (second.Answers? && !second.answer.broken && second.answer.eventStream))
      else Failed(if a.broken && a.status >= 200 then o.streamRequested else stream)
  }

  /** All events of a forward, in order. */
  ghost function ExpectedEvents(o: Options, first: Upstream, second: Upstream, codec: Codec, accepts: nat): seq<Event> {
    [Started] + (if OpensStream(o, first) then [StreamOpened] else []) + [LastEvent(o, first, second, codec, accepts)]
  }

  /** What the client gets: a stream as far as it was copied, the body of a completed forward, or an error. */
  function ExpectedReply(o: Options, first: Upstream, second: Upstream, codec: Codec, accepts: nat): Reply {
    if CopiesThrough(o, first) then Streamed(first.answer.status, CopyAll(first.answer.chunks, accepts).written)
    else if Completes(o, first, second, codec, accepts) then
      Sent(first.answer.status, ReplyBody(o, first, second, codec))
    else Refused
  }

  datatype RetryFailure = NoAnswer | BadAnswer(status: int, eventStream: bool)

  /** Why a second attempt failed: no whole answer, or one with another status. */
  predicate Blames(failure: RetryFailure, second: Upstream) {
    if second.Answers? && !second.answer.broken
    then failure == BadAnswer(second.answer.status, second.answer.eventStream)
    else failure == NoAnswer
  }

  /** A forward that completes by copying has copied everything. */
  lemma CompletedCopyIsWhole(o: Options, first: Upstream, second: Upstream, codec: Codec, accepts: nat)
    requires Completes(o, first, second, codec, accepts) && CopiesThrough(o, first)
    ensures ExpectedReply(o, first, second, codec, accepts) == Streamed(first.answer.status, Join(first.answer.chunks))
    ensures LastEvent(o, first, second, codec, accepts).usage == StreamUsage(Join(first.answer.chunks))
  {
    hide StreamUsage;
    CopiesInOrder(first.answer.chunks, accepts);
  }

  /** The one row of an answer that is neither below 200 nor a success: what was read of its body. */
  lemma RejectedRow(o: Options, a: Answer, second: Upstream, codec: Codec, accepts: nat, retained: nat)
    requires a.status >= 300
    ensures
      var rows, body := ExpectedRows(o, Answers(a), second, codec, accepts, retained), Join(a.chunks);
      && |rows| == 1 && rows[0].attempt == 0 && rows[0].status == a.status
      && rows[0].result.body == body && rows[0].result.totalBytes == |body|
      && rows[0].result.truncated == a.broken && rows[0].result.usage == codec.usageOf(body)
  {
  }

  /** The row of a body that was read whole and replied: the body the client got. */
  lemma RepliedRow(o: Options, a: Answer, second: Upstream, codec: Codec, accepts: nat, retained: nat)
    requires Completes(o, Answers(a), second, codec, accepts) && !CopiesThrough(o, Answers(a))
    requires !NeedsRetry(o, Answers(a), codec)
    ensures
      var rows := ExpectedRows(o, Answers(a), second, codec, accepts, retained);
      var reply := ExpectedReply(o, Answers(a), second, codec, accepts);
      && |rows| == 1 && rows[0].attempt == 0 && rows[0].status == a.status
      && reply == Sent(a.status, rows[0].result.body) && rows[0].result.totalBytes == |reply.body|
      && !rows[0].result.truncated && rows[0].result.usage == codec.usageOf(reply.body)
  {
  }

  /** The rows of a retried forward: both bodies as the upstream sent them, none where there was no answer. */
  lemma RetriedRows(o: Options, a: Answer, second: Upstream, codec: Codec, accepts: nat, retained: nat)
    requires NeedsRetry(o, Answers(a), codec) && IsSent(second)
    ensures
      var rows := ExpectedRows(o, Answers(a), second, codec, accepts, retained);
      var body := if second.Answers? then Join(second.answer.chunks) else [];
      && |rows| == 2 && rows[0].attempt == 0 && rows[1].attempt == 1
      && rows[0].status == 200 && rows[1].status == (if second.Answers? then second.answer.status else 0)
      && rows[0].result.body == Join(a.chunks) && rows[0].result.totalBytes == |Join(a.chunks)|
      && !rows[0].result.truncated && rows[0].result.usage == codec.usageOf(Join(a.chunks))
      && rows[1].result.body == body && rows[1].result.totalBytes == |body|
      && rows[1].result.truncated == (second.Answers? && second.answer.broken)
      && rows[1].result.usage == codec.usageOf(body)
  {
  }

  /** The row of a stream: its start up to the limit, its length as far as it was read, and its usage. */
  lemma StreamedRow(o: Options, a: Answer, second: Upstream, codec: Codec, accepts: nat, retained: nat)
    requires CopiesThrough(o, Answers(a))
    ensures
      var rows, c := ExpectedRows(o, Answers(a), second, codec, accepts, retained), CopyAll(a.chunks, accepts);
      && |rows| == 1 && rows[0].attempt == 0 && rows[0].status == a.status
      && rows[0].result.body == (if |c.read| <= retained then c.read else c.read[..retained])
      && rows[0].result.totalBytes == |c.read| && rows[0].result.usage == StreamUsage(c.read)
      && (rows[0].result.truncated <==> |c.read| > retained || c.refused || a.broken)
  {
    hide StreamUsage, CopyAll;
  }

  /** Without a success: one failed event, an error, and a row for the attempt if it was sent. */
  lemma NoSuccess(o: Options, first: Upstream, second: Upstream, codec: Codec, accepts: nat, retained: nat)
    requires first.Answers? ==> !Succeeded(first.answer.status)
    ensures ExpectedEvents(o, first, second, codec, accepts) == [Started, LastEvent(o, first, second, codec, accepts)]
    ensures LastEvent(o, first, second, codec, accepts) ==
      Failed(o.streamRequested || (first.Answers? && (first.answer.status < 200 || !first.answer.broken)
                                   && first.answer.eventStream))
    ensures ExpectedReply(o, first, second, codec, accepts) == Refused
    ensures Attempts(o, first, second, codec) == if IsSent(first) then [first] else []
    ensures ExpectedRows(o, first, second, codec, accepts, retained) ==
      if !IsSent(first) then []
      else if !first.Answers? || first.answer.status < 200 then [Row(0, StatusOf(first), Whole(codec, [], false))]
      else [Row(0, first.answer.status, PlainCapture(codec, first))]
  {
    hide StreamUsage, CopyAll, ReplyBody;
    assert [Started] + [] + [LastEvent(o, first, second, codec, accepts)]
        == [Started, LastEvent(o, first, second, codec, accepts)];
  }

  /** A success read whole: how it ends. */
  lemma ReadWhole(o: Options, a: Answer, second: Upstream, codec: Codec, accepts: nat)
    requires Succeeded(a.status) && !CopiesThrough(o, Answers(a))
    ensures
      var first, stream := Answers(a), o.streamRequested || a.eventStream;
      var e, reply := LastEvent(o, first, second, codec, accepts), ExpectedReply(o, first, second, codec, accepts);
      && (a.broken ==> e == Failed(o.streamRequested) && reply == Refused && !NeedsRetry(o, first, codec))
      && (!a.broken && NeedsRetry(o, first, codec) && !ReadsTo(second, 200) ==>
            && e == Failed(o.streamRequested || (second.Answers? && !second.answer.broken && second.answer.eventStream))
            && reply == Refused)
      && (!a.broken && (NeedsRetry(o, first, codec) ==> ReadsTo(second, 200)) ==>
            var body := ReplyBody(o, first, second, codec);
            e == Finished(stream, codec.usageOf(body)) && reply == Sent(a.status, body))
  {
    hide StreamUsage, CopyAll, ReplyBody;
  }

  class Forwarder {
    const recording: bool
    const maxBodyBytes: nat
    const codec: Codec
    var events: seq<Event>
    var sent: seq<Upstream>
    var rows: seq<Row>
    var reply: Option<Reply>

    constructor (recording: bool, maxBodyBytes: nat, codec: Codec)
      ensures this.recording == recording && this.maxBodyBytes == maxBodyBytes && this.codec == codec
      ensures events == [] && sent == [] && rows == [] && reply == None
    {
      this.recording := recording;
      this.maxBodyBytes := maxBodyBytes;
      this.codec := codec;
      events := [];
      sent := [];
      rows := [];
      reply := None;
    }

    /** Every attempt sent so far has its row. */
    ghost predicate Recorded()
      reads `rows, `sent
    {
      if recording then RecordsEach(rows, sent) else rows == []
    }

    /** Every attempt but the last has its row. */
    ghost predicate AwaitsRow()
      reads `rows, `sent
    {
      && |sent| > 0 && sent[|sent| - 1].Answers?
      && if recording then RecordsEach(rows, sent[..|sent| - 1]) else rows == []
    }

    /** Rows are kept only while recording. */
    function Kept(more: seq<Row>): seq<Row> {
      if recording then more else []
    }

    method Record(attempt: nat, status: int, result: CaptureResult)
      modifies `rows
      ensures rows == old(rows) + Kept([Row(attempt, status, result)])
    {
      if recording {
        rows := rows + [Row(attempt, status, result)];
      }
    }

    /** Records the answer of the latest attempt. */
    method RecordAnswer(status: int, result: CaptureResult)
      requires AwaitsRow() && status == sent[|sent| - 1].answer.status
      modifies `rows
      ensures Recorded() && rows == old(rows) + Kept([Row(|sent| - 1, status, result)])
    {
      Record(|sent| - 1, status, result);
    }

    /** Sends one attempt. An attempt that fails on the way is recorded at once. */
    method Open(upstream: Upstream) returns (answer: Option<Answer>)
      requires Recorded()
      modifies `sent, `rows
      ensures sent == if IsSent(upstream) then old(sent) + [upstream] else old(sent)
      ensures upstream.Answers? ==> answer == Some(upstream.answer) && AwaitsRow() && rows == old(rows)
      ensures !upstream.Answers? ==>
        answer == None && Recorded() && rows == old(rows) + Kept(SecondRow(upstream, |old(sent)|, codec))
    {
      if upstream.Unsendable? {
        return None;
      }
      ghost var before := sent;
      sent := sent + [upstream];
      assert sent[..|sent| - 1] == before;
      if upstream.Unreachable? {
        Record(|sent| - 1, 0, FromBody(codec, [], false));
        return None;
      }
      return Some(upstream.answer);
    }

    // ---- Responding ----

    method RespondTransportError(streamRequested: bool)
      modifies `events, `reply
      ensures events == old(events) + [Failed(streamRequested)] && reply == Some(Refused)
    {
      events := events + [Failed(streamRequested)];
      reply := Some(Refused);
    }

    method RespondUpstreamError(stream: bool)
      modifies `events, `reply
      ensures events == old(events) + [Failed(stream)] && reply == Some(Refused)
    {
      reply := Some(Refused);
      events := events + [Failed(stream)];
    }

    method RespondRejected(answer: Answer, o: Options)
      requires AwaitsRow() && sent[|sent| - 1].answer == answer
      modifies `events, `reply, `rows
      ensures Recorded() && reply == Some(Refused)
      ensures events == old(events) + [Failed(o.streamRequested || (!answer.broken && answer.eventStream))]
      ensures rows == old(rows) + Kept([Row(|sent| - 1, answer.status, PlainCapture(codec, Answers(answer)))])
    {
      var body := Join(answer.chunks);
      RecordAnswer(answer.status, FromBody(codec, body, answer.broken));
      if answer.broken {
        RespondTransportError(o.streamRequested);
      } else {
        RespondUpstreamError(o.streamRequested || answer.eventStream);
      }
    }

    method RespondRetryFailure(failure: RetryFailure, o: Options)
      modifies `events, `reply
      ensures events == old(events) + [Failed(o.streamRequested || (failure.BadAnswer? && failure.eventStream))]
      ensures reply == Some(Refused)
    {
      match failure {
        case NoAnswer => RespondTransportError(o.streamRequested);
        case BadAnswer(_, eventStream) => RespondUpstreamError(o.streamRequested || eventStream);
      }
    }

    // ---- The second attempt ----

    /** Sends the second attempt, once the first is recorded. */
    method Retry(first: Answer, second: Upstream) returns (body: bytes, failure: Option<RetryFailure>)
      requires AwaitsRow() && sent[|sent| - 1].answer == first && first.status == 200 && !first.broken
      modifies `sent, `rows
      ensures Recorded() && sent == if IsSent(second) then old(sent) + [second] else old(sent)
      ensures rows == old(rows) + Kept([Row(|old(sent)| - 1, 200, PlainCapture(codec, Answers(first)))]
                                       + SecondRow(second, |old(sent)|, codec))
      ensures failure.None? <==> ReadsTo(second, 200)
      ensures failure.None? ==> body == CoercedOr(codec, Join(second.answer.chunks))
      ensures failure.Some? ==> Blames(failure.value, second)
    {
      hide Join, Recorded, AwaitsRow, CoercedOr;
      body := Join(first.chunks);
      RecordAnswer(first.status, FromBody(codec, body, false));
      var answer := Open(second);
      if answer.None? {
        return body, Some(NoAnswer);
      }
      var again := Join(answer.value.chunks);
      RecordAnswer(answer.value.status, FromBody(codec, again, answer.value.broken));
      if answer.value.broken {
        return body, Some(NoAnswer);
      }
      if answer.value.status != 200 {
        return again, Some(BadAnswer(answer.value.status, answer.value.eventStream));
      }
      return CoercedOr(codec, again), None;
    }

    method CoerceOrRetry(first: Answer, second: Upstream, o: Options)
      returns (body: bytes, recorded: bool, failure: Option<RetryFailure>)
      requires AwaitsRow() && sent[|sent| - 1].answer == first && first.status == 200
      requires o.jsonMode && !first.broken && !CopiesThrough(o, Answers(first))
      modifies `sent, `rows
      ensures sent == if NeedsRetry(o, Answers(first), codec) && IsSent(second) then old(sent) + [second] else old(sent)
      ensures recorded == NeedsRetry(o, Answers(first), codec)
      ensures if recorded then Recorded() else AwaitsRow() && rows == old(rows)
      ensures recorded ==> rows == old(rows) + Kept([Row(|old(sent)| - 1, 200, PlainCapture(codec, Answers(first)))]
                                                    + SecondRow(second, |old(sent)|, codec))
      ensures failure.None? <==> (NeedsRetry(o, Answers(first), codec) ==> ReadsTo(second, 200))
      ensures failure.None? ==> body == ReplyBody(o, Answers(first), second, codec)
      ensures failure.Some? ==> Blames(failure.value, second)
    {
      hide Join, Recorded, AwaitsRow, SecondRow, PlainCapture;
      var firstBody := Join(first.chunks);
      var coerced := codec.coerce(firstBody);
      if coerced.Some? {
        return coerced.value, false, None;
      }
      if !o.marshals {
        return firstBody, false, None;
      }
      body, failure := Retry(first, second);
      recorded := true;
    }

    // ---- The forward ----

    /** Copies a stream to the client while it is read. */
    method CopyThrough(answer: Answer, o: Options, accepts: nat)
      requires AwaitsRow() && sent[|sent| - 1].answer == answer
      modifies `events, `reply, `rows
      ensures Recorded()
      ensures
        var c := CopyAll(answer.chunks, accepts);
        && events == old(events) + [if c.refused || answer.broken then Failed(true)
                                    else Finished(o.streamRequested || answer.eventStream,
                                      StreamUsage(Join(answer.chunks)))]
        && reply == Some(Streamed(answer.status, c.written))
        && rows == old(rows) + Kept([Row(|sent| - 1, answer.status,
          CopyCapture(answer.chunks, answer.broken, accepts, maxBodyBytes))])
    {
      hide StreamUsage, CopyAll;
      var retained := if recording then maxBodyBytes else 0;
      var result, ok, written := CopyPassthroughResponse(answer.chunks, answer.broken, accepts, retained);
      RecordAnswer(answer.status, result);
      reply := Some(Streamed(answer.status, written));
      CopiesInOrder(answer.chunks, accepts);
      if !ok {
        events := events + [Failed(true)];
        return;
      }
      events := events + [Finished(o.streamRequested || answer.eventStream, result.usage)];
    }

    /** Reads the whole answer, then replies. */
    method ReadThenReply(answer: Answer, second: Upstream, o: Options, ghost accepts: nat)
      requires AwaitsRow() && sent[|sent| - 1].answer == answer
      requires Succeeded(answer.status) && !CopiesThrough(o, Answers(answer))
      modifies `events, `reply, `rows, `sent
      ensures Recorded()
      ensures sent == if NeedsRetry(o, Answers(answer), codec) && IsSent(second) then
        old(sent) + [second] else old(sent)
      ensures events == old(events) + [LastEvent(o, Answers(answer), second, codec, accepts)]
      ensures reply == Some(ExpectedReply(o, Answers(answer), second, codec, accepts))
      ensures rows == old(rows) + Kept([Row(|old(sent)| - 1, answer.status, SuccessCapture(o, answer, codec, 0, 0))]
                                       + if NeedsRetry(o, Answers(answer), codec) then
                                         SecondRow(second, |old(sent)|, codec) else [])
    {
      hide Join, Recorded, AwaitsRow, SecondRow, CopyCapture, CopyAll, StreamUsage, LastEvent, ExpectedReply;
      ReadWhole(o, answer, second, codec, accepts);
      var body := Join(answer.chunks);
      if answer.broken {
        RecordAnswer(answer.status, FromBody(codec, body, true));
        RespondTransportError(o.streamRequested);
        return;
      }
      if o.jsonMode && answer.status == 200 {
        var recorded, failure;
        body, recorded, failure := CoerceOrRetry(answer, second, o);
        if failure.Some? {
          RespondRetryFailure(failure.value, o);
          return;
        }
        if !recorded {
          RecordAnswer(answer.status, FromBody(codec, body, false));
        }
      } else {
        RecordAnswer(answer.status, FromBody(codec, body, false));
      }
      reply := Some(Sent(answer.status, body));
      events := events + [Finished(o.streamRequested || answer.eventStream, codec.usageOf(body))];
    }

    /** What a 2xx answer leads to. */
    method RespondToSuccess(a: Answer, second: Upstream, o: Options, accepts: nat)
      requires AwaitsRow() && sent == [Answers(a)] && rows == [] && Succeeded(a.status)
      modifies this
      ensures events == old(events) + (if OpensStream(o, Answers(a)) then [StreamOpened] else [])
                        + [LastEvent(o, Answers(a), second, codec, accepts)]
      ensures reply == Some(ExpectedReply(o, Answers(a), second, codec, accepts))
      ensures sent == Attempts(o, Answers(a), second, codec) && Recorded()
      ensures rows == Kept(ExpectedRows(o, Answers(a), second, codec, accepts, maxBodyBytes))
    {
      hide StreamUsage, CopyAll, ReplyBody;
      var streamOpened := o.streamRequested || a.eventStream;
      if streamOpened {
        events := events + [StreamOpened];
      }
      if o.streamIncrementally && streamOpened {
        CopiesInOrder(a.chunks, accepts);
        CopyThrough(a, o, accepts);
        return;
      }
      ReadThenReply(a, second, o, accepts);
    }

    /**
     For every behaviour of the upstream and of the client: one started event first, one terminal
     event last, at most a stream-opened event in between, at most two attempts, and one row for
     every attempt that was sent, holding what was captured of it.
     */
    method Forward(first: Upstream, second: Upstream, o: Options, accepts: nat)
      requires events == [] && sent == [] && rows == []
      modifies this
      ensures events == ExpectedEvents(o, first, second, codec, accepts)
      ensures reply == Some(ExpectedReply(o, first, second, codec, accepts))
      ensures sent == Attempts(o, first, second, codec) && Recorded()
      ensures rows == Kept(ExpectedRows(o, first, second, codec, accepts, maxBodyBytes))
    {
      hide StreamUsage, CopyAll, ReplyBody, LastEvent, ExpectedReply, ExpectedRows, Attempts;
      if !first.Answers? || !Succeeded(first.answer.status) {
        NoSuccess(o, first, second, codec, accepts, maxBodyBytes);
      }
      events := events + [Started];
      var answer := Open(first);
      if answer.None? {
        RespondTransportError(o.streamRequested);
        return;
      }
      var a := answer.value;
      if a.status < 200 {
        RecordAnswer(a.status, FromBody(codec, [], false));
        RespondUpstreamError(o.streamRequested || a.eventStream);
        return;
      }
      if a.status >= 300 {
        RespondRejected(a, o);
        return;
      }
      RespondToSuccess(a, second, o, accepts);
    }
  }
}
