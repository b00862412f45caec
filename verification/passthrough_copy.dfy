/**
 Copying an upstream answer to the client chunk by chunk, while a capped buffer keeps the start of
 it and the usage parser watches every byte.
 */
module PassthroughCopy {
  import opened Bytes
  import opened JsonText
  import opened EventStream
  import opened SseUsage

  /** The first n bytes, or all of them. */
  function First(s: bytes, n: nat): bytes {
    if |s| <= n then s else s[..n]
  }

  class CappedBuffer {
    const limit: nat
    var buf: bytes
    var truncated: bool
    var totalRead: nat
    ghost var written: bytes

    ghost predicate Valid()
      reads this
    {
      buf == First(written, limit) && totalRead == |written| && (|written| > limit ==> truncated)
    }

    constructor (limit: nat)
      ensures Valid() && written == [] && !truncated && this.limit == limit
    {
      this.limit := limit;
      buf := [];
      truncated := false;
      totalRead := 0;
      written := [];
    }

    /** An empty write to a full buffer sets the flag too; every other write sets it exactly when bytes are dropped. */
    method Write(p: bytes)
      requires Valid()
      modifies this
      ensures Valid() && written == old(written) + p
      ensures truncated == (old(truncated) || |written| > limit || (p == [] && |written| == limit))
    {
      totalRead := totalRead + |p|;
      var remaining := limit - |buf|;
      if remaining <= 0 {
        truncated := true;
      } else if |p| > remaining {
        buf := buf + p[..remaining];
        truncated := true;
      } else {
        buf := buf + p;
      }
      written := written + p;
    }
  }

  datatype CaptureResult = CaptureResult(body: bytes, totalBytes: nat, truncated: bool, usage: Usage)

  // ---- What is copied ----

  /** How far a copy has come: bytes read, bytes the client took, writes made, and whether a write was refused. */
  datatype Copied = Copied(read: bytes, written: bytes, writes: nat, refused: bool)

  /** A read of nothing is not written. The client takes `accepts` writes and refuses the next. */
  function CopyChunk(c: Copied, chunk: bytes, accepts: nat): Copied {
    if c.refused || chunk == [] then c
    else if c.writes < accepts then Copied(c.read + chunk, c.written + chunk, c.writes + 1, false)
    else Copied(c.read + chunk, c.written, c.writes, true)
  }

  function CopyAll(chunks: seq<bytes>, accepts: nat): Copied {
    if chunks == [] then Copied([], [], 0, false)
    else CopyChunk(CopyAll(chunks[..|chunks| - 1], accepts), chunks[|chunks| - 1], accepts)
  }

  function Join(chunks: seq<bytes>): bytes {
    if chunks == [] then [] else Join(chunks[..|chunks| - 1]) + chunks[|chunks| - 1]
  }

  /** Joining is putting one after the other. */
  lemma {:induction false} JoinConcatenates(a: seq<bytes>, b: seq<bytes>, chunk: bytes)
    ensures Join([]) == [] && Join([chunk]) == chunk && Join(a + b) == Join(a) + Join(b)
    decreases |b|
  {
    assert Join([]) + chunk == chunk;
    if b == [] {
      assert a + b == a && Join(a) + Join([]) == Join(a);
    } else {
      var n := |b| - 1;
      JoinConcatenates(a, b[..n], chunk);
      assert (a + b)[..|a| + n] == a + b[..n];
      assert Join(a) + Join(b[..n]) + b[n] == Join(a) + (Join(b[..n]) + b[n]);
    }
  }

  /** The client gets a prefix of what was read, and all of the answer unless it refuses a write. */
  lemma {:induction false} CopiesInOrder(chunks: seq<bytes>, accepts: nat)
    ensures
      var c := CopyAll(chunks, accepts);
      && c.written <= c.read <= Join(chunks) && c.writes <= accepts
      && (!c.refused ==> c.written == c.read == Join(chunks))
      && (c.refused ==> c.writes == accepts && c.written < c.read)
  {
    if chunks != [] {
      CopiesInOrder(chunks[..|chunks| - 1], accepts);
    }
  }

  /** A client that takes every write gets everything, however the answer was cut into reads. */
  lemma {:induction false} PatientClientGetsAll(chunks: seq<bytes>, accepts: nat)
    requires accepts >= |chunks|
    ensures CopyAll(chunks, accepts).writes <= |chunks| && !CopyAll(chunks, accepts).refused
    ensures CopyAll(chunks, accepts).written == Join(chunks)
  {
    if chunks != [] {
      PatientClientGetsAll(chunks[..|chunks| - 1], accepts);
    }
  }

  /** Once refused, the copy stays as it is. */
  lemma {:induction false} RefusalIsFinal(chunks: seq<bytes>, accepts: nat, i: nat)
    requires i <= |chunks| && CopyAll(chunks[..i], accepts).refused
    ensures CopyAll(chunks, accepts) == CopyAll(chunks[..i], accepts)
  {
    if i == |chunks| {
      assert chunks[..i] == chunks;
    } else {
      assert chunks[..|chunks| - 1][..i] == chunks[..i];
      RefusalIsFinal(chunks[..|chunks| - 1], accepts, i);
    }
  }

  // ---- The loop ----

  /** What is captured of a body that was copied through. */
  ghost function CopyCapture(chunks: seq<bytes>, broken: bool, accepts: nat, retained: nat): CaptureResult {
    var c := CopyAll(chunks, accepts);
    CaptureResult(First(c.read, retained), |c.read|, |c.read| > retained || c.refused || broken, StreamUsage(c.read))
  }

  /** Buffer and parser have both seen exactly these bytes. */
  ghost predicate Watching(captured: CappedBuffer, parser: SseUsageParser, read: bytes)
    reads captured, parser.Repr()
  {
    && captured.Valid() && captured.written == read && (captured.truncated <==> |read| > captured.limit)
    && parser.Open() && parser.stream == read && captured !in parser.Repr()
  }

  method StartWatching(retained: nat) returns (captured: CappedBuffer, parser: SseUsageParser)
    ensures Watching(captured, parser, []) && fresh(captured) && fresh(parser.Repr()) && captured.limit == retained
  {
    hide SseUsageParser.Open;
    captured := new CappedBuffer(retained);
    parser := NewSseUsageParser();
  }

  method WritePassthroughChunk(chunk: bytes, captured: CappedBuffer, parser: SseUsageParser, taken: bool,
      ghost read: bytes) returns (ok: bool)
    requires Watching(captured, parser, read) && chunk != []
    modifies captured, parser.Repr()
    ensures Watching(captured, parser, read + chunk) && ok == taken
  {
    hide SseUsageParser.Open;
    captured.Write(chunk);
    parser.Write(chunk);
    return taken;
  }

  method StreamCaptureResult(captured: CappedBuffer, parser: SseUsageParser, interrupted: bool, ghost read: bytes)
    returns (result: CaptureResult)
    requires Watching(captured, parser, read)
    modifies parser.Repr()
    ensures result == CaptureResult(First(read, captured.limit), |read|, |read| > captured.limit
      || interrupted, StreamUsage(read))
  {
    hide SseUsageParser.Open, StreamUsage;
    var usage := parser.Usage();
    return CaptureResult(captured.buf, captured.totalRead, captured.truncated || interrupted, usage);
  }

  /**
   `chunks` is what each read of the upstream body returns, the last one together with the end of
   the body or, when `broken`, with an error.
   */
  method CopyPassthroughResponse(chunks: seq<bytes>, broken: bool, accepts: nat, retained: nat)
    returns (result: CaptureResult, ok: bool, written: bytes)
    ensures var c := CopyAll(chunks, accepts);
      && result == CopyCapture(chunks, broken, accepts, retained)
      && ok == !(c.refused || broken) && written == c.written
  {
    hide SseUsageParser.Open, Watching, StreamUsage;
    var captured, parser := StartWatching(retained);
    written := [];
    var writes := 0;
    ghost var read: bytes := [];
    for i := 0 to |chunks|
      invariant CopyAll(chunks[..i], accepts) == Copied(read, written, writes, false)
      invariant Watching(captured, parser, read) && fresh(captured)
      invariant fresh(parser.Repr()) && captured.limit == retained
    {
      var chunk := chunks[i];
      assert chunks[..i + 1][..i] == chunks[..i];
      if |chunk| > 0 {
        ok := WritePassthroughChunk(chunk, captured, parser, writes < accepts, read);
        read := read + chunk;
        if !ok {
          RefusalIsFinal(chunks, accepts, i + 1);
          result := StreamCaptureResult(captured, parser, true, read);
          return;
        }
        written := written + chunk;
        writes := writes + 1;
      }
    }
    assert chunks[..|chunks|] == chunks;
    ok := !broken;
    result := StreamCaptureResult(captured, parser, broken, read);
  }
}
