/**
 The shape of every run: frames numbered from zero without a gap, the two opening envelopes first,
 one terminal envelope last, and no envelope in between.
 */
module ResponsesNumbering {
  import opened ResponsesProtocol

  /** From w to r only numbered frames that are not envelopes were sent. */
  predicate Quietly(w: Writer, r: Writer) {
    && r.began == w.began && w.sent <= r.sent && w.standing <= r.standing
    && r.numbered - w.numbered == |r.sent| - |w.sent|
    && forall i :: |w.sent| <= i < |r.sent| ==>
      !r.sent[i].body.Snapshot? && r.sent[i].number == w.numbered + i - |w.sent|
  }

  lemma QuietTrans(a: Writer, b: Writer, c: Writer)
    requires Quietly(a, b) && Quietly(b, c)
    ensures Quietly(a, c)
  {
    forall i | |a.sent| <= i < |c.sent|
      ensures !c.sent[i].body.Snapshot? && c.sent[i].number == a.numbered + i - |a.sent|
    {
      if i < |b.sent| {
        assert b.sent[i] == c.sent[i];
      }
    }
  }

  lemma QuietEmit(w: Writer, v: Writer, body: Body)
    requires Quietly(w, v) && !body.Snapshot?
    ensures Quietly(w, Emit(v, body))
  {
  }

  // ---- Every step ----

  lemma OpenReasoningQuiet(w: Writer)
    requires WellKept(w)
    ensures Quietly(w, OpenReasoning(w))
  {
  }

  lemma TakeReasoningQuiet(w: Writer, text: string)
    requires WellKept(w)
    ensures Quietly(w, TakeReasoning(w, text))
  {
    if text != "" {
      OpenReasoningQuiet(w);
      var v := OpenReasoning(w);
      var n := v.thinking.value;
      QuietEmit(w, v.(items := v.items[n := AppendSummary(v.items[n], text)]),
        SummaryTextDelta(v.items[n].id, n, text));
    }
  }

  lemma CloseReasoningQuiet(w: Writer, status: Status)
    requires WellKept(w)
    ensures Quietly(w, CloseReasoning(w, status))
  {
  }

  lemma OpenMessageQuiet(w: Writer)
    requires WellKept(w)
    ensures Quietly(w, OpenMessage(w))
  {
    hide CloseReasoning;
    CloseReasoningQuiet(w, Completed);
  }

  lemma OpenPartQuiet(w: Writer, kind: PartKind)
    requires WellKept(w) && w.messageOpen
    ensures Quietly(w, OpenPart(w, kind))
  {
  }

  lemma TakeTextQuiet(w: Writer, kind: PartKind, text: string)
    requires WellKept(w)
    ensures Quietly(w, TakeText(w, kind, text))
  {
    hide OpenMessage, OpenPart;
    if text != "" {
      OpenMessageQuiet(w);
      OpenPartQuiet(OpenMessage(w), kind);
      QuietTrans(w, OpenMessage(w), OpenPart(OpenMessage(w), kind));
    }
  }

  lemma AddToolQuiet(w: Writer, call: ToolCall)
    requires WellKept(w)
    ensures Quietly(w, AddTool(w, call))
  {
  }

  lemma OpenToolQuiet(w: Writer, call: ToolCall)
    requires WellKept(w)
    ensures Quietly(w, OpenTool(w, call))
  {
    hide CloseReasoning, AddTool;
    if call.index !in w.tools {
      CloseReasoningQuiet(w, Completed);
      AddToolQuiet(CloseReasoningBeforeNextItem(w), call);
      QuietTrans(w, CloseReasoningBeforeNextItem(w), AddTool(CloseReasoningBeforeNextItem(w), call));
    }
  }

  lemma TakeCallQuiet(w: Writer, call: ToolCall)
    requires WellKept(w)
    ensures Quietly(w, TakeCall(w, call))
  {
    hide OpenTool;
    OpenToolQuiet(w, call);
  }

  lemma {:induction false} TakeCallsQuiet(w: Writer, calls: seq<ToolCall>)
    requires WellKept(w)
    ensures Quietly(w, TakeCalls(w, calls))
  {
    hide TakeCall;
    if calls != [] {
      var v := TakeCalls(w, calls[..|calls| - 1]);
      TakeCallsQuiet(w, calls[..|calls| - 1]);
      TakeCallQuiet(v, calls[|calls| - 1]);
      QuietTrans(w, v, TakeCalls(w, calls));
    }
  }

  lemma RenderQuiet(w: Writer, event: Event)
    requires WellKept(w)
    ensures Quietly(w, Render(w, event))
  {
    hide TakeReasoning, CloseReasoning, TakeText, TakeCalls;
    match event {
      case ReasoningDelta(text) => TakeReasoningQuiet(w, text);
      case ReasoningFinished => CloseReasoningQuiet(w, Completed);
      case TextDelta(text) => TakeTextQuiet(w, OutputText, text);
      case RefusalDelta(text) => TakeTextQuiet(w, Refusal, text);
      case ToolCallDelta(calls) => TakeCallsQuiet(w, calls);
      case ReasoningSignaled =>
      case OtherEvent =>
    }
  }

  lemma {:induction false} ClosePartsQuiet(w: Writer, id: string, n: nat, parts: seq<Part>)
    ensures Quietly(w, CloseParts(w, id, n, parts))
  {
    if parts != [] {
      ClosePartsQuiet(w, id, n, parts[..|parts| - 1]);
    }
  }

  lemma CloseMessageQuiet(w: Writer, status: Status)
    requires WellKept(w)
    ensures Quietly(w, CloseMessage(w, status))
  {
    hide CloseParts;
    if w.messageOpen {
      var n := w.message.value;
      var item := WithStatus(w.items[n], status);
      var v := w.(items := w.items[n := item], messageOpen := false);
      ClosePartsQuiet(v, item.id, n, item.parts);
      QuietTrans(w, v, CloseParts(v, item.id, n, item.parts));
      QuietEmit(w, CloseParts(v, item.id, n, item.parts), ItemDone(n, item));
    }
  }

  lemma CloseToolQuiet(w: Writer, k: int, status: Status)
    requires WellKept(w) && k in w.tools
    ensures Quietly(w, CloseTool(w, k, status))
  {
  }

  lemma {:induction false} CloseToolsQuiet(w: Writer, count: nat, status: Status)
    requires WellKept(w) && count <= |w.toolOrder|
    ensures Quietly(w, CloseTools(w, count, status))
  {
    hide CloseTool;
    if count > 0 {
      var v := CloseTools(w, count - 1, status);
      CloseToolsQuiet(w, count - 1, status);
      CloseToolQuiet(v, v.toolOrder[count - 1], status);
      QuietTrans(w, v, CloseTools(w, count, status));
    }
  }

  lemma CloseAllQuiet(w: Writer, status: Status)
    requires WellKept(w)
    ensures Quietly(w, CloseAll(w, status))
  {
    hide CloseReasoning, CloseMessage, CloseTools;
    var u := CloseReasoning(w, status);
    var v := CloseMessage(u, status);
    CloseReasoningQuiet(w, status);
    CloseMessageQuiet(u, status);
    CloseToolsQuiet(v, |v.toolOrder|, status);
    QuietTrans(w, u, v);
    QuietTrans(w, v, CloseAll(w, status));
  }

  // ---- Whole runs ----

  /** A stream that has begun and not ended. */
  predicate Opened(w: Writer) {
    && w.began && |w.sent| >= 2 && w.numbered == |w.sent|
    && w.sent[0].body == Snapshot(ResponseCreated, []) && w.sent[1].body == Snapshot(ResponseInProgress, [])
    && (forall i :: 0 <= i < |w.sent| ==> w.sent[i].number == i)
    && (forall i :: 2 <= i < |w.sent| ==> !w.sent[i].body.Snapshot?)
  }

  predicate Running(w: Writer) {
    if w.began then Opened(w) else w.sent == [] && w.numbered == 0 && w.items == []
  }

  /** A stream that has ended with the given envelope. */
  predicate Ended(w: Writer, envelope: Envelope, output: seq<Item>) {
    && |w.sent| >= 3
    && w.sent[0].body == Snapshot(ResponseCreated, []) && w.sent[1].body == Snapshot(ResponseInProgress, [])
    && w.sent[|w.sent| - 1].body == Snapshot(envelope, output) && IsTerminal(envelope)
    && (forall i :: 0 <= i < |w.sent| ==> w.sent[i].number == i)
    && (forall i :: 2 <= i < |w.sent| - 1 ==> !w.sent[i].body.Snapshot?)
  }

  lemma StaysOpened(w: Writer, r: Writer)
    requires Opened(w) && Quietly(w, r)
    ensures Opened(r)
  {
    assert r.sent[0] == w.sent[0] && r.sent[1] == w.sent[1];
    assert forall i :: 0 <= i < |w.sent| ==> r.sent[i] == w.sent[i];
  }

  lemma BeginOpens(w: Writer)
    requires WellKept(w) && Running(w)
    ensures Opened(Begin(w))
  {
  }

  lemma TakeRuns(w: Writer, event: Event)
    requires WellKept(w) && Running(w)
    ensures Opened(Take(w, event))
  {
    hide Render, Quietly;
    BeginOpens(w);
    RenderQuiet(Begin(w), event);
    StaysOpened(Begin(w), Take(w, event));
  }

  lemma {:induction false} AlwaysRunning(documented: bool, base: string, events: seq<Event>)
    ensures Running(TakeAll(Fresh(documented, base), events))
  {
    hide Take;
    if events != [] {
      AlwaysRunning(documented, base, events[..|events| - 1]);
      TakeRuns(TakeAll(Fresh(documented, base), events[..|events| - 1]), events[|events| - 1]);
    }
  }

  lemma EnvelopeEnds(w: Writer, envelope: Envelope)
    requires Opened(w) && IsTerminal(envelope)
    ensures Ended(Emit(w, Snapshot(envelope, w.items)), envelope, w.items)
  {
  }

  /** The envelope a finished run ends with. */
  function TerminalEnvelope(documented: bool, usageDetailMissing: bool, incomplete: bool): Envelope {
    if documented && usageDetailMissing then ResponseFailed
    else if incomplete then ResponseIncomplete
    else ResponseCompleted
  }

  lemma FinishEnds(documented: bool, base: string, events: seq<Event>, usageDetailMissing: bool, incomplete: bool)
    ensures
      var r := Finish(TakeAll(Fresh(documented, base), events), usageDetailMissing, incomplete);
      Ended(r, TerminalEnvelope(documented, usageDetailMissing, incomplete), r.items)
  {
    hide TakeAll, CloseAll, Begin, Ended, Quietly, Opened;
    AlwaysRunning(documented, base, events);
    var w := TakeAll(Fresh(documented, base), events);
    var v := Begin(w);
    BeginOpens(w);
    if documented && usageDetailMissing {
      BeginTwice(v);
      EnvelopeEnds(v, ResponseFailed);
    } else {
      var u := CloseAll(v, if incomplete then Incomplete else Completed);
      CloseAllQuiet(v, if incomplete then Incomplete else Completed);
      StaysOpened(v, u);
      EnvelopeEnds(u, if incomplete then ResponseIncomplete else ResponseCompleted);
    }
  }

  lemma BeginTwice(w: Writer)
    requires WellKept(w) && Opened(w)
    ensures Begin(w) == w
  {
  }

  lemma FailEnds(documented: bool, base: string, events: seq<Event>)
    ensures
      var r := Fail(TakeAll(Fresh(documented, base), events));
      Ended(r, ResponseFailed, r.items)
  {
    hide TakeAll;
    AlwaysRunning(documented, base, events);
    var w := TakeAll(Fresh(documented, base), events);
    BeginOpens(w);
    EnvelopeEnds(Begin(w), ResponseFailed);
  }
}
