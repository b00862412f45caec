/**
 The protocol's steps cut at each send, for a sink that may refuse: what the fields stand for before
 and after, and that what was sent so far is always a prefix of what the whole step sends.
 */
module ResponsesSends {
  import opened Wrappers
  import opened ResponsesProtocol
  import P = ResponsesProtocol
  import opened ResponsesFields
  import opened ResponsesNumbering

  // ---- What a sink takes ----

  /** How many of the first n tries the sink refuses. */
  function Refusals(takes: nat -> bool, n: nat): nat {
    if n == 0 then 0 else Refusals(takes, n - 1) + if takes(n - 1) then 0 else 1
  }

  /** Every frame the sink has is one it takes. */
  predicate AllTaken(takes: nat -> bool, sink: seq<Frame>) {
    forall i :: 0 <= i < |sink| ==> takes(sink[i].number)
  }

  /** How many tries of a writer were refused. */
  function Gap(w: Writer): int {
    w.numbered - |w.sent|
  }

  /** Nothing was tried in between. */
  predicate Silent(m: Writer, v: Writer) {
    v.sent == m.sent && v.numbered == m.numbered && v.standing == m.standing
  }

  /** From a to c frames were only added. */
  predicate Grows(a: Writer, c: Writer) {
    a.sent <= c.sent && a.standing <= c.standing
  }

  /** v has sent the start of what c has, and holds the items as they stood at c's next frame. */
  predicate Due(v: Writer, c: Writer) {
    && v.sent < c.sent
    && |v.standing| < |c.standing| && v.standing <= c.standing && c.standing[|v.standing|] == v.items
  }

  /**
   How a step that should lead from m to full ends in v: there, with no try refused; or at its first
   refused try, short of the frames of the whole step and with the items as they stand at that try.
   */
  predicate Ends(m: Writer, v: Writer, full: Writer, ok: bool) {
    && Grows(m, v)
    && if ok then v == full && Gap(v) == Gap(m) else Due(v, full) && Gap(v) == Gap(m) + 1
  }

  lemma NothingTried(m: Writer, v: Writer)
    requires Silent(m, v)
    ensures Ends(m, v, v, true)
  {
  }

  /** One more step of a longer one: m came to u, and from u the step ends in v. */
  lemma Next(m: Writer, u: Writer, v: Writer, step: Writer, full: Writer, ok: bool)
    requires Ends(m, u, u, true) && Ends(u, v, step, ok) && (step == full || Grows(step, full))
    ensures Ends(m, v, if ok then step else full, ok)
  {
  }

  // ---- Filling slots ----

  predicate OnlyOf(slots: seq<Item>, items: seq<Item>) {
    |slots| == |items| && forall i :: 0 <= i < |items| ==> slots[i] == Vacant || slots[i] == items[i]
  }

  predicate Right(slots: seq<Item>, items: seq<Item>, n: nat) {
    n < |slots| && n < |items| && slots[n] == items[n]
  }

  predicate ToolRight(slots: seq<Item>, items: seq<Item>, tools: map<int, ToolState>, k: int) {
    k in tools && Right(slots, items, tools[k].outputIndex)
  }

  lemma SlotsFit(f: Fields, m: Writer)
    requires Linked(f, m)
    ensures |m.items| == f.nextOutputIndex
    ensures f.messageItemId != "" ==> At(m.items, f.messageOutputIndex, MessageOutput(f))
    ensures f.reasoningItemId != "" ==> At(m.items, f.reasoningOutputIndex, ReasoningOutput(CurrentReasoning(f)))
  {
  }

  lemma CompletedFits(f: Fields, m: Writer, i: nat)
    requires Linked(f, m) && i < |f.completedReasoning|
    ensures At(m.items, f.completedReasoning[i].outputIndex, ReasoningOutput(f.completedReasoning[i]))
  {
  }

  lemma ToolFits(f: Fields, m: Writer, i: nat)
    requires Linked(f, m) && i < |f.toolOrder|
    ensures f.toolOrder[i] in f.toolStates
    ensures At(m.items, f.toolStates[f.toolOrder[i]].outputIndex, ToolOutput(f.toolStates[f.toolOrder[i]]))
  {
    var k := f.toolOrder[i];
    assert k in m.tools && k in f.toolStates;
    assert ToolLinked(m, k, f.toolStates[k]);
  }

  lemma HeldIsRight(f: Fields, m: Writer, slots: seq<Item>)
    requires Linked(f, m) && OnlyOf(slots, m.items)
    requires f.messageItemId != "" ==> Right(slots, m.items, f.messageOutputIndex)
    requires f.reasoningItemId != "" ==> Right(slots, m.items, f.reasoningOutputIndex)
    requires forall j :: 0 <= j < |f.completedReasoning| ==> Right(slots, m.items, f.completedReasoning[j].outputIndex)
    requires forall j :: 0 <= j < |f.toolOrder| ==> ToolRight(slots, m.items, f.toolStates, f.toolOrder[j])
    ensures slots == m.items
  {
    forall i | 0 <= i < |slots|
      ensures slots[i] == m.items[i]
    {
      if !m.items[i].Vacant? {
        assert Held(f, i);
        if InTools(f, i) {
          var j :| 0 <= j < |f.toolOrder| && f.toolOrder[j] in f.toolStates
            && f.toolStates[f.toolOrder[j]].outputIndex == i;
          assert ToolRight(slots, m.items, f.toolStates, f.toolOrder[j]);
        }
      }
    }
  }

  lemma SameFlags(f: Fields, m: Writer)
    requires Linked(f, m)
    ensures WellKept(m) && m.documented == f.documented && m.base == f.itemBase
    ensures m.began == f.began && m.numbered == f.nextNumber
    ensures m.thinkingOpen == f.reasoningOpen && m.messageOpen == f.messageOpen
  {
  }

  /** The frames of an opening reasoning item. */
  lemma OpenedFrames(m: Writer)
    requires WellKept(m)
    ensures m.thinkingOpen ==> P.OpenReasoning(m) == m
    ensures !m.thinkingOpen ==>
              var v := P.StartReasoning(m);
              var a := Emit(v, ItemAdded(|m.items|, Reasoning(ReasoningId(m), InProgress, [])));
              var b := if m.documented then Emit(a, SummaryPartAdded(ReasoningId(m), |m.items|)) else a;
              && b == P.OpenReasoning(m) && Grows(a, b) && Silent(m, v)
              && SameMessage(m, v) && SameMessage(m, a) && SameMessage(m, b)
  {
  }

  lemma ReasoningStarted(f: Fields, m: Writer)
    requires Linked(f, m) && !f.reasoningOpen
    ensures WellKept(m) && Linked(WithNewReasoning(f), P.StartReasoning(m)) && Silent(m, P.StartReasoning(m))
    ensures var g := WithNewReasoning(f);
      g.reasoningItemId == ReasoningId(m) && g.reasoningOutputIndex == |m.items| && g.reasoningStatus == InProgress
      && g.nextNumber == f.nextNumber
  {
    StartReasoningLinked(f, m);
  }

  /** The stream has begun or not as before; the message is where it was, and open or closed as it was. */
  predicate SameMessage(m: Writer, r: Writer) {
    r.began == m.began && r.message == m.message && r.messageOpen == m.messageOpen
  }

  lemma ReasoningGrown(f: Fields, m: Writer, text: string)
    requires Linked(f, m) && f.reasoningOpen
    ensures WellKept(m) && m.thinkingOpen && m.thinking == Some(f.reasoningOutputIndex)
    ensures Linked(f.(reasoningText := f.reasoningText + text), P.GrowReasoning(m, text))
    ensures Silent(m, P.GrowReasoning(m, text)) && P.GrowReasoning(m, text).thinking == m.thinking
    ensures m.items[f.reasoningOutputIndex].id == f.reasoningItemId
  {
    ReasoningItemLinked(f, m, f.reasoningText + text, f.reasoningStatus, true);
  }

  lemma ReasoningFrames(m: Writer, text: string)
    requires WellKept(m) && text != ""
    ensures
      var v := P.OpenReasoning(m);
      var n := v.thinking.value;
      var grown := P.GrowReasoning(v, text);
      && TakeReasoning(m, text) == Emit(grown, SummaryTextDelta(v.items[n].id, n, text))
      && Grows(v, TakeReasoning(m, text)) && Silent(v, grown)
      && SameMessage(v, grown) && SameMessage(v, TakeReasoning(m, text)) && grown.thinking == v.thinking
  {
    hide P.OpenReasoning;
  }

  lemma ReasoningEnded(f: Fields, m: Writer, status: Status)
    requires Linked(f, m) && f.reasoningOpen
    ensures WellKept(m) && m.thinkingOpen && m.thinking == Some(f.reasoningOutputIndex)
    ensures Linked(f.(reasoningOpen := false, reasoningStatus := status), P.EndReasoning(m, status))
    ensures Silent(m, P.EndReasoning(m, status))
    ensures m.items[f.reasoningOutputIndex].id == f.reasoningItemId
    ensures m.items[f.reasoningOutputIndex].summary == [f.reasoningText]
  {
    ReasoningItemLinked(f, m, f.reasoningText, status, false);
  }

  lemma NothingToClose(m: Writer, status: Status)
    requires WellKept(m) && !m.thinkingOpen
    ensures P.CloseReasoning(m, status) == m
  {
  }

  /** The frames of a closing reasoning item, one after the other. */
  lemma ClosingFrames(m: Writer, status: Status)
    requires WellKept(m) && m.thinkingOpen
    ensures
      var n := m.thinking.value;
      var id, text := m.items[n].id, m.items[n].summary[0];
      var a := Emit(P.EndReasoning(m, status), SummaryTextDone(id, n, text));
      var b := if m.documented then Emit(a, SummaryPartDone(id, n, text)) else a;
      var c := Emit(b, ItemDone(n, Reasoning(id, status, [text])));
      && c == P.CloseReasoning(m, status)
      && Grows(a, c) && Grows(b, c)
      && SameMessage(m, a) && SameMessage(m, b) && SameMessage(m, c) && SameMessage(m, P.EndReasoning(m, status))
      && Silent(m, P.EndReasoning(m, status))
  {
    var n := m.thinking.value;
    assert m.items[n].summary == [m.items[n].summary[0]];
  }

  // ---- The message in the protocol ----

  lemma MessageStarted(f: Fields, m: Writer)
    requires Linked(f, m) && !f.messageOpen
    ensures WellKept(m) && Linked(WithNewMessage(f), P.StartMessage(m)) && f.nextOutputIndex == |m.items|
    ensures Silent(m, P.StartMessage(m))
  {
    StartMessageLinked(f, m);
  }

  lemma MessageFrames(m: Writer)
    requires WellKept(m)
    ensures m.messageOpen ==> P.OpenMessage(m) == m
    ensures !m.messageOpen ==>
              var v := P.CloseReasoningBeforeNextItem(m);
              var r := Emit(P.StartMessage(v), ItemAdded(|v.items|, Message(MessageId(m.base), InProgress, [])));
              && P.OpenMessage(m) == r && Grows(v, r) && Silent(v, P.StartMessage(v)) && WellKept(v) && v.base == m.base
              && SameMessage(m, v) && r.began == P.StartMessage(v).began == m.began
  {
  }

  lemma MessageLinks(f: Fields, m: Writer)
    requires Linked(f, m) && f.messageOpen
    ensures WellKept(m) && m.messageOpen && m.message == Some(f.messageOutputIndex)
    ensures m.items[f.messageOutputIndex].id == f.messageItemId && m.items[f.messageOutputIndex].parts == f.messageParts
  {
  }

  lemma PartsSet(f: Fields, m: Writer, parts: seq<Part>)
    requires Linked(f, m) && f.messageOpen
    ensures WellKept(m) && m.messageOpen && m.message == Some(f.messageOutputIndex)
    ensures Linked(f.(messageParts := parts), WithParts(m, parts)) && Silent(m, WithParts(m, parts))
    ensures m.items[f.messageOutputIndex].id == f.messageItemId && m.items[f.messageOutputIndex].parts == f.messageParts
  {
    MessageItemLinked(f, m, f.messageStatus, parts, true);
  }

  lemma PartsKeep(m: Writer, parts: seq<Part>)
    requires WellKept(m) && m.messageOpen
    ensures WithParts(m, parts) == m.(items := WithParts(m, parts).items)
  {
  }

  lemma TextFrames(m: Writer, kind: PartKind, text: string)
    requires WellKept(m) && m.messageOpen
    ensures
      var v := OpenPart(m, kind);
      var n := v.message.value;
      var item := v.items[n];
      var grown := WithParts(v, AppendToLast(item.parts, text));
      var r := Emit(grown, PartDelta(item.id, n, |item.parts| - 1, kind, text));
      && r == AddText(m, kind, text) && Grows(v, r) && Silent(v, grown) && WellKept(v)
        && v.messageOpen && |item.parts| > 0
      && SameMessage(m, grown) && SameMessage(m, r)
  {
    OpenPartQuiet(m, kind);
  }

  lemma TextGrows(m: Writer, kind: PartKind, text: string)
    requires WellKept(m) && m.messageOpen
    ensures Grows(m, P.AddText(m, kind, text))
  {
    hide P.AddText;
    TextFrames(m, kind, text);
  }

  lemma MessageEnded(f: Fields, m: Writer, status: Status)
    requires Linked(f, m) && f.messageOpen
    ensures WellKept(m) && m.messageOpen && m.message == Some(f.messageOutputIndex)
    ensures Linked(f.(messageOpen := false, messageStatus := status), P.EndMessage(m, status))
    ensures Silent(m, P.EndMessage(m, status))
    ensures m.items[f.messageOutputIndex].id == f.messageItemId && m.items[f.messageOutputIndex].parts == f.messageParts
  {
    MessageItemLinked(f, m, status, f.messageParts, false);
  }

  lemma MessageCloses(m: Writer, status: Status)
    requires WellKept(m)
    ensures !m.messageOpen ==> P.CloseMessage(m, status) == m
    ensures m.messageOpen ==>
              var n := m.message.value;
              var v := CloseParts(P.EndMessage(m, status), m.items[n].id, n, m.items[n].parts);
              && P.CloseMessage(m, status) == Emit(v, ItemDone(n, Message(m.items[n].id, status, m.items[n].parts)))
              && Grows(v, P.CloseMessage(m, status)) && Silent(m, P.EndMessage(m, status))
  {
  }

  lemma PartsBegin(m: Writer, id: string, n: nat, parts: seq<Part>)
    ensures CloseParts(m, id, n, parts[..0]) == m && Grows(m, CloseParts(m, id, n, parts))
  {
    ClosePartsQuiet(m, id, n, parts);
  }

  lemma {:induction false} PartsGrow(m: Writer, id: string, n: nat, parts: seq<Part>, i: nat)
    requires i <= |parts|
    ensures Grows(CloseParts(m, id, n, parts[..i]), CloseParts(m, id, n, parts))
  {
    if i == |parts| {
      assert parts[..i] == parts;
    } else {
      var rest := parts[..|parts| - 1];
      PartsGrow(m, id, n, rest, i);
      assert rest[..i] == parts[..i];
    }
  }

  lemma PartsStep(m: Writer, id: string, n: nat, parts: seq<Part>, i: nat)
    requires i < |parts|
    ensures
      var u := CloseParts(m, id, n, parts[..i]);
      var a := Emit(u, PartTextDone(id, n, i, parts[i].kind, parts[i].text));
      var b := Emit(a, PartDone(id, n, i, parts[i]));
      && CloseParts(m, id, n, parts[..i + 1]) == b
      && Grows(a, CloseParts(m, id, n, parts)) && Grows(b, CloseParts(m, id, n, parts))
  {
    assert parts[..i + 1][..i] == parts[..i];
    PartsGrow(m, id, n, parts, i + 1);
  }

  // ---- Tools in the protocol ----

  lemma ToolStarted(f: Fields, m: Writer, call: ToolCall)
    requires Linked(f, m)
    ensures WellKept(m) && (call.index in f.toolStates <==> call.index in m.tools)
    ensures f.nextOutputIndex == |m.items| && f.itemBase == m.base
    ensures call.index !in f.toolStates ==>
      Linked(WithNewTool(f, call), StartTool(m, call)) && Silent(m, StartTool(m, call))
  {
    if call.index !in f.toolStates {
      StartToolLinked(f, m, call);
    }
  }

  lemma ToolSet(f: Fields, m: Writer, k: int, state: ToolState)
    requires Linked(f, m) && k in f.toolStates && state.outputIndex == f.toolStates[k].outputIndex
    ensures WellKept(m) && k in m.tools
    ensures Linked(f.(toolStates := f.toolStates[k := state]), WithTool(m, k, ToolOutput(state)))
    ensures Silent(m, WithTool(m, k, ToolOutput(state)))
  {
    ToolItemLinked(f, m, k, state);
  }

  lemma SameTools(f: Fields, m: Writer, k: int)
    requires Linked(f, m)
    ensures k in f.toolStates <==> k in m.tools
    ensures k in f.toolStates ==>
      m.tools[k] == f.toolStates[k].outputIndex && At(m.items, m.tools[k], ToolOutput(f.toolStates[k]))
  {
    if k in f.toolStates {
      assert ToolLinked(m, k, f.toolStates[k]);
    }
  }

  lemma SameOrder(f: Fields, m: Writer)
    requires Linked(f, m)
    ensures m.toolOrder == f.toolOrder
  {
  }

  lemma ToolFrames(m: Writer, call: ToolCall)
    requires WellKept(m)
    ensures call.index in m.tools ==>
              var item := m.items[m.tools[call.index]];
              P.OpenTool(m, call) == if call.name == "" then m else WithTool(m, call.index, item.(name := call.name))
    ensures call.index in m.tools ==> Silent(m, P.OpenTool(m, call)) && SameMessage(m, P.OpenTool(m, call))
    ensures call.index !in m.tools ==>
              var v := P.CloseReasoningBeforeNextItem(m);
              var r := Emit(StartTool(v, call), ItemAdded(|v.items|, BlankTool(v, call)));
              && P.OpenTool(m, call) == r && Grows(v, r) && Silent(v, StartTool(v, call)) && WellKept(v)
                && v.tools == m.tools
              && SameMessage(m, r) && SameMessage(m, StartTool(v, call))
  {
  }

  lemma CallFrames(m: Writer, call: ToolCall)
    requires WellKept(m)
    ensures
      var v := P.OpenTool(m, call);
      && WellKept(v) && call.index in v.tools && Grows(v, TakeCall(m, call))
      && if call.arguments == "" then TakeCall(m, call) == v
         else
           var n := v.tools[call.index];
           var item := v.items[n];
           var grown := WithTool(v, call.index, item.(arguments := item.arguments + call.arguments));
           && TakeCall(m, call) == Emit(grown, ArgumentsDelta(item.id, n, call.arguments)) && Silent(v, grown)
           && SameMessage(v, TakeCall(m, call)) && SameMessage(v, grown)
  {
    hide P.OpenTool;
  }

  lemma CallsBegin(m: Writer, calls: seq<ToolCall>)
    requires WellKept(m)
    ensures TakeCalls(m, calls[..0]) == m && Grows(m, TakeCalls(m, calls))
  {
    TakeCallsQuiet(m, calls);
  }

  lemma {:induction false} CallsGrow(m: Writer, calls: seq<ToolCall>, i: nat)
    requires WellKept(m) && i <= |calls|
    ensures Grows(TakeCalls(m, calls[..i]), TakeCalls(m, calls))
  {
    hide TakeCall;
    if i == |calls| {
      assert calls[..i] == calls;
    } else {
      var rest := calls[..|calls| - 1];
      CallsGrow(m, rest, i);
      assert rest[..i] == calls[..i];
      TakeCallQuiet(TakeCalls(m, rest), calls[|calls| - 1]);
    }
  }

  lemma CallsStep(m: Writer, calls: seq<ToolCall>, i: nat)
    requires WellKept(m) && i < |calls|
    ensures TakeCalls(m, calls[..i + 1]) == TakeCall(TakeCalls(m, calls[..i]), calls[i])
    ensures Grows(TakeCalls(m, calls[..i + 1]), TakeCalls(m, calls))
  {
    hide TakeCall;
    assert calls[..i + 1][..i] == calls[..i];
    CallsGrow(m, calls, i + 1);
  }

  lemma ToolsBegin(m: Writer, status: Status)
    requires WellKept(m)
    ensures P.CloseTools(m, 0, status) == m && Grows(m, P.CloseTools(m, |m.toolOrder|, status))
  {
    CloseToolsQuiet(m, |m.toolOrder|, status);
  }

  lemma NextTool(m: Writer, i: nat)
    requires WellKept(m) && i < |m.toolOrder|
    ensures m.toolOrder[i] in m.tools
  {
  }

  lemma {:induction false} ToolsGrow(m: Writer, i: nat, count: nat, status: Status)
    requires WellKept(m) && i <= count <= |m.toolOrder|
    ensures Grows(P.CloseTools(m, i, status), P.CloseTools(m, count, status))
  {
    hide CloseTool, WellKept;
    if i < count {
      ToolsGrow(m, i, count - 1, status);
      var v := P.CloseTools(m, count - 1, status);
      NextTool(v, count - 1);
      CloseToolQuiet(v, v.toolOrder[count - 1], status);
    }
  }

  lemma ToolsStep(m: Writer, i: nat, status: Status)
    requires WellKept(m) && i < |m.toolOrder|
    ensures
      var u := P.CloseTools(m, i, status);
      && WellKept(u) && u.tools == m.tools && m.toolOrder[i] in u.tools
      && P.CloseTools(m, i + 1, status) == CloseTool(u, m.toolOrder[i], status)
      && Grows(P.CloseTools(m, i + 1, status), P.CloseTools(m, |m.toolOrder|, status))
  {
    hide CloseTool;
    ToolsGrow(m, i + 1, |m.toolOrder|, status);
  }

  /** A tool's status is set once its done frames are out. */
  lemma ToolCloses(u: Writer, k: int, status: Status)
    requires WellKept(u) && k in u.tools
    ensures
      var n := u.tools[k];
      var item := u.items[n];
      var a := Emit(u, ArgumentsDone(item.id, n, item.name, item.arguments));
      var b := Emit(a, ItemDone(n, WithStatus(item, status)));
      && WellKept(b) && b.tools == u.tools && WithTool(b, k, WithStatus(item, status)) == CloseTool(u, k, status)
      && Grows(a, CloseTool(u, k, status)) && Grows(b, CloseTool(u, k, status)) && Silent(b, CloseTool(u, k, status))
  {
    var n := u.tools[k];
    var item := u.items[n];
    assert item.FunctionCall?;
    EmitKeeps(u, ArgumentsDone(item.id, n, item.name, item.arguments));
    EmitKeeps(Emit(u, ArgumentsDone(item.id, n, item.name, item.arguments)), ItemDone(n, WithStatus(item, status)));
    hide WellKept;
  }

  lemma EmitKeepsMessage(m: Writer, body: Body)
    ensures SameMessage(m, Emit(m, body))
  {
  }

  lemma EmitKeeps(m: Writer, body: Body)
    requires WellKept(m)
    ensures WellKept(Emit(m, body)) && Grows(m, Emit(m, body))
  {
  }

  // ---- Runs in the protocol ----

  lemma BeganLinked(f: Fields, m: Writer)
    requires Linked(f, m)
    ensures Linked(f.(began := true), m.(began := true)) && Silent(m, m.(began := true))
  {
    SentLinked(f, m, m.(began := true));
  }

  lemma BegunAlready(m: Writer)
    requires WellKept(m) && m.began
    ensures P.Begin(m) == m
  {
  }

  lemma OpeningFrames(m: Writer)
    requires WellKept(m) && !m.began
    ensures
      var b := m.(began := true);
      var a := Emit(b, Snapshot(ResponseCreated, m.items));
      && P.Begin(m) == Emit(a, Snapshot(ResponseInProgress, m.items)) && Grows(a, P.Begin(m)) && Silent(m, b)
      && SameMessage(b, a) && SameMessage(b, P.Begin(m))
  {
  }

  lemma ClosingQuiet(m: Writer, status: Status)
    requires WellKept(m)
    ensures
      var u := P.CloseReasoning(m, status);
      var v := P.CloseMessage(u, status);
      Grows(u, P.CloseAll(m, status)) && Grows(v, P.CloseAll(m, status))
  {
    hide P.CloseReasoning, P.CloseMessage, P.CloseTools;
    var u := P.CloseReasoning(m, status);
    var v := P.CloseMessage(u, status);
    CloseMessageQuiet(u, status);
    CloseToolsQuiet(v, |v.toolOrder|, status);
  }

  /** How a run ends: as a failure, or with everything closed and a terminal envelope. */
  lemma FinishFrames(m: Writer, usageDetailMissing: bool, incomplete: bool)
    requires WellKept(m)
    ensures
      var b, full := P.Begin(m), P.Finish(m, usageDetailMissing, incomplete);
      && Grows(b, full)
      && if m.documented && usageDetailMissing then full == P.Fail(b)
         else
           var u := P.CloseAll(b, FinalStatus(incomplete));
           && full == Emit(u, Snapshot(if incomplete then ResponseIncomplete else ResponseCompleted, u.items))
           && Grows(u, full)
  {
    hide P.CloseAll;
    CloseAllQuiet(P.Begin(m), FinalStatus(incomplete));
  }

  /** A send that may fail: the number is used up either way. */
  function Tried(m: Writer, body: Body, ok: bool): Writer {
    if ok then Emit(m, body) else m.(numbered := m.numbered + 1)
  }

  lemma SinkKeeps(takes: nat -> bool, m: Writer, body: Body, number: nat)
    requires m.numbered == number && Gap(m) == Refusals(takes, number) && AllTaken(takes, m.sent)
    ensures
      var r := Tried(m, body, takes(number));
      Gap(r) == Refusals(takes, number + 1) && AllTaken(takes, r.sent)
  {
  }

  lemma SendKeeps(f: Fields, m: Writer, number: nat, body: Body, ok: bool)
    requires Linked(f, m) && number == f.nextNumber
    ensures Linked(f.(nextNumber := number + 1), Tried(m, body, ok)) && Ends(m, Tried(m, body, ok), Emit(m, body), ok)
    ensures Tried(m, body, ok).sent == if ok then m.sent + [Frame(number, body)] else m.sent
  {
    SentLinked(f, m, Tried(m, body, ok));
  }
}
