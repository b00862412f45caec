/**
 The Responses streaming protocol: normalized render events in, a numbered sequence of frames out.

 The writer's state is kept here as the list of output items in output-index order. The class that
 keeps it in scattered fields is proved against these functions.
 */
module ResponsesProtocol {
  import opened Wrappers
  import opened DecimalText

  // ---- Events in ----

  datatype ToolCall = ToolCall(index: int, name: string, arguments: string)

  datatype Event =
    | ReasoningSignaled
    | ReasoningDelta(text: string)
    | ReasoningFinished
    | TextDelta(text: string)
    | RefusalDelta(text: string)
    | ToolCallDelta(calls: seq<ToolCall>)
    | OtherEvent

  // ---- Items ----

  datatype Status = NoStatus | InProgress | Completed | Incomplete

  datatype PartKind = OutputText | Refusal

  datatype Part = Part(kind: PartKind, text: string)

  /** One output item. `Vacant` is the zero item that fills an abandoned position. */
  datatype Item =
    | Vacant
    | Reasoning(id: string, status: Status, summary: seq<string>)
    | Message(id: string, status: Status, parts: seq<Part>)
    | FunctionCall(id: string, callId: string, status: Status, name: string, arguments: string)

  function WithStatus(item: Item, status: Status): Item {
    match item
    case Vacant => Vacant
    case Reasoning(id, _, summary) => Reasoning(id, status, summary)
    case Message(id, _, parts) => Message(id, status, parts)
    case FunctionCall(id, callId, _, name, arguments) => FunctionCall(id, callId, status, name, arguments)
  }

  // ---- Frames out ----

  datatype Envelope = ResponseCreated | ResponseInProgress | ResponseCompleted | ResponseIncomplete | ResponseFailed

  predicate IsTerminal(e: Envelope) {
    e == ResponseCompleted || e == ResponseIncomplete || e == ResponseFailed
  }

  datatype Body =
    | Snapshot(envelope: Envelope, output: seq<Item>)
    | ItemAdded(index: nat, item: Item)
    | ItemDone(index: nat, item: Item)
    | SummaryPartAdded(itemId: string, index: nat)
    | SummaryPartDone(itemId: string, index: nat, text: string)
    | SummaryTextDelta(itemId: string, index: nat, delta: string)
    | SummaryTextDone(itemId: string, index: nat, text: string)
    | PartAdded(itemId: string, index: nat, contentIndex: nat, part: Part)
    | PartDone(itemId: string, index: nat, contentIndex: nat, part: Part)
    | PartDelta(itemId: string, index: nat, contentIndex: nat, kind: PartKind, delta: string)
    | PartTextDone(itemId: string, index: nat, contentIndex: nat, kind: PartKind, text: string)
    | ArgumentsDelta(itemId: string, index: nat, delta: string)
    | ArgumentsDone(itemId: string, index: nat, name: string, arguments: string)

  datatype Frame = Frame(number: nat, body: Body)

  // ---- The writer ----

  /** `sent` is what was sent, and `standing` how the items stood at each of those sends. */
  datatype Writer = Writer(
    documented: bool,
    base: string,
    began: bool,
    items: seq<Item>,
    thinking: Option<nat>,
    thinkingOpen: bool,
    segments: nat,
    message: Option<nat>,
    messageOpen: bool,
    tools: map<int, nat>,
    toolOrder: seq<int>,
    numbered: nat,
    sent: seq<Frame>,
    standing: seq<seq<Item>>)

  function Fresh(documented: bool, base: string): Writer {
    Writer(documented, base, false, [], None, false, 0, None, false, map[], [], 0, [], [])
  }

  /** The pointers of a writer point at items of their kind. */
  predicate WellKept(w: Writer) {
    && (w.thinking.Some? ==>
          w.thinking.value < |w.items| && w.items[w.thinking.value].Reasoning?
            && |w.items[w.thinking.value].summary| == 1)
    && (w.thinkingOpen ==> w.thinking.Some?)
    && (w.message.Some? ==> w.message.value < |w.items| && w.items[w.message.value].Message?)
    && (w.messageOpen ==> w.message.Some?)
    && (forall k :: k in w.tools ==> w.tools[k] < |w.items| && w.items[w.tools[k]].FunctionCall?)
    && (forall i :: 0 <= i < |w.toolOrder| ==> w.toolOrder[i] in w.tools)
    && |w.standing| == |w.sent|
  }

  /** The two are states of the same run. */
  predicate SameRun(w: Writer, r: Writer) {
    r.documented == w.documented && r.base == w.base
  }

  function Emit(w: Writer, body: Body): Writer {
    w.(numbered := w.numbered + 1, sent := w.sent + [Frame(w.numbered, body)], standing := w.standing + [w.items])
  }

  function ReasoningId(w: Writer): string {
    if !w.documented || w.thinking.None? then "rs_" + w.base else "rs_" + w.base + "_" + Itoa(w.segments)
  }

  function MessageId(base: string): string { "msg_" + base }

  function ToolId(base: string, index: int): string { "fc_" + base + "_" + Itoa(index) }

  function CallId(base: string, index: int): string { "call_" + base + "_" + Itoa(index) }

  // ---- Reasoning ----

  /** The text a reopened reasoning item starts with: compatibility mode carries the old text along. */
  function CarriedText(w: Writer): string
    requires WellKept(w)
  {
    if w.documented || w.thinking.None? then "" else w.items[w.thinking.value].summary[0]
  }

  /** The next reasoning item takes the next position. */
  function StartReasoning(w: Writer): (r: Writer)
    requires WellKept(w)
    ensures WellKept(r) && SameRun(w, r)
  {
    var kept := if w.documented || w.thinking.None? then w.items else w.items[w.thinking.value := Vacant];
    w.(items := kept + [Reasoning(ReasoningId(w), InProgress, [CarriedText(w)])],
       thinking := Some(|w.items|), thinkingOpen := true,
       segments := if w.documented || w.thinking.None? then w.segments + 1 else w.segments)
  }

  function OpenReasoning(w: Writer): (r: Writer)
    requires WellKept(w)
    ensures WellKept(r) && SameRun(w, r) && r.thinkingOpen
  {
    if w.thinkingOpen then w
    else
      var n, id := |w.items|, ReasoningId(w);
      var added := Emit(StartReasoning(w), ItemAdded(n, Reasoning(id, InProgress, [])));
      if w.documented then Emit(added, SummaryPartAdded(id, n)) else added
  }

  function AppendSummary(item: Item, text: string): Item
    requires item.Reasoning? && |item.summary| == 1
  {
    item.(summary := [item.summary[0] + text])
  }

  function GrowReasoning(w: Writer, text: string): (r: Writer)
    requires WellKept(w) && w.thinkingOpen
    ensures WellKept(r) && SameRun(w, r)
  {
    w.(items := w.items[w.thinking.value := AppendSummary(w.items[w.thinking.value], text)])
  }

  function TakeReasoning(w: Writer, text: string): (r: Writer)
    requires WellKept(w)
    ensures WellKept(r) && SameRun(w, r)
  {
    if text == "" then w
    else
      var v := OpenReasoning(w);
      var n := v.thinking.value;
      Emit(GrowReasoning(v, text), SummaryTextDelta(v.items[n].id, n, text))
  }

  function EndReasoning(w: Writer, status: Status): (r: Writer)
    requires WellKept(w) && w.thinkingOpen
    ensures WellKept(r) && SameRun(w, r)
  {
    w.(items := w.items[w.thinking.value := WithStatus(w.items[w.thinking.value], status)], thinkingOpen := false)
  }

  function CloseReasoning(w: Writer, status: Status): (r: Writer)
    requires WellKept(w)
    ensures WellKept(r) && SameRun(w, r)
  {
    if !w.thinkingOpen then w
    else
      var n := w.thinking.value;
      var item := WithStatus(w.items[n], status);
      var text := item.summary[0];
      var v := Emit(EndReasoning(w, status), SummaryTextDone(item.id, n, text));
      var u := if w.documented then Emit(v, SummaryPartDone(item.id, n, text)) else v;
      Emit(u, ItemDone(n, item))
  }

  function CloseReasoningBeforeNextItem(w: Writer): (r: Writer)
    requires WellKept(w)
    ensures WellKept(r) && SameRun(w, r)
  {
    if w.documented then CloseReasoning(w, Completed) else w
  }

  // ---- The message ----

  /** The parts a reopened message starts with: none, unless a message was closed before. */
  function CarriedParts(w: Writer): seq<Part>
    requires WellKept(w)
  {
    if w.message.None? then [] else w.items[w.message.value].parts
  }

  /** The message takes the next position; a message closed before leaves its position vacant. */
  function StartMessage(w: Writer): (r: Writer)
    requires WellKept(w)
    ensures WellKept(r) && SameRun(w, r) && r.messageOpen
  {
    var kept := if w.message.None? then w.items else w.items[w.message.value := Vacant];
    w.(items := kept + [Message(MessageId(w.base), InProgress, CarriedParts(w))], message := Some(|w.items|),
      messageOpen := true)
  }

  /** Replaces the parts of the open message. */
  function WithParts(w: Writer, parts: seq<Part>): (r: Writer)
    requires WellKept(w) && w.messageOpen
    ensures WellKept(r) && SameRun(w, r)
  {
    w.(items := w.items[w.message.value := w.items[w.message.value].(parts := parts)])
  }

  function OpenMessage(w: Writer): (r: Writer)
    requires WellKept(w)
    ensures WellKept(r) && SameRun(w, r) && r.messageOpen
  {
    if w.messageOpen then w
    else
      var v := CloseReasoningBeforeNextItem(w);
      Emit(StartMessage(v), ItemAdded(|v.items|, Message(MessageId(w.base), InProgress, [])))
  }

  predicate EndsWithKind(parts: seq<Part>, kind: PartKind) {
    |parts| > 0 && parts[|parts| - 1].kind == kind
  }

  function OpenPart(w: Writer, kind: PartKind): (r: Writer)
    requires WellKept(w) && w.messageOpen
    ensures WellKept(r) && SameRun(w, r) && r.messageOpen
    ensures r.message == w.message && |r.items[r.message.value].parts| > 0
  {
    var n := w.message.value;
    var item := w.items[n];
    if EndsWithKind(item.parts, kind) then w
    else Emit(WithParts(w, item.parts + [Part(kind, "")]), PartAdded(item.id, n, |item.parts|, Part(kind, "")))
  }

  function AppendToLast(parts: seq<Part>, text: string): seq<Part>
    requires |parts| > 0
  {
    parts[|parts| - 1 := parts[|parts| - 1].(text := parts[|parts| - 1].text + text)]
  }

  /** Text for an open message. */
  function AddText(w: Writer, kind: PartKind, text: string): (r: Writer)
    requires WellKept(w) && w.messageOpen
    ensures WellKept(r) && SameRun(w, r)
  {
    var v := OpenPart(w, kind);
    var n := v.message.value;
    var item := v.items[n];
    Emit(WithParts(v, AppendToLast(item.parts, text)), PartDelta(item.id, n, |item.parts| - 1, kind, text))
  }

  function TakeText(w: Writer, kind: PartKind, text: string): (r: Writer)
    requires WellKept(w)
    ensures WellKept(r) && SameRun(w, r)
  {
    if text == "" then w else AddText(OpenMessage(w), kind, text)
  }

  // ---- Tools ----

  function BlankTool(w: Writer, call: ToolCall): Item {
    FunctionCall(ToolId(w.base, call.index), CallId(w.base, call.index), InProgress, call.name, "")
  }

  function StartTool(w: Writer, call: ToolCall): (r: Writer)
    requires WellKept(w)
    ensures WellKept(r) && SameRun(w, r) && call.index in r.tools
  {
    w.(items := w.items + [BlankTool(w, call)], tools := w.tools[call.index := |w.items|],
      toolOrder := w.toolOrder + [call.index])
  }

  function AddTool(w: Writer, call: ToolCall): (r: Writer)
    requires WellKept(w)
    ensures WellKept(r) && SameRun(w, r) && call.index in r.tools
  {
    Emit(StartTool(w, call), ItemAdded(|w.items|, BlankTool(w, call)))
  }

  /** Replaces the item of a tool. */
  function WithTool(w: Writer, k: int, item: Item): (r: Writer)
    requires WellKept(w) && k in w.tools && item.FunctionCall?
    ensures WellKept(r) && SameRun(w, r) && r.tools == w.tools
  {
    w.(items := w.items[w.tools[k] := item])
  }

  function OpenTool(w: Writer, call: ToolCall): (r: Writer)
    requires WellKept(w)
    ensures WellKept(r) && SameRun(w, r) && call.index in r.tools
  {
    if call.index !in w.tools then AddTool(CloseReasoningBeforeNextItem(w), call)
    else if call.name == "" then w
    else WithTool(w, call.index, w.items[w.tools[call.index]].(name := call.name))
  }

  function TakeCall(w: Writer, call: ToolCall): (r: Writer)
    requires WellKept(w)
    ensures WellKept(r) && SameRun(w, r)
  {
    var v := OpenTool(w, call);
    if call.arguments == "" then v
    else
      var n := v.tools[call.index];
      var item := v.items[n];
      Emit(WithTool(v, call.index, item.(arguments := item.arguments + call.arguments)),
        ArgumentsDelta(item.id, n, call.arguments))
  }

  function TakeCalls(w: Writer, calls: seq<ToolCall>): (r: Writer)
    requires WellKept(w)
    ensures WellKept(r) && SameRun(w, r)
  {
    if calls == [] then w else TakeCall(TakeCalls(w, calls[..|calls| - 1]), calls[|calls| - 1])
  }

  // ---- Whole runs ----

  function Begin(w: Writer): (r: Writer)
    requires WellKept(w)
    ensures WellKept(r) && SameRun(w, r) && r.began
  {
    if w.began then w
    else Emit(Emit(w.(began := true), Snapshot(ResponseCreated, w.items)), Snapshot(ResponseInProgress, w.items))
  }

  /** What one event does once the stream has begun. */
  function Render(w: Writer, event: Event): (r: Writer)
    requires WellKept(w)
    ensures WellKept(r) && SameRun(w, r)
  {
    match event
    case ReasoningDelta(text) => TakeReasoning(w, text)
    case ReasoningFinished => CloseReasoning(w, Completed)
    case TextDelta(text) => TakeText(w, OutputText, text)
    case RefusalDelta(text) => TakeText(w, Refusal, text)
    case ToolCallDelta(calls) => TakeCalls(w, calls)
    case ReasoningSignaled => w
    case OtherEvent => w
  }

  function Take(w: Writer, event: Event): (r: Writer)
    requires WellKept(w)
    ensures WellKept(r) && SameRun(w, r)
  {
    Render(Begin(w), event)
  }

  function TakeAll(w: Writer, events: seq<Event>): (r: Writer)
    requires WellKept(w)
    ensures WellKept(r) && SameRun(w, r)
  {
    if events == [] then w else Take(TakeAll(w, events[..|events| - 1]), events[|events| - 1])
  }

  /** The done frames of one content part. */
  function ClosePart(w: Writer, id: string, n: nat, contentIndex: nat, part: Part): Writer {
    Emit(Emit(w, PartTextDone(id, n, contentIndex, part.kind, part.text)), PartDone(id, n, contentIndex, part))
  }

  function CloseParts(w: Writer, id: string, n: nat, parts: seq<Part>): (r: Writer)
    ensures r == w.(numbered := r.numbered, sent := r.sent, standing := r.standing)
    ensures |r.standing| - |w.standing| == |r.sent| - |w.sent|
  {
    if parts == [] then w
    else
      var last := |parts| - 1;
      ClosePart(CloseParts(w, id, n, parts[..last]), id, n, last, parts[last])
  }

  function EndMessage(w: Writer, status: Status): (r: Writer)
    requires WellKept(w) && w.messageOpen
    ensures WellKept(r) && SameRun(w, r)
  {
    w.(items := w.items[w.message.value := WithStatus(w.items[w.message.value], status)], messageOpen := false)
  }

  function CloseMessage(w: Writer, status: Status): (r: Writer)
    requires WellKept(w)
    ensures WellKept(r) && SameRun(w, r)
  {
    if !w.messageOpen then w
    else
      var n := w.message.value;
      var item := WithStatus(w.items[n], status);
      Emit(CloseParts(EndMessage(w, status), item.id, n, item.parts), ItemDone(n, item))
  }

  function CloseTool(w: Writer, k: int, status: Status): (r: Writer)
    requires WellKept(w) && k in w.tools
    ensures WellKept(r) && SameRun(w, r) && r.tools == w.tools && r.toolOrder == w.toolOrder
  {
    var n := w.tools[k];
    var item := WithStatus(w.items[n], status);
    var v := Emit(Emit(w, ArgumentsDone(item.id, n, item.name, item.arguments)), ItemDone(n, item));
    WithTool(v, k, item)
  }

  function CloseTools(w: Writer, count: nat, status: Status): (r: Writer)
    requires WellKept(w) && count <= |w.toolOrder|
    ensures WellKept(r) && SameRun(w, r) && r.tools == w.tools && r.toolOrder == w.toolOrder
  {
    if count == 0 then w
    else
      var v := CloseTools(w, count - 1, status);
      CloseTool(v, v.toolOrder[count - 1], status)
  }

  function CloseAll(w: Writer, status: Status): (r: Writer)
    requires WellKept(w)
    ensures WellKept(r) && SameRun(w, r)
  {
    var v := CloseMessage(CloseReasoning(w, status), status);
    CloseTools(v, |v.toolOrder|, status)
  }

  function Fail(w: Writer): (r: Writer)
    requires WellKept(w)
    ensures WellKept(r) && SameRun(w, r)
  {
    var v := Begin(w);
    Emit(v, Snapshot(ResponseFailed, v.items))
  }

  function FinalStatus(incomplete: bool): Status {
    if incomplete then Incomplete else Completed
  }

  /**
   The end of a run. `usageDetailMissing` says the provider left out a usage detail the documented
   contract requires; `incomplete` that the finish reason makes the response incomplete.
   */
  function Finish(w: Writer, usageDetailMissing: bool, incomplete: bool): (r: Writer)
    requires WellKept(w)
    ensures WellKept(r) && SameRun(w, r)
  {
    var v := Begin(w);
    if w.documented && usageDetailMissing then Fail(v)
    else
      var u := CloseAll(v, FinalStatus(incomplete));
      Emit(u, Snapshot(if incomplete then ResponseIncomplete else ResponseCompleted, u.items))
  }
}
