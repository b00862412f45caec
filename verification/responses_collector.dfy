/**
 The non-streaming counterpart of the writer: the output items of a finished event list, computed
 in one pass by a loop over the events.
 */
module ResponsesCollector {
  import opened Wrappers
  import opened DecimalText
  import opened ResponsesProtocol

  /** The collector's progress: what it has put out, and where the next event goes. */
  datatype Collector = Collector(
    separate: bool,
    base: string,
    status: Status,
    output: seq<Item>,
    message: Option<nat>,
    thinking: Option<nat>,
    segments: nat,
    finished: bool,
    tools: map<int, nat>)

  function Start(base: string, status: Status, separate: bool): Collector {
    Collector(separate, base, status, [], None, None, 0, false, map[])
  }

  predicate WellPlaced(c: Collector) {
    && (c.thinking.Some? ==>
          c.thinking.value < |c.output| && c.output[c.thinking.value].Reasoning?
            && |c.output[c.thinking.value].summary| == 1)
    && (c.message.Some? ==> c.message.value < |c.output| && c.output[c.message.value].Message?)
    && (forall k :: k in c.tools ==> c.tools[k] < |c.output| && c.output[c.tools[k]].FunctionCall?)
  }

  predicate SameCollection(c: Collector, r: Collector) {
    r.separate == c.separate && r.base == c.base && r.status == c.status
  }

  /** A reasoning segment is over, if there is one. */
  function EndSegment(c: Collector): Collector {
    c.(finished := c.finished || c.thinking.Some?)
  }

  function CollectReasoning(c: Collector, text: string): (r: Collector)
    requires WellPlaced(c)
    ensures WellPlaced(r) && SameCollection(c, r)
  {
    if text == "" then c
    else if c.thinking.Some? && !(c.separate && c.finished) then
      var n := c.thinking.value;
      c.(output := c.output[n := AppendSummary(WithStatus(c.output[n], c.status), text)])
    else
      var id := if c.segments > 0 then "rs_" + c.base + "_" + Itoa(c.segments) else "rs_" + c.base;
      c.(segments := c.segments + 1, finished := false, thinking := Some(|c.output|),
         output := c.output + [Reasoning(id, c.status, [text])])
  }

  function CollectFinished(c: Collector): (r: Collector)
    requires WellPlaced(c)
    ensures WellPlaced(r) && SameCollection(c, r)
  {
    if c.thinking.None? then c
    else EndSegment(c.(output := c.output[c.thinking.value := WithStatus(c.output[c.thinking.value], Completed)]))
  }

  function CollectedParts(parts: seq<Part>, kind: PartKind, text: string): seq<Part> {
    if EndsWithKind(parts, kind) then AppendToLast(parts, text) else parts + [Part(kind, text)]
  }

  function CollectText(c: Collector, kind: PartKind, text: string): (r: Collector)
    requires WellPlaced(c)
    ensures WellPlaced(r) && SameCollection(c, r)
  {
    if text == "" then c
    else if c.message.None? then
      EndSegment(c).(message := Some(|c.output|),
        output := c.output + [Message(MessageId(c.base), c.status, [Part(kind, text)])])
    else
      var n := c.message.value;
      EndSegment(c).(output := c.output[n := c.output[n].(parts := CollectedParts(c.output[n].parts, kind, text))])
  }

  function CollectCall(c: Collector, call: ToolCall): (r: Collector)
    requires WellPlaced(c)
    ensures WellPlaced(r) && SameCollection(c, r)
  {
    if call.index !in c.tools then
      var item := FunctionCall(ToolId(c.base, call.index), CallId(c.base, call.index), c.status,
        call.name, call.arguments);
      c.(tools := c.tools[call.index := |c.output|], output := c.output + [item])
    else
      var n := c.tools[call.index];
      var item := c.output[n];
      var named := if call.name == "" then item else item.(name := call.name);
      c.(output := c.output[n := named.(arguments := item.arguments + call.arguments)])
  }

  function CollectCalls(c: Collector, calls: seq<ToolCall>): (r: Collector)
    requires WellPlaced(c)
    ensures WellPlaced(r) && SameCollection(c, r)
  {
    if calls == [] then c else CollectCall(CollectCalls(c, calls[..|calls| - 1]), calls[|calls| - 1])
  }

  function Collect(c: Collector, event: Event): (r: Collector)
    requires WellPlaced(c)
    ensures WellPlaced(r) && SameCollection(c, r)
  {
    match event
    case TextDelta(text) => CollectText(c, OutputText, text)
    case RefusalDelta(text) => CollectText(c, Refusal, text)
    case ReasoningDelta(text) => CollectReasoning(c, text)
    case ReasoningFinished => CollectFinished(c)
    case ToolCallDelta(calls) => CollectCalls(EndSegment(c), calls)
    case ReasoningSignaled => c
    case OtherEvent => c
  }

  function CollectAll(c: Collector, events: seq<Event>): (r: Collector)
    requires WellPlaced(c)
    ensures WellPlaced(r) && SameCollection(c, r)
  {
    if events == [] then c else Collect(CollectAll(c, events[..|events| - 1]), events[|events| - 1])
  }

  /** The items of an event list. */
  function OutputFromEvents(base: string, events: seq<Event>, status: Status, separate: bool): seq<Item> {
    CollectAll(Start(base, status, separate), events).output
  }
}
