/**
 The collecting loop: local variables updated event by event, proved to compute the collected output.
 */
module ResponsesOutput {
  import opened Wrappers
  import opened DecimalText
  import opened ResponsesProtocol
  import opened ResponsesCollector

  const RESPONSE_PREFIX := "resp_"

  /** The response id without its prefix, if it has it. */
  function ItemBase(responseId: string): (base: string)
    ensures RESPONSE_PREFIX <= responseId ==> RESPONSE_PREFIX + base == responseId
    ensures !(RESPONSE_PREFIX <= responseId) ==> base == responseId
  {
    if RESPONSE_PREFIX <= responseId then responseId[|RESPONSE_PREFIX|..] else responseId
  }

  /** A negative index stands for none. */
  function Slot(index: int): Option<nat> {
    if index < 0 then None else Some(index)
  }

  class CollectedReasoning {
    const separate: bool
    var index: int
    var count: nat
    var finished: bool

    constructor (separate: bool)
      ensures this.separate == separate && index == -1 && count == 0 && !finished
    {
      this.separate := separate;
      index := -1;
      count := 0;
      finished := false;
    }

    /** The collector these fields, with the loop's other variables, stand for. */
    ghost function With(base: string, status: Status, output: seq<Item>, message: Option<nat>,
        tools: map<int, nat>): Collector
      reads this
    {
      Collector(separate, base, status, output, message, Slot(index), count, finished, tools)
    }

    method Finish()
      modifies `finished
      ensures finished == (old(finished) || index >= 0)
    {
      if index >= 0 {
        finished := true;
      }
    }

    method AppendDelta(output: seq<Item>, base: string, status: Status, text: string, ghost message: Option<nat>,
        ghost tools: map<int, nat>)
      returns (r: seq<Item>)
      requires WellPlaced(With(base, status, output, message, tools))
      modifies this
      ensures With(base, status, r, message, tools) ==
        CollectReasoning(old(With(base, status, output, message, tools)), text)
    {
      if text == "" {
        return output;
      }
      var startNew := index < 0 || (separate && finished);
      if !startNew {
        var item := output[index];
        assert item.summary[0 := item.summary[0] + text] == [item.summary[0] + text];
        return output[index := item.(status := status, summary := item.summary[0 := item.summary[0] + text])];
      }
      var itemId := "rs_" + base;
      if count > 0 {
        itemId := itemId + "_" + Itoa(count);
      }
      count := count + 1;
      finished := false;
      index := |output|;
      return output + [Reasoning(itemId, status, [text])];
    }
  }

  method AppendCollectedMessagePart(
    output: seq<Item>, messageIndex: int, base: string, status: Status, kind: PartKind,
    text: string, ghost c: Collector)
    returns (r: seq<Item>, index: int)
    requires WellPlaced(c) && c.output == output && c.message == Slot(messageIndex)
    requires c.base == base && c.status == status
    ensures r == CollectText(c, kind, text).output && Slot(index) == CollectText(c, kind, text).message
  {
    r, index := output, messageIndex;
    if text == "" {
      return;
    }
    if index < 0 {
      index := |r|;
      r := r + [Message("msg_" + base, status, [])];
    }
    var item := r[index];
    var count := |item.parts|;
    if count > 0 && item.parts[count - 1].kind == kind {
      r := r[index := item.(parts := item.parts[count - 1 := Part(kind, item.parts[count - 1].text + text)])];
      return;
    }
    r := r[index := item.(parts := item.parts + [Part(kind, text)])];
    assert [] + [Part(kind, text)] == [Part(kind, text)];
  }

  /** One tool call of a delta. */
  method CollectToolCall(output: seq<Item>, toolIndexes: map<int, nat>, base: string, status: Status,
      call: ToolCall, ghost c: Collector)
    returns (r: seq<Item>, tools: map<int, nat>)
    requires WellPlaced(c) && c.output == output && c.tools == toolIndexes && c.base == base && c.status == status
    ensures CollectCall(c, call) == c.(output := r, tools := tools)
  {
    if call.index !in toolIndexes {
      var item := FunctionCall("fc_" + base + "_" + Itoa(call.index), "call_" + base + "_" + Itoa(call.index), status,
        call.name, call.arguments);
      return output + [item], toolIndexes[call.index := |output|];
    }
    var item := output[toolIndexes[call.index]];
    if call.name != "" {
      item := item.(name := call.name);
    }
    item := item.(arguments := item.arguments + call.arguments);
    return output[toolIndexes[call.index] := item], toolIndexes;
  }

  method CollectToolCalls(output: seq<Item>, toolIndexes: map<int, nat>, base: string, status: Status,
      calls: seq<ToolCall>, ghost c: Collector)
    returns (r: seq<Item>, tools: map<int, nat>)
    requires WellPlaced(c) && c.output == output && c.tools == toolIndexes && c.base == base && c.status == status
    ensures CollectCalls(c, calls) == c.(output := r, tools := tools)
  {
    hide CollectCall, WellPlaced;
    r, tools := output, toolIndexes;
    for i := 0 to |calls|
      invariant CollectCalls(c, calls[..i]) == c.(output := r, tools := tools)
    {
      assert calls[..i + 1][..i] == calls[..i];
      ghost var d := CollectCalls(c, calls[..i]);
      r, tools := CollectToolCall(r, tools, base, status, calls[i], d);
    }
    assert calls[..|calls|] == calls;
  }

  /** One event of the loop. */
  method CollectEvent(
    reasoning: CollectedReasoning, output: seq<Item>, messageIndex: int, toolIndexes: map<int, nat>, base: string,
    status: Status, event: Event)
    returns (r: seq<Item>, index: int, tools: map<int, nat>)
    requires WellPlaced(reasoning.With(base, status, output, Slot(messageIndex), toolIndexes))
    modifies reasoning
    ensures reasoning.With(base, status, r, Slot(index), tools)
         == Collect(old(reasoning.With(base, status, output, Slot(messageIndex), toolIndexes)), event)
  {
    hide CollectText, CollectReasoning, CollectCalls, WellPlaced;
    r, index, tools := output, messageIndex, toolIndexes;
    ghost var c := reasoning.With(base, status, output, Slot(messageIndex), toolIndexes);
    TextEnds(c);
    match event {
      case TextDelta(text) =>
        if text != "" {
          reasoning.Finish();
        }
        r, index := AppendCollectedMessagePart(r, index, base, status, OutputText, text, c);
        TextOutcome(c, OutputText, text);
      case RefusalDelta(text) =>
        if text != "" {
          reasoning.Finish();
        }
        r, index := AppendCollectedMessagePart(r, index, base, status, Refusal, text, c);
        TextOutcome(c, Refusal, text);
      case ReasoningDelta(text) =>
        r := reasoning.AppendDelta(r, base, status, text, Slot(index), tools);
      case ReasoningFinished =>
        FinishedOutcome(c);
        if reasoning.index >= 0 {
          r := r[reasoning.index := WithStatus(r[reasoning.index], Completed)];
        }
        reasoning.Finish();
      case ToolCallDelta(calls) =>
        reasoning.Finish();
        r, tools := CollectToolCalls(r, tools, base, status, calls, EndSegment(c));
      case ReasoningSignaled =>
      case OtherEvent =>
    }
  }

  method ResponsesOutputFromEvents(responseId: string, events: seq<Event>, incomplete: bool, separateReasoning: bool)
    returns (output: seq<Item>)
    ensures output == OutputFromEvents(ItemBase(responseId), events, FinalStatus(incomplete), separateReasoning)
  {
    hide Collect, WellPlaced;
    output := [];
    var base, status := ItemBase(responseId), FinalStatus(incomplete);
    var messageIndex := -1;
    var reasoning := new CollectedReasoning(separateReasoning);
    var toolIndexes: map<int, nat> := map[];
    ghost var start := Start(base, status, separateReasoning);
    StartPlaced(start);
    for i := 0 to |events|
      modifies reasoning
      invariant WellPlaced(start)
      invariant CollectAll(start, events[..i]) == reasoning.With(base, status, output, Slot(messageIndex), toolIndexes)
    {
      assert events[..i + 1][..i] == events[..i];
      output, messageIndex, toolIndexes := CollectEvent(reasoning, output, messageIndex, toolIndexes,
        base, status, events[i]);
    }
    assert events[..|events|] == events;
  }

  lemma StartPlaced(c: Collector)
    requires c == Start(c.base, c.status, c.separate)
    ensures WellPlaced(c)
  {
  }

  lemma TextEnds(c: Collector)
    requires WellPlaced(c)
    ensures WellPlaced(EndSegment(c))
  {
  }

  lemma TextOutcome(c: Collector, kind: PartKind, text: string)
    requires WellPlaced(c)
    ensures var d := CollectText(c, kind, text);
      d == (if text == "" then c else EndSegment(c)).(output := d.output, message := d.message)
  {
  }

  lemma FinishedOutcome(c: Collector)
    requires WellPlaced(c)
    ensures c.thinking.Some? ==> c.thinking.value < |c.output| && c.output[c.thinking.value].Reasoning?
  {
  }
}
