/** Every run, streamed or collected, holds what its events say, and so does its output at the end. */
module ResponsesConservedRuns {
  import opened Wrappers
  import opened DecimalText
  import opened ResponsesProtocol
  import opened ResponsesCollector
  import opened ResponsesSteps
  import opened ResponsesInvariants
  import opened ResponsesConservation

  // ---- Steps common to both ----

  /** New items disturb nothing that is there. */
  lemma ReasoningStartsHeld(h: Holding, g: Holding, said: Said, text: string, status: Status)
    requires Holds(h, said)
    requires g == h.(items := h.items + [Reasoning(SegmentId(h.separate, h.base, h.segments), status, [text])],
                     thinking := Some(|h.items|), segments := h.segments + 1)
    ensures Holds(g, said.(thought := said.thought + text))
  {
    ThoughtStarts(h, g, said.thought, text, status);
    hide ThoughtHeld, MessageHeld, ToolHeld, ToolsInOrder;
    MessageKept(h, g, said.message);
    ToolsKeptHeld(h, g, said.calls);
  }

  lemma ReasoningGrowsHeld(h: Holding, g: Holding, said: Said, text: string, item: Item)
    requires Holds(h, said) && h.thinking.Some? && ThoughtHeld(h, said.thought)
    requires Alike(item, AppendSummary(h.items[h.thinking.value], text))
    requires g == h.(items := h.items[h.thinking.value := item])
    ensures Holds(g, said.(thought := said.thought + text))
  {
    ThoughtGrows(h, g, said.thought, text, item);
    assert item.Reasoning? && h.items[h.thinking.value].Reasoning?;
    hide ThoughtHeld, MessageHeld, ToolHeld, ToolsInOrder;
    MessageKept(h, g, said.message);
    ToolsKeptHeld(h, g, said.calls);
  }

  lemma ReasoningMovesHeld(h: Holding, g: Holding, said: Said, text: string)
    requires Holds(h, said) && h.thinking.Some? && !h.separate && ThoughtHeld(h, said.thought)
    requires forall i :: 0 <= i < |h.items| && h.items[i].Reasoning? ==> h.thinking == Some(i)
    requires
      var n := h.thinking.value;
      g == h.(items := h.items[n := Vacant] + [Reasoning("rs_" + h.base, InProgress, [h.items[n].summary[0] + text])],
              thinking := Some(|h.items|))
    ensures Holds(g, said.(thought := said.thought + text))
  {
    ThoughtMoves(h, g, said.thought, text);
    hide ThoughtHeld, MessageHeld, ToolHeld, ToolsInOrder;
    MessageKept(h, g, said.message);
    ToolsKeptHeld(h, g, said.calls);
  }

  lemma MessageStartsHeld(h: Holding, g: Holding, said: Said, kind: PartKind, text: string, status: Status)
    requires Holds(h, said) && h.message.None? && text != ""
    requires g == h.(items := h.items + [Message("msg_" + h.base, status, [Part(kind, text)])],
      message := Some(|h.items|))
    ensures Holds(g, said.(message := said.message + Tag(kind, text)))
  {
    hide ThoughtHeld, MessageHeld, ToolHeld, ToolsInOrder, Tag;
    MessageStarts(h, g, said.message, kind, text, status);
    ThoughtKept(h, g, said.thought);
    ToolsKeptHeld(h, g, said.calls);
  }

  lemma MessageGrowsHeld(h: Holding, g: Holding, said: Said, kind: PartKind, text: string)
    requires Holds(h, said) && h.message.Some? && text != "" && MessageHeld(h, said.message)
    requires
      var n := h.message.value;
      g == h.(items := h.items[n := h.items[n].(parts := CollectedParts(h.items[n].parts, kind, text))])
    ensures Holds(g, said.(message := said.message + Tag(kind, text)))
  {
    MessageGrows(h, g, said.message, kind, text);
    assert h.items[h.message.value].Message?;
    hide ThoughtHeld, MessageHeld, ToolHeld, ToolsInOrder;
    ThoughtKept(h, g, said.thought);
    ToolsKeptHeld(h, g, said.calls);
  }

  lemma ToolStartsHeld(h: Holding, g: Holding, said: Said, call: ToolCall, status: Status)
    requires Holds(h, said) && call.index !in h.tools
    requires
      var item := FunctionCall("fc_" + h.base + "_" + Itoa(call.index),
        "call_" + h.base + "_" + Itoa(call.index), status,
                               call.name, call.arguments);
      g == h.(items := h.items + [item], tools := h.tools[call.index := |h.items|])
    ensures Holds(g, said.(calls := said.calls + [call]))
  {
    hide ThoughtHeld, MessageHeld, ToolHeld, ToolsInOrder, Itoa;
    ToolStarts(h, g, said.calls, call, g.items[|h.items|]);
    ThoughtKept(h, g, said.thought);
    MessageKept(h, g, said.message);
  }

  lemma ToolGrowsHeld(h: Holding, g: Holding, said: Said, call: ToolCall)
    requires Holds(h, said) && call.index in h.tools && ToolHeld(h, said.calls, call.index)
    requires
      var n := h.tools[call.index];
      var item := h.items[n];
      var named := if call.name == "" then item else item.(name := call.name);
      g == h.(items := h.items[n := named.(arguments := item.arguments + call.arguments)])
    ensures Holds(g, said.(calls := said.calls + [call]))
  {
    hide ThoughtHeld, MessageHeld, ToolsInOrder, Itoa, Mentions, NameIn, ArgumentsIn;
    ToolGrows(h, g, said.calls, call);
    assert h.items[h.tools[call.index]].FunctionCall?;
    hide ToolHeld;
    ThoughtKept(h, g, said.thought);
    MessageKept(h, g, said.message);
  }

  // ---- The writer ----

  lemma OnlyThinker(w: Writer)
    requires Accounted(w) && !w.documented
    ensures forall i :: 0 <= i < |w.items| && w.items[i].Reasoning? ==> w.thinking == Some(i)
  {
    forall i | 0 <= i < |w.items| && w.items[i].Reasoning?
      ensures w.thinking == Some(i)
    {
      assert Placed(w, i);
    }
  }

  /** The id a new item gets is the one its number calls for. */
  lemma NextSegment(w: Writer)
    requires Accounted(w)
    ensures w.documented || w.thinking.None? ==> ReasoningId(w) == SegmentId(w.documented, w.base, w.segments)
    ensures !w.documented ==> ReasoningId(w) == "rs_" + w.base
  {
  }

  lemma NothingMore(said: Said, kind: PartKind)
    ensures said.(thought := said.thought + "") == said && said.(message := said.message + Tag(kind, "")) == said
    ensures said.(calls := said.calls + []) == said
  {
    assert said.thought + "" == said.thought && said.message + Tag(kind, "") == said.message;
    assert said.calls + [] == said.calls;
  }

  lemma TakeReasoningHolds(w: Writer, said: Said, text: string)
    requires Accounted(w) && Holds(OfWriter(w), said)
    ensures Holds(OfWriter(TakeReasoning(w, text)), said.(thought := said.thought + text))
  {
    hide TakeReasoning, Placed, ToolsKept, ReasoningDistinct, ThoughtHeld, MessageHeld, ToolHeld, ToolsInOrder;
    var v := TakeReasoning(w, text);
    NextSegment(w);
    if text == "" {
      NoReasoningText(w);
      NothingMore(said, OutputText);
    } else if w.thinkingOpen {
      MoreReasoning(w, text);
      ReasoningGrowsHeld(OfWriter(w), OfWriter(v), said, text, v.items[w.thinking.value]);
    } else if w.documented || w.thinking.None? {
      NewReasoning(w, text);
      ReasoningStartsHeld(OfWriter(w), OfWriter(v), said, text, InProgress);
    } else {
      OnlyThinker(w);
      ReopenedReasoning(w, text);
      ReasoningMovesHeld(OfWriter(w), OfWriter(v), said, text);
    }
  }

  lemma CloseReasoningHolds(w: Writer, said: Said, status: Status)
    requires WellKept(w) && Holds(OfWriter(w), said)
    ensures Holds(OfWriter(CloseReasoning(w, status)), said)
  {
    hide CloseReasoning, Holds;
    if w.thinkingOpen {
      ReasoningClosed(w, status);
      StatusChanges(OfWriter(w), OfWriter(CloseReasoning(w, status)), said);
    } else {
      NoReasoningOpen(w, status);
    }
  }

  lemma TakeTextHolds(w: Writer, said: Said, kind: PartKind, text: string)
    requires Accounted(w) && Holds(OfWriter(w), said)
    ensures Holds(OfWriter(TakeText(w, kind, text)), said.(message := said.message + Tag(kind, text)))
  {
    hide TakeText, CloseReasoning, Placed, ToolsKept, ReasoningDistinct, ThoughtHeld, ToolHeld, ToolsInOrder,
      MessageHeld;
    var v := TakeText(w, kind, text);
    if text == "" {
      NoMessageText(w, kind);
      NothingMore(said, kind);
    } else if w.messageOpen {
      MoreText(w, kind, text);
      MessageGrowsHeld(OfWriter(w), OfWriter(v), said, kind, text);
    } else {
      CloseReasoningHolds(w, said, Completed);
      NewMessageItem(w, kind, text);
      ReasoningAside(w);
      MessageStartsHeld(OfWriter(CloseReasoningBeforeNextItem(w)), OfWriter(v), said, kind, text, InProgress);
    }
  }

  lemma TakeCallHolds(w: Writer, said: Said, call: ToolCall)
    requires WellKept(w) && Holds(OfWriter(w), said)
    ensures Holds(OfWriter(TakeCall(w, call)), said.(calls := said.calls + [call]))
  {
    hide TakeCall, CloseReasoning, ThoughtHeld, ToolsInOrder, MessageHeld, Itoa, ToolHeld;
    var v := TakeCall(w, call);
    if call.index in w.tools {
      KnownTool(w, call);
      ToolGrowsHeld(OfWriter(w), OfWriter(v), said, call);
    } else {
      CloseReasoningHolds(w, said, Completed);
      NewTool(w, call);
      ToolsAside(w);
      ToolStartsHeld(OfWriter(CloseReasoningBeforeNextItem(w)), OfWriter(v), said, call, InProgress);
    }
  }

  lemma ToolsAside(w: Writer)
    requires WellKept(w)
    ensures var u := CloseReasoningBeforeNextItem(w); u.tools == w.tools && u.base == w.base
  {
  }

  lemma {:induction false} TakeCallsHolds(w: Writer, said: Said, calls: seq<ToolCall>)
    requires WellKept(w) && Holds(OfWriter(w), said)
    ensures Holds(OfWriter(TakeCalls(w, calls)), said.(calls := said.calls + calls))
  {
    hide TakeCall, Holds;
    if calls == [] {
      NothingMore(said, OutputText);
    } else {
      var n := |calls| - 1;
      TakeCallsHolds(w, said, calls[..n]);
      TakeCallHolds(TakeCalls(w, calls[..n]), said.(calls := said.calls + calls[..n]), calls[n]);
      assert said.calls + calls[..n] + [calls[n]] == said.calls + calls;
    }
  }

  lemma TakeHolds(w: Writer, said: Said, event: Event)
    requires Accounted(w) && Holds(OfWriter(w), said)
    ensures Holds(OfWriter(Take(w, event)), Say(said, event))
  {
    hide TakeReasoning, CloseReasoning, TakeText, TakeCalls, Placed, ToolsKept, ReasoningDistinct, Holds;
    BeginAccounted(w);
    var v := Begin(w);
    assert OfWriter(v) == OfWriter(w);
    match event {
      case ReasoningDelta(text) => TakeReasoningHolds(v, said, text);
      case ReasoningFinished => CloseReasoningHolds(v, said, Completed);
      case TextDelta(text) => TakeTextHolds(v, said, OutputText, text);
      case RefusalDelta(text) => TakeTextHolds(v, said, Refusal, text);
      case ToolCallDelta(calls) => TakeCallsHolds(v, said, calls);
      case ReasoningSignaled =>
      case OtherEvent =>
    }
  }

  /** Events that say nothing: signals, other events, and deltas without text or calls. */
  predicate SaysNothing(event: Event) {
    || event.ReasoningSignaled? || event.OtherEvent? || event == ReasoningDelta("") || event == TextDelta("")
    || event == RefusalDelta("") || event == ToolCallDelta([])
  }

  /** They do no more than begin the stream: no frame is sent for them and no item changes. */
  lemma SilentEvents(w: Writer, event: Event)
    requires WellKept(w) && SaysNothing(event)
    ensures Take(w, event) == Begin(w)
  {
  }

  lemma NothingSaid(documented: bool, base: string, status: Status)
    ensures Holds(OfWriter(Fresh(documented, base)), Said("", [], []))
    ensures Holds(OfCollector(Start(base, status, documented)), Said("", [], []))
  {
  }

  /** In every state of every run the writer's items hold exactly what the events have said. */
  lemma {:induction false} WriterHolds(documented: bool, base: string, events: seq<Event>)
    ensures Holds(OfWriter(TakeAll(Fresh(documented, base), events)), SaidBy(events))
  {
    hide Take, Holds, Accounted;
    if events == [] {
      NothingSaid(documented, base, Completed);
    } else {
      var rest := events[..|events| - 1];
      WriterHolds(documented, base, rest);
      AlwaysAccounted(documented, base, rest);
      TakeHolds(TakeAll(Fresh(documented, base), rest), SaidBy(rest), events[|events| - 1]);
    }
  }

  /** And so does the output of a finished run. */
  lemma OutputHolds(documented: bool, base: string, events: seq<Event>, usageDetailMissing: bool, incomplete: bool)
    ensures Holds(OfWriter(Finish(TakeAll(Fresh(documented, base), events), usageDetailMissing, incomplete)),
      SaidBy(events))
  {
    hide TakeAll, CloseAll, Holds, Accounted;
    var w := TakeAll(Fresh(documented, base), events);
    WriterHolds(documented, base, events);
    AlwaysAccounted(documented, base, events);
    BeginAccounted(w);
    var v := Begin(w);
    assert OfWriter(v) == OfWriter(w);
    if !(documented && usageDetailMissing) {
      ClosingHolds(v, SaidBy(events), FinalStatus(incomplete));
    }
  }

  lemma ClosingHolds(w: Writer, said: Said, status: Status)
    requires Accounted(w) && Holds(OfWriter(w), said)
    ensures Holds(OfWriter(CloseAll(w, status)), said)
  {
    hide CloseAll, Holds, Placed, ToolsKept, ReasoningDistinct;
    CloseAllSettles(w, status);
    ClosingKeepsPlaces(w, status);
    StatusChanges(OfWriter(w), OfWriter(CloseAll(w, status)), said);
  }

  lemma ClosingKeepsPlaces(w: Writer, status: Status)
    requires WellKept(w)
    ensures var v := CloseAll(w, status); OfWriter(v) == OfWriter(w).(items := v.items)
  {
    hide CloseReasoning, CloseMessage, CloseTools, WellKept;
    var u := CloseReasoning(w, status);
    if w.thinkingOpen { ReasoningClosed(w, status); } else { NoReasoningOpen(w, status); }
    var v := CloseMessage(u, status);
    CloseMessageItems(u, status);
    CloseToolsItems(v, |v.toolOrder|, status);
  }

  // ---- The collector ----

  lemma NextCollected(c: Collector, thought: string)
    requires ThoughtHeld(OfCollector(c), thought) && (c.thinking.None? || c.separate)
    ensures (if c.segments > 0 then "rs_" + c.base + "_" + Itoa(c.segments) else "rs_" + c.base)
         == SegmentId(c.separate, c.base, c.segments)
  {
    if c.thinking.None? {
      NoThoughts(c.output);
    }
  }

  lemma CollectReasoningHolds(c: Collector, said: Said, text: string)
    requires WellPlaced(c) && Holds(OfCollector(c), said)
    ensures Holds(OfCollector(CollectReasoning(c, text)), said.(thought := said.thought + text))
  {
    hide ThoughtHeld, MessageHeld, ToolHeld, ToolsInOrder;
    var d := CollectReasoning(c, text);
    if text == "" {
      NothingMore(said, OutputText);
    } else if c.thinking.Some? && !(c.separate && c.finished) {
      ReasoningGrowsHeld(OfCollector(c), OfCollector(d), said, text, d.output[c.thinking.value]);
    } else {
      NextCollected(c, said.thought);
      ReasoningStartsHeld(OfCollector(c), OfCollector(d), said, text, c.status);
    }
  }

  lemma CollectFinishedHolds(c: Collector, said: Said)
    requires WellPlaced(c) && Holds(OfCollector(c), said)
    ensures Holds(OfCollector(CollectFinished(c)), said)
  {
    hide Holds;
    if c.thinking.Some? {
      StatusChanges(OfCollector(c), OfCollector(CollectFinished(c)), said);
    }
  }

  lemma CollectTextHolds(c: Collector, said: Said, kind: PartKind, text: string)
    requires WellPlaced(c) && Holds(OfCollector(c), said)
    ensures Holds(OfCollector(CollectText(c, kind, text)), said.(message := said.message + Tag(kind, text)))
  {
    hide ThoughtHeld, MessageHeld, ToolHeld, ToolsInOrder, CollectedParts;
    var d := CollectText(c, kind, text);
    if text == "" {
      NothingMore(said, kind);
    } else if c.message.None? {
      MessageStartsHeld(OfCollector(c), OfCollector(d), said, kind, text, c.status);
    } else {
      MessageGrowsHeld(OfCollector(c), OfCollector(d), said, kind, text);
    }
  }

  lemma CollectCallHolds(c: Collector, said: Said, call: ToolCall)
    requires WellPlaced(c) && Holds(OfCollector(c), said)
    ensures Holds(OfCollector(CollectCall(c, call)), said.(calls := said.calls + [call]))
  {
    hide ThoughtHeld, MessageHeld, ToolHeld, ToolsInOrder, Itoa;
    var d := CollectCall(c, call);
    if call.index !in c.tools {
      ToolStartsHeld(OfCollector(c), OfCollector(d), said, call, c.status);
    } else {
      ToolGrowsHeld(OfCollector(c), OfCollector(d), said, call);
    }
  }

  lemma {:induction false} CollectCallsHolds(c: Collector, said: Said, calls: seq<ToolCall>)
    requires WellPlaced(c) && Holds(OfCollector(c), said)
    ensures Holds(OfCollector(CollectCalls(c, calls)), said.(calls := said.calls + calls))
  {
    hide CollectCall, Holds;
    if calls == [] {
      NothingMore(said, OutputText);
    } else {
      var n := |calls| - 1;
      CollectCallsHolds(c, said, calls[..n]);
      CollectCallHolds(CollectCalls(c, calls[..n]), said.(calls := said.calls + calls[..n]), calls[n]);
      assert said.calls + calls[..n] + [calls[n]] == said.calls + calls;
    }
  }

  lemma CollectHolds(c: Collector, said: Said, event: Event)
    requires WellPlaced(c) && Holds(OfCollector(c), said)
    ensures Holds(OfCollector(Collect(c, event)), Say(said, event))
  {
    hide CollectReasoning, CollectFinished, CollectText, CollectCalls, Holds;
    assert OfCollector(EndSegment(c)) == OfCollector(c);
    match event {
      case ReasoningDelta(text) => CollectReasoningHolds(c, said, text);
      case ReasoningFinished => CollectFinishedHolds(c, said);
      case TextDelta(text) => CollectTextHolds(c, said, OutputText, text);
      case RefusalDelta(text) => CollectTextHolds(c, said, Refusal, text);
      case ToolCallDelta(calls) => CollectCallsHolds(EndSegment(c), said, calls);
      case ReasoningSignaled =>
      case OtherEvent =>
    }
  }

  /** The collected items hold exactly what the events said. */
  lemma {:induction false} CollectorHolds(base: string, events: seq<Event>, status: Status, separate: bool)
    ensures Holds(OfCollector(CollectAll(Start(base, status, separate), events)), SaidBy(events))
  {
    hide Collect, Holds;
    if events == [] {
      NothingSaid(separate, base, status);
    } else {
      var rest := events[..|events| - 1];
      CollectorHolds(base, rest, status, separate);
      CollectHolds(CollectAll(Start(base, status, separate), rest), SaidBy(rest), events[|events| - 1]);
    }
  }
}
