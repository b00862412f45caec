/**
 Reopening in compatibility mode: a reasoning delta after the item was finished takes a new position
 and leaves the old one vacant for good. Which event lists do that, and what it does to the items.
 */
module ResponsesReopening {
  import opened ResponsesProtocol
  import opened ResponsesSteps
  import opened ResponsesCollector
  import opened ResponsesInvariants
  import opened ResponsesAgreement
  import opened ResponsesAgreementLaws

  predicate VacantAt(w: Writer, i: nat) {
    i < |w.items| && w.items[i].Vacant?
  }

  // ---- A vacant position stays vacant ----

  lemma ReasoningKeepsVacant(w: Writer, text: string, i: nat)
    requires WellKept(w) && VacantAt(w, i)
    ensures VacantAt(TakeReasoning(w, text), i)
  {
    hide TakeReasoning;
    if text == "" {
      NoReasoningText(w);
    } else if w.thinkingOpen {
      MoreReasoning(w, text);
    } else if w.documented || w.thinking.None? {
      NewReasoning(w, text);
    } else {
      ReopenedReasoning(w, text);
    }
  }

  lemma NoReasoningText(w: Writer)
    requires WellKept(w)
    ensures TakeReasoning(w, "") == w
  {
  }

  lemma ClosingKeepsVacant(w: Writer, status: Status, i: nat)
    requires WellKept(w) && VacantAt(w, i)
    ensures VacantAt(CloseReasoning(w, status), i)
  {
    hide CloseReasoning;
    if w.thinkingOpen {
      ReasoningClosed(w, status);
    } else {
      NoReasoningOpen(w, status);
    }
  }

  lemma TextKeepsVacant(w: Writer, kind: PartKind, text: string, i: nat)
    requires WellKept(w) && w.message.Some? == w.messageOpen && VacantAt(w, i)
    ensures VacantAt(TakeText(w, kind, text), i)
  {
    hide TakeText, CloseReasoning;
    ClosingKeepsVacant(w, Completed, i);
    if text == "" {
      NoText(w, Start(w.base, Completed, false), kind);
    } else if w.messageOpen {
      MoreText(w, kind, text);
    } else {
      NewMessageItem(w, kind, text);
    }
  }

  lemma CallKeepsVacant(w: Writer, call: ToolCall, i: nat)
    requires WellKept(w) && VacantAt(w, i)
    ensures VacantAt(TakeCall(w, call), i)
  {
    hide TakeCall, CloseReasoning;
    ClosingKeepsVacant(w, Completed, i);
    if call.index in w.tools {
      KnownTool(w, call);
    } else {
      NewTool(w, call);
    }
  }

  lemma {:induction false} CallsKeepVacant(w: Writer, calls: seq<ToolCall>, i: nat)
    requires WellKept(w) && VacantAt(w, i)
    ensures VacantAt(TakeCalls(w, calls), i)
  {
    hide TakeCall, VacantAt;
    if calls != [] {
      CallsKeepVacant(w, calls[..|calls| - 1], i);
      CallKeepsVacant(TakeCalls(w, calls[..|calls| - 1]), calls[|calls| - 1], i);
    }
  }

  lemma EventKeepsVacant(w: Writer, event: Event, i: nat)
    requires Accounted(w) && VacantAt(w, i)
    ensures VacantAt(Take(w, event), i)
  {
    hide TakeReasoning, CloseReasoning, TakeText, TakeCalls, Placed, ToolsKept, ReasoningDistinct;
    var v := Begin(w);
    match event {
      case ReasoningDelta(text) => ReasoningKeepsVacant(v, text, i);
      case ReasoningFinished => ClosingKeepsVacant(v, Completed, i);
      case TextDelta(text) => TextKeepsVacant(v, OutputText, text, i);
      case RefusalDelta(text) => TextKeepsVacant(v, Refusal, text, i);
      case ToolCallDelta(calls) => CallsKeepVacant(v, calls, i);
      case ReasoningSignaled =>
      case OtherEvent =>
    }
  }

  // ---- Reopening leaves one ----

  /** As long as nothing was reopened, a closed item means reasoning was seen and finished. */
  lemma ClosedIsClosed(base: string, events: seq<Event>)
    requires !Reopens(events)
    ensures var w := TakeAll(Fresh(false, base), events); w.thinking.Some? && !w.thinkingOpen <==> Closed(events)
  {
    hide TakeAll, CollectAll, WatchAll, Reopens, Closed, Parted;
    CompatibleWatch(events);
    EventsAgree(Fresh(false, base), Start(base, Completed, false), events);
  }

  lemma DeltaVacates(w: Writer, text: string)
    requires WellKept(w) && text != "" && !w.documented && w.thinking.Some? && !w.thinkingOpen
    ensures VacantAt(Take(w, ReasoningDelta(text)), w.thinking.value)
  {
    hide TakeReasoning;
    ReopenedReasoning(Begin(w), text);
  }

  /** A run that reopens reasoning has a vacant position from then on. */
  lemma {:induction false} ReopeningVacates(base: string, events: seq<Event>) returns (i: nat)
    requires Reopens(events)
    ensures VacantAt(TakeAll(Fresh(false, base), events), i)
  {
    hide Take, Accounted, Reopens, Closed, VacantAt;
    SomethingReopens(events);
    var rest, last := events[..|events| - 1], events[|events| - 1];
    ReopensStep(events);
    var w := TakeAll(Fresh(false, base), rest);
    if Reopens(rest) {
      i := ReopeningVacates(base, rest);
      AlwaysAccounted(false, base, rest);
      EventKeepsVacant(w, last, i);
    } else {
      ClosedIsClosed(base, rest);
      i := w.thinking.value;
      DeltaVacates(w, last.text);
    }
  }

  lemma SomethingReopens(events: seq<Event>)
    requires Reopens(events)
    ensures events != []
  {
  }
}
