/**
 Streaming and collecting give the same output exactly on the agreeable event lists, and which
 lists are agreeable.
 */
module ResponsesAgreementLaws {
  import opened Wrappers
  import opened ResponsesProtocol
  import opened ResponsesCollector
  import opened ResponsesAgreement
  import opened ResponsesInvariants

  /** The output of the last frame of a finished run. */
  function StreamedOutput(documented: bool, base: string, events: seq<Event>, usageDetailMissing: bool,
      incomplete: bool): (r: seq<Item>) {
    var sent := Finish(TakeAll(Fresh(documented, base), events), usageDetailMissing, incomplete).sent;
    if sent != [] && sent[|sent| - 1].body.Snapshot? then sent[|sent| - 1].body.output else []
  }

  // ---- The exact condition ----

  /** Position by position: the settled item is the collected one unless a completed item was never finished. */
  lemma SettledAgrees(w: Writer, c: Collector, s: Watch, i: nat)
    requires i < |w.items| == |c.output| && Bare(w.items[i]) == Bare(c.output[i]) && !w.items[i].Vacant?
    requires StatusesOk(w, c, s, i) && c.status != InProgress
    ensures c.status == Completed || (!s.soft && !s.stained) ==> Settle(w.items[i], c.status) == c.output[i]
    ensures c.status != Completed && Stain(w, c, i) ==> Settle(w.items[i], c.status) != c.output[i]
    ensures c.status != Completed && s.soft && !s.open && w.thinking == Some(i) && w.items[i].Reasoning? ==>
      Settle(w.items[i], c.status) != c.output[i]
  {
    SameItem(Settle(w.items[i], c.status), c.output[i]);
  }

  lemma SameItem(a: Item, b: Item)
    ensures a == b <==> Bare(a) == Bare(b) && StatusOf(a) == StatusOf(b)
  {
  }

  lemma SettledAgreeIff(w: Writer, c: Collector, s: Watch)
    requires Agrees(w, c, s) && c.status != InProgress
    ensures Settled(w.items, c.status) == c.output <==> !s.lost && (c.status == Completed || (!s.soft && !s.stained))
  {
    hide StatusesOk, Stain, Settled, Settle, Bare;
    if !s.lost {
      forall i | 0 <= i < |w.items|
        ensures c.status == Completed || (!s.soft && !s.stained) ==> Settled(w.items, c.status)[i] == c.output[i]
      {
        SettledAgrees(w, c, s, i);
      }
      if c.status != Completed && s.stained {
        var i: nat :| Stain(w, c, i);
        InRange(w, c, i);
        SettledAgrees(w, c, s, i);
      } else if c.status != Completed && s.soft {
        SettledAgrees(w, c, s, w.thinking.value);
      }
    }
  }

  lemma InRange(w: Writer, c: Collector, i: nat)
    requires |w.items| == |c.output| && Stain(w, c, i)
    ensures i < |w.items|
  {
  }

  /** The stream ends in a snapshot of the settled items. */
  lemma StreamedIsSettled(documented: bool, base: string, events: seq<Event>,
      usageDetailMissing: bool, incomplete: bool)
    requires !(documented && usageDetailMissing)
    ensures StreamedOutput(documented, base, events, usageDetailMissing, incomplete)
         == Settled(TakeAll(Fresh(documented, base), events).items, FinalStatus(incomplete))
  {
    hide TakeAll, CloseAll, Accounted;
    AlwaysAccounted(documented, base, events);
    var w := TakeAll(Fresh(documented, base), events);
    SettledAfterBegin(w, FinalStatus(incomplete));
  }

  lemma SettledAfterBegin(w: Writer, status: Status)
    requires Accounted(w)
    ensures CloseAll(Begin(w), status).items == Settled(w.items, status)
  {
    hide CloseAll, Accounted;
    BeginAccounted(w);
    CloseAllSettles(Begin(w), status);
  }

  /** Streaming agrees with collecting if and only if the events are agreeable. */
  lemma StreamAgreesIff(documented: bool, base: string, events: seq<Event>, usageDetailMissing: bool, incomplete: bool)
    requires !(documented && usageDetailMissing)
    ensures StreamedOutput(documented, base, events, usageDetailMissing, incomplete)
         == OutputFromEvents(base, events, FinalStatus(incomplete), documented)
       <==> Agreeable(documented, events, FinalStatus(incomplete))
  {
    hide StreamedOutput, TakeAll, CollectAll, WatchAll;
    var status := FinalStatus(incomplete);
    StreamedIsSettled(documented, base, events, usageDetailMissing, incomplete);
    EventsAgree(Fresh(documented, base), Start(base, status, documented), events);
    SettledAgreeIff(TakeAll(Fresh(documented, base), events), CollectAll(Start(base, status, documented), events),
      WatchAll(documented, events));
  }

  // ---- The documented contract ----

  predicate Thinks(event: Event) {
    event.ReasoningDelta? && event.text != ""
  }

  /** Non-empty text or refusal, or any tool delta. */
  predicate Interrupts(event: Event) {
    ((event.TextDelta? || event.RefusalDelta?) && event.text != "") || event.ToolCallDelta?
  }

  /** A reasoning segment has started and ReasoningFinished has not come since. */
  predicate MidSegment(events: seq<Event>) {
    exists i :: 0 <= i < |events| && Thinks(events[i]) && forall j :: i < j < |events| ==> !events[j].ReasoningFinished?
  }

  /** Every segment is ended by ReasoningFinished before anything else comes. */
  predicate Disciplined(events: seq<Event>) {
    forall k :: 0 <= k < |events| && Interrupts(events[k]) ==> !MidSegment(events[..k])
  }

  lemma MidSegmentStep(events: seq<Event>)
    requires events != []
    ensures
      var rest, last := events[..|events| - 1], events[|events| - 1];
      MidSegment(events) <==> Thinks(last) || (!last.ReasoningFinished? && MidSegment(rest))
  {
    var n := |events| - 1;
    var rest := events[..n];
    if MidSegment(events) {
      var i :| 0 <= i < |events| && Thinks(events[i]) && forall j :: i < j < |events| ==> !events[j].ReasoningFinished?;
      if i < n {
        assert rest[i] == events[i];
        assert forall j :: i < j < |rest| ==> rest[j] == events[j];
      }
    }
    if Thinks(events[n]) {
      assert MidSegment(events);
    } else if !events[n].ReasoningFinished? && MidSegment(rest) {
      var i :| 0 <= i < |rest| && Thinks(rest[i]) && forall j :: i < j < |rest| ==> !rest[j].ReasoningFinished?;
      assert events[i] == rest[i];
      assert forall j :: i < j < |rest| ==> rest[j] == events[j];
      assert MidSegment(events);
    }
  }

  lemma DisciplinedStep(events: seq<Event>)
    requires events != [] && Disciplined(events)
    ensures
      var rest, last := events[..|events| - 1], events[|events| - 1];
      Disciplined(rest) && (Interrupts(last) ==> !MidSegment(rest))
  {
    hide MidSegment;
    var rest := events[..|events| - 1];
    forall k | 0 <= k < |rest| && Interrupts(rest[k])
      ensures !MidSegment(rest[..k])
    {
      assert rest[k] == events[k] && rest[..k] == events[..k];
    }
  }

  /** The watch of a disciplined list: never lost, soft or stained; open exactly in mid segment. */
  lemma {:induction false} DisciplinedWatch(events: seq<Event>)
    requires Disciplined(events)
    ensures
      var s := WatchAll(true, events);
      !s.lost && !s.soft && !s.stained && s.open == MidSegment(events) && (s.open ==> !s.ended)
  {
    hide Disciplined, MidSegment, WatchCalls;
    if events == [] {
      NoEvents();
    } else {
      var rest, last := events[..|events| - 1], events[|events| - 1];
      DisciplinedStep(events);
      DisciplinedWatch(rest);
      MidSegmentStep(events);
      var s := WatchAll(true, rest);
      if last.ToolCallDelta? {
        ClosedCalls(s.(ended := s.ended || s.seen), last.calls);
      }
    }
  }

  lemma NoEvents()
    ensures !MidSegment([])
  {
  }

  lemma {:induction false} ClosedCalls(s: Watch, calls: seq<ToolCall>)
    requires !s.open
    ensures WatchCalls(true, s, calls) == s.(known := WatchCalls(true, s, calls).known)
  {
    if calls != [] {
      ClosedCalls(s, calls[..|calls| - 1]);
    }
  }

  /** On the documented contract a disciplined stream ends in exactly the collected output. */
  lemma DisciplinedAgrees(base: string, events: seq<Event>, incomplete: bool)
    requires Disciplined(events)
    ensures StreamedOutput(true, base, events, false, incomplete) ==
      OutputFromEvents(base, events, FinalStatus(incomplete), true)
  {
    hide StreamedOutput, OutputFromEvents, WatchAll, Disciplined;
    DisciplinedWatch(events);
    StreamAgreesIff(true, base, events, false, incomplete);
  }

  // ---- Compatibility mode ----

  /** A non-empty reasoning delta follows the ReasoningFinished that closed the item. */
  predicate Reopens(events: seq<Event>) {
    exists k :: 0 <= k < |events| && Thinks(events[k]) && Closed(events[..k])
  }

  /** Reasoning was seen and finished later. */
  predicate Closed(events: seq<Event>) {
    exists j :: 0 <= j < |events| && events[j].ReasoningFinished? && Thought(events[..j])
  }

  predicate Thought(events: seq<Event>) {
    exists i :: 0 <= i < |events| && Thinks(events[i])
  }

  lemma ThoughtStep(events: seq<Event>)
    requires events != []
    ensures Thought(events) <==> Thought(events[..|events| - 1]) || Thinks(events[|events| - 1])
  {
    var rest := events[..|events| - 1];
    assert forall i :: 0 <= i < |rest| ==> rest[i] == events[i];
  }

  lemma ClosedStep(events: seq<Event>)
    requires events != []
    ensures
      var rest, last := events[..|events| - 1], events[|events| - 1];
      Closed(events) <==> Closed(rest) || (last.ReasoningFinished? && Thought(rest))
  {
    hide Thought;
    var rest := events[..|events| - 1];
    assert forall i :: 0 <= i < |rest| ==> rest[i] == events[i] && rest[..i] == events[..i];
  }

  lemma ReopensStep(events: seq<Event>)
    requires events != []
    ensures
      var rest, last := events[..|events| - 1], events[|events| - 1];
      Reopens(events) <==> Reopens(rest) || (Thinks(last) && Closed(rest))
  {
    hide Closed;
    var rest := events[..|events| - 1];
    assert forall i :: 0 <= i < |rest| ==> rest[i] == events[i] && rest[..i] == events[..i];
  }

  lemma {:induction false} CompatibleWatch(events: seq<Event>)
    ensures
      var s := WatchAll(false, events);
      && s.lost == Reopens(events) && s.seen == Thought(events) && !s.soft && !s.stained
      && (!s.lost ==> (s.seen && !s.open <==> Closed(events))) && (s.open ==> s.seen)
  {
    hide Reopens, Closed, Thought, WatchCalls;
    if events == [] {
      NothingReopened();
    } else {
      var rest, last := events[..|events| - 1], events[|events| - 1];
      CompatibleWatch(rest);
      ThoughtStep(events);
      ClosedStep(events);
      ReopensStep(events);
      var s := WatchAll(false, rest);
      if last.ToolCallDelta? {
        CompatibleCalls(s.(ended := s.ended || s.seen), last.calls);
      }
    }
  }

  lemma NothingReopened()
    ensures !Reopens([]) && !Closed([]) && !Thought([])
  {
  }

  lemma {:induction false} CompatibleCalls(s: Watch, calls: seq<ToolCall>)
    ensures WatchCalls(false, s, calls) == s.(known := WatchCalls(false, s, calls).known)
  {
    if calls != [] {
      CompatibleCalls(s, calls[..|calls| - 1]);
    }
  }

  /** In compatibility mode the two agree exactly when the reasoning item is never reopened. */
  lemma CompatibleAgreesIff(base: string, events: seq<Event>, usageDetailMissing: bool, incomplete: bool)
    ensures StreamedOutput(false, base, events, usageDetailMissing, incomplete)
         == OutputFromEvents(base, events, FinalStatus(incomplete), false)
       <==> !Reopens(events)
  {
    hide StreamedOutput, OutputFromEvents, WatchAll, Reopens;
    CompatibleWatch(events);
    StreamAgreesIff(false, base, events, usageDetailMissing, incomplete);
  }

  // ---- Where they part ----

  /** With the message already open, text ends the collector's segment but not the writer's. */
  lemma InterleavedReasoningDisagrees(base: string, incomplete: bool)
    ensures
      var events := [TextDelta("a"), ReasoningDelta("b"), TextDelta("c"), ReasoningDelta("d")];
      StreamedOutput(true, base, events, false, incomplete) !=
        OutputFromEvents(base, events, FinalStatus(incomplete), true)
  {
    hide StreamedOutput, OutputFromEvents;
    var events := [TextDelta("a"), ReasoningDelta("b"), TextDelta("c"), ReasoningDelta("d")];
    assert events[..3] == [TextDelta("a"), ReasoningDelta("b"), TextDelta("c")];
    assert events[..3][..2] == [TextDelta("a"), ReasoningDelta("b")];
    assert events[..3][..2][..1] == [TextDelta("a")];
    assert events[..3][..2][..1][..0] == [];
    assert WatchAll(true, events[..3][..2][..1]).messageOpen;
    assert WatchAll(true, events[..3][..2]).open;
    assert WatchAll(true, events[..3]).ended;
    assert WatchAll(true, events).lost;
    StreamAgreesIff(true, base, events, false, incomplete);
  }

  /** An incomplete run: the writer has completed the interrupted segment, the collector has not. */
  lemma InterruptedReasoningDisagrees(base: string)
    ensures
      var events := [ReasoningDelta("a"), TextDelta("b")];
      StreamedOutput(true, base, events, false, true) != OutputFromEvents(base, events, Incomplete, true)
  {
    hide StreamedOutput, OutputFromEvents;
    var events := [ReasoningDelta("a"), TextDelta("b")];
    assert events[..1] == [ReasoningDelta("a")];
    assert events[..1][..0] == [];
    assert WatchAll(true, events[..1]).open;
    assert WatchAll(true, events).soft;
    StreamAgreesIff(true, base, events, false, true);
  }

  lemma SmallestReopening()
    ensures Reopens([ReasoningDelta("a"), ReasoningFinished, ReasoningDelta("b")])
  {
    var events := [ReasoningDelta("a"), ReasoningFinished, ReasoningDelta("b")];
    assert Thinks(events[..2][..1][0]);
    assert Thought(events[..2][..1]);
    assert events[..2][1].ReasoningFinished?;
    assert Closed(events[..2]);
    assert Thinks(events[2]);
  }

  /** Compatibility mode: reopened reasoning takes a new position in the stream, the old one in the collected output. */
  lemma ReopenedReasoningDisagrees(base: string, usageDetailMissing: bool, incomplete: bool)
    ensures
      var events := [ReasoningDelta("a"), ReasoningFinished, ReasoningDelta("b")];
      StreamedOutput(false, base, events, usageDetailMissing, incomplete) !=
        OutputFromEvents(base, events, FinalStatus(incomplete), false)
  {
    hide StreamedOutput, OutputFromEvents, Reopens;
    SmallestReopening();
    CompatibleAgreesIff(base, [ReasoningDelta("a"), ReasoningFinished, ReasoningDelta("b")],
      usageDetailMissing, incomplete);
  }
}
