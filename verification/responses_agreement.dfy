/**
 When the stream's final snapshot equals the collected output.

 The two do not always agree. A watch over the events alone tells exactly when they do: it follows
 the reasoning segment as the writer sees it and as the collector sees it.
 */
module ResponsesAgreement {
  import opened Wrappers
  import opened ResponsesProtocol
  import opened ResponsesCollector
  import opened ResponsesSteps

  /**
   open: the writer's reasoning item is open. ended: the collector's segment is over. soft: the
   writer completed the current item because another item began, with no ReasoningFinished since.
   stained: an earlier item was left soft. lost: the two have put a delta into different items.
   */
  datatype Watch = Watch(
    open: bool, ended: bool, seen: bool, messageOpen: bool, known: set<int>, soft: bool, stained: bool, lost: bool)

  const NOTHING_SEEN: Watch := Watch(false, false, false, false, {}, false, false, false)

  function WatchReasoning(documented: bool, s: Watch, text: string): Watch {
    if text == "" then s
    else if s.open then (if documented && s.ended then s.(lost := true, ended := false) else s)
    else if s.seen && !documented then s.(lost := true, open := true)
    else s.(open := true, ended := false, seen := true, stained := s.stained || s.soft, soft := false)
  }

  function WatchFinished(s: Watch): Watch {
    s.(open := false, ended := s.ended || s.seen, soft := false)
  }

  /** Another item begins. */
  function WatchNext(documented: bool, s: Watch): Watch {
    if documented then s.(open := false, soft := s.soft || s.open) else s
  }

  function WatchText(documented: bool, s: Watch, text: string): Watch {
    if text == "" then s
    else
      var t := if s.messageOpen then s else WatchNext(documented, s).(messageOpen := true);
      t.(ended := t.ended || t.seen)
  }

  function WatchCall(documented: bool, s: Watch, call: ToolCall): Watch {
    if call.index in s.known then s else WatchNext(documented, s).(known := s.known + {call.index})
  }

  function WatchCalls(documented: bool, s: Watch, calls: seq<ToolCall>): Watch {
    if calls == [] then s else WatchCall(documented,
      WatchCalls(documented, s, calls[..|calls| - 1]), calls[|calls| - 1])
  }

  function WatchEvent(documented: bool, s: Watch, event: Event): Watch {
    match event
    case ReasoningDelta(text) => WatchReasoning(documented, s, text)
    case ReasoningFinished => WatchFinished(s)
    case TextDelta(text) => WatchText(documented, s, text)
    case RefusalDelta(text) => WatchText(documented, s, text)
    case ToolCallDelta(calls) => WatchCalls(documented, s.(ended := s.ended || s.seen), calls)
    case ReasoningSignaled => s
    case OtherEvent => s
  }

  function WatchAll(documented: bool, events: seq<Event>): Watch {
    if events == [] then NOTHING_SEEN
    else WatchEvent(documented, WatchAll(documented, events[..|events| - 1]), events[|events| - 1])
  }

  /** The condition on the events under which the two forms agree. */
  predicate Agreeable(documented: bool, events: seq<Event>, status: Status) {
    var s := WatchAll(documented, events);
    !s.lost && (status == Completed || (!s.soft && !s.stained))
  }

  // ---- The invariant ----

  function Bare(item: Item): Item {
    WithStatus(item, NoStatus)
  }

  function StatusOf(item: Item): Status {
    if item.Vacant? then NoStatus else item.status
  }

  /** What each holds, whether or not they have parted. */
  predicate InSync(w: Writer, c: Collector, s: Watch) {
    && w.documented == c.separate && w.base == c.base
    && w.message.Some? == c.message.Some? == w.messageOpen == s.messageOpen
    && w.thinking.Some? == c.thinking.Some? == s.seen
    && w.tools.Keys == c.tools.Keys == s.known
    && w.thinkingOpen == s.open && c.finished == s.ended
    && (s.seen && !s.open ==> s.ended)
    && (s.soft ==> s.seen && !s.open && w.documented)
    && (s.stained ==> w.documented)
  }

  predicate Parted(w: Writer, c: Collector) {
    if w.documented then |c.output| > |w.items| else |w.items| > |c.output|
  }

  /** The status the writer has for an item and the one the collector has. */
  predicate StatusesOk(w: Writer, c: Collector, s: Watch, i: nat)
    requires i < |w.items| == |c.output|
  {
    var a, b := StatusOf(w.items[i]), StatusOf(c.output[i]);
    if !w.items[i].Reasoning? then a == InProgress && b == c.status
    else if w.thinking != Some(i) then a == Completed && (b == Completed || (b == c.status && s.stained))
    else if s.open then a == InProgress && b == c.status
    else a == Completed && b == if s.soft then c.status else Completed
  }

  predicate Stain(w: Writer, c: Collector, i: nat)
    requires |w.items| == |c.output|
  {
    i < |w.items| && w.items[i].Reasoning? && w.thinking != Some(i) && StatusOf(c.output[i]) == c.status
  }

  ghost predicate Aligned(w: Writer, c: Collector, s: Watch) {
    && |w.items| == |c.output|
    && w.message == c.message && w.thinking == c.thinking && w.tools == c.tools && w.segments == c.segments
    && (w.segments > 0 <==> w.thinking.Some?)
    && (!w.documented && w.thinking.Some? ==> forall i :: 0 <= i < |w.items| && w.items[i].Reasoning? ==>
      w.thinking == Some(i))
    && (w.thinking.None? ==> forall i :: 0 <= i < |w.items| ==> !w.items[i].Reasoning?)
    && (forall i :: 0 <= i < |w.items| ==>
          !w.items[i].Vacant? && Bare(w.items[i]) == Bare(c.output[i]) && StatusesOk(w, c, s, i))
    && (s.stained ==> exists i: nat :: Stain(w, c, i))
  }

  ghost predicate Agrees(w: Writer, c: Collector, s: Watch) {
    && WellKept(w) && WellPlaced(c) && InSync(w, c, s)
    && if s.lost then Parted(w, c) else Aligned(w, c, s)
  }

  // ---- Each event keeps it ----

  /** A stain stays where the collector's item is unchanged and the writer's pointer is elsewhere. */
  lemma StainStays(w: Writer, c: Collector, v: Writer, d: Collector)
    requires |w.items| == |c.output| && |v.items| == |d.output| && |v.items| >= |w.items| && d.status == c.status
    requires exists i: nat :: Stain(w, c, i)
    requires forall i: nat :: Stain(w, c, i) ==>
      v.items[i].Reasoning? && v.thinking != Some(i) && StatusOf(d.output[i]) == StatusOf(c.output[i])
    ensures exists i: nat :: Stain(v, d, i)
  {
    var i: nat :| Stain(w, c, i);
    assert Stain(v, d, i);
  }

  /** The delta goes into the open item on both sides. */
  lemma SameSegmentAgrees(w: Writer, c: Collector, s: Watch, text: string)
    requires Agrees(w, c, s) && text != "" && s.open && !(w.documented && s.ended)
    ensures Agrees(TakeReasoning(w, text), CollectReasoning(c, text), s)
  {
    var v, d := TakeReasoning(w, text), CollectReasoning(c, text);
    if s.stained && !s.lost { StainStays(w, c, v, d); }
  }

  /** Both start an item. */
  lemma NewSegmentAgrees(w: Writer, c: Collector, s: Watch, text: string)
    requires Agrees(w, c, s) && text != "" && !s.open && (w.documented || !s.seen)
    ensures Agrees(TakeReasoning(w, text), CollectReasoning(c, text), WatchReasoning(w.documented, s, text))
  {
    var v, d, t := TakeReasoning(w, text), CollectReasoning(c, text), WatchReasoning(w.documented, s, text);
    assert "" + text == text;
    if t.stained && !t.lost {
      if s.stained {
        StainStays(w, c, v, d);
      } else {
        assert Stain(v, d, w.thinking.value);
      }
    }
  }

  /** Only one of them starts an item: from here on they differ in length. */
  lemma PartingSegment(w: Writer, c: Collector, s: Watch, text: string)
    requires Agrees(w, c, s) && text != ""
    requires if s.open then w.documented && s.ended else s.seen && !w.documented
    ensures Agrees(TakeReasoning(w, text), CollectReasoning(c, text), WatchReasoning(w.documented, s, text))
  {
  }

  lemma ReasoningAgrees(w: Writer, c: Collector, s: Watch, text: string)
    requires Agrees(w, c, s)
    ensures Agrees(TakeReasoning(w, text), CollectReasoning(c, text), WatchReasoning(w.documented, s, text))
  {
    hide Agrees;
    if text == "" {
    } else if s.open && !(w.documented && s.ended) {
      SameSegmentAgrees(w, c, s, text);
    } else if !s.open && (w.documented || !s.seen) {
      NewSegmentAgrees(w, c, s, text);
    } else {
      PartingSegment(w, c, s, text);
    }
  }

  /** ReasoningFinished while the writer's item is open. */
  lemma OpenFinishedAgrees(w: Writer, c: Collector, s: Watch)
    requires Agrees(w, c, s) && s.open
    ensures Agrees(CloseReasoning(w, Completed), CollectFinished(c), WatchFinished(s))
  {
    var v, d := CloseReasoning(w, Completed), CollectFinished(c);
    ReasoningClosed(w, Completed);
    hide CloseReasoning;
    if s.stained && !s.lost {
      StainStays(w, c, v, d);
    }
  }

  lemma FinishedAgrees(w: Writer, c: Collector, s: Watch)
    requires Agrees(w, c, s)
    ensures Agrees(CloseReasoning(w, Completed), CollectFinished(c), WatchFinished(s))
  {
    if s.open {
      hide Agrees;
      OpenFinishedAgrees(w, c, s);
    } else if s.stained && !s.lost {
      StainStays(w, c, w, CollectFinished(c));
    }
  }

  lemma NextAgrees(w: Writer, c: Collector, s: Watch)
    requires Agrees(w, c, s) && s.ended == (s.ended || s.seen)
    ensures Agrees(CloseReasoningBeforeNextItem(w), c, WatchNext(w.documented, s))
  {
    if s.stained && !s.lost {
      StainStays(w, c, CloseReasoningBeforeNextItem(w), c);
    }
  }

  lemma EndSegmentAgrees(w: Writer, c: Collector, s: Watch)
    requires Agrees(w, c, s)
    ensures Agrees(w, EndSegment(c), s.(ended := s.ended || s.seen))
  {
    if s.stained && !s.lost {
      StainStays(w, c, w, EndSegment(c));
    }
  }

  /** A first text, once the collector has ended its segment. */
  lemma OpenMessageAgrees(w: Writer, c: Collector, s: Watch, kind: PartKind, text: string)
    requires Agrees(w, c, s) && text != "" && !s.messageOpen && (s.seen ==> s.ended)
    ensures Agrees(TakeText(w, kind, text), CollectText(c, kind, text),
      WatchNext(w.documented, s).(messageOpen := true))
  {
    hide TakeText, CloseReasoningBeforeNextItem, WatchNext;
    NextAgrees(w, c, s);
    NewMessageItem(w, kind, text);
    NewItemAgrees(CloseReasoningBeforeNextItem(w), c, WatchNext(w.documented, s), kind, text, TakeText(w, kind, text));
  }

  lemma SamePlaces(w: Writer, c: Collector, s: Watch)
    requires Aligned(w, c, s)
    ensures |w.items| == |c.output| && w.message == c.message && w.tools == c.tools
  {
  }

  /** What the watch knows of messages and tools does not matter to the items. */
  lemma StillAligned(w: Writer, c: Collector, s: Watch, t: Watch)
    requires Aligned(w, c, s) && t.open == s.open && t.soft == s.soft && t.stained == s.stained
    ensures Aligned(w, c, t)
  {
  }

  /** Both put out the same new item, not a reasoning item. */
  lemma BothGrow(u: Writer, c: Collector, s: Watch, v: Writer, d: Collector, a: Item, b: Item)
    requires Aligned(u, c, s) && v.items == u.items + [a] && d.output == c.output + [b]
    requires (a.Message? || a.FunctionCall?) && Bare(a) == Bare(b)
    requires StatusOf(a) == InProgress && StatusOf(b) == c.status
    requires v.documented == u.documented && v.thinking == u.thinking
    requires d.thinking == c.thinking && d.status == c.status
    requires v.segments == u.segments && d.segments == c.segments && v.message == d.message && v.tools == d.tools
    ensures Aligned(v, d, s)
  {
    if s.stained { StainStays(u, c, v, d); }
  }

  lemma NewItemAgrees(u: Writer, c: Collector, s: Watch, kind: PartKind, text: string, v: Writer)
    requires Agrees(u, c, s) && text != "" && !s.messageOpen && (s.seen ==> s.ended) && WellKept(v)
    requires v == u.(items := u.items + [Message(MessageId(u.base), InProgress, [Part(kind, text)])],
                     message := Some(|u.items|), messageOpen := true, numbered := v.numbered, sent := v.sent,
                     standing := v.standing)
    ensures Agrees(v, CollectText(c, kind, text), s.(messageOpen := true))
  {
    hide Aligned;
    if !s.lost {
      var item := Message(MessageId(u.base), InProgress, [Part(kind, text)]);
      SamePlaces(u, c, s);
      BothGrow(u, c, s, v, CollectText(c, kind, text), item, WithStatus(item, c.status));
      StillAligned(v, CollectText(c, kind, text), s, s.(messageOpen := true));
    }
  }

  lemma MoreTextAgrees(w: Writer, c: Collector, s: Watch, kind: PartKind, text: string)
    requires Agrees(w, c, s) && text != "" && s.messageOpen && (s.seen ==> s.ended)
    ensures Agrees(TakeText(w, kind, text), CollectText(c, kind, text), s)
  {
    hide TakeText, CollectedParts;
    MoreText(w, kind, text);
    if s.stained && !s.lost { StainStays(w, c, TakeText(w, kind, text), CollectText(c, kind, text)); }
  }

  lemma TextEndsSegment(c: Collector, kind: PartKind, text: string)
    requires WellPlaced(c) && text != ""
    ensures WellPlaced(EndSegment(c)) && CollectText(c, kind, text) == CollectText(EndSegment(c), kind, text)
  {
  }

  lemma TextAgrees(w: Writer, c: Collector, s: Watch, kind: PartKind, text: string)
    requires Agrees(w, c, s)
    ensures Agrees(TakeText(w, kind, text), CollectText(c, kind, text), WatchText(w.documented, s, text))
  {
    hide Aligned, Parted, TakeText, InSync, CollectText;
    if text == "" {
      NoText(w, c, kind);
    } else {
      TextEndsSegment(c, kind, text);
      EndSegmentAgrees(w, c, s);
      var t := s.(ended := s.ended || s.seen);
      if s.messageOpen {
        MoreTextAgrees(w, EndSegment(c), t, kind, text);
      } else {
        OpenMessageAgrees(w, EndSegment(c), t, kind, text);
      }
    }
  }

  lemma NoText(w: Writer, c: Collector, kind: PartKind)
    requires WellKept(w) && WellPlaced(c)
    ensures TakeText(w, kind, "") == w && CollectText(c, kind, "") == c
  {
  }

  // ---- Tools ----

  lemma NewToolAgrees(u: Writer, c: Collector, s: Watch, call: ToolCall, v: Writer)
    requires Agrees(u, c, s) && call.index !in s.known && WellKept(v)
    requires v == u.(items := u.items + [BlankTool(u, call).(arguments := call.arguments)],
                     tools := u.tools[call.index := |u.items|], toolOrder := u.toolOrder + [call.index],
                     numbered := v.numbered, sent := v.sent, standing := v.standing)
    ensures Agrees(v, CollectCall(c, call), s.(known := s.known + {call.index}))
  {
    hide Aligned;
    if !s.lost {
      var item := FunctionCall(ToolId(u.base, call.index), CallId(u.base, call.index), InProgress,
        call.name, call.arguments);
      SamePlaces(u, c, s);
      BothGrow(u, c, s, v, CollectCall(c, call), item, WithStatus(item, c.status));
      StillAligned(v, CollectCall(c, call), s, s.(known := s.known + {call.index}));
    }
  }

  lemma KnownCallAgrees(w: Writer, c: Collector, s: Watch, call: ToolCall)
    requires Agrees(w, c, s) && call.index in s.known
    ensures Agrees(TakeCall(w, call), CollectCall(c, call), s)
  {
    hide TakeCall;
    KnownTool(w, call);
    if s.stained && !s.lost { StainStays(w, c, TakeCall(w, call), CollectCall(c, call)); }
  }

  lemma CallAgrees(w: Writer, c: Collector, s: Watch, call: ToolCall)
    requires Agrees(w, c, s) && (s.seen ==> s.ended)
    ensures Agrees(TakeCall(w, call), CollectCall(c, call), WatchCall(w.documented, s, call))
  {
    hide Aligned, Parted, TakeCall, CollectCall, CloseReasoningBeforeNextItem;
    if call.index in s.known {
      KnownCallAgrees(w, c, s, call);
    } else {
      NextAgrees(w, c, s);
      NewTool(w, call);
      NewToolAgrees(CloseReasoningBeforeNextItem(w), c, WatchNext(w.documented, s), call, TakeCall(w, call));
    }
  }

  lemma {:induction false} CallsAgree(w: Writer, c: Collector, s: Watch, calls: seq<ToolCall>)
    requires Agrees(w, c, s) && (s.seen ==> s.ended)
    ensures Agrees(TakeCalls(w, calls), CollectCalls(c, calls), WatchCalls(w.documented, s, calls))
    ensures var t := WatchCalls(w.documented, s, calls); t.seen ==> t.ended
  {
    hide Aligned, Parted, TakeCall, CollectCall;
    if calls != [] {
      var rest := calls[..|calls| - 1];
      CallsAgree(w, c, s, rest);
      CallAgrees(TakeCalls(w, rest), CollectCalls(c, rest), WatchCalls(w.documented, s, rest), calls[|calls| - 1]);
    }
  }

  // ---- Every event ----

  lemma BeginAgrees(w: Writer, c: Collector, s: Watch)
    requires Agrees(w, c, s)
    ensures Agrees(Begin(w), c, s)
  {
    hide StatusesOk;
    var v := Begin(w);
    assert v == w.(began := true, numbered := v.numbered, sent := v.sent, standing := v.standing);
    if !s.lost {
      forall i | 0 <= i < |w.items|
        ensures !v.items[i].Vacant? && Bare(v.items[i]) == Bare(c.output[i]) && StatusesOk(v, c, s, i)
      {
        SameStatuses(w, v, c, s, i);
      }
      if s.stained { StainStays(w, c, v, c); }
    }
  }

  lemma SameStatuses(w: Writer, v: Writer, c: Collector, s: Watch, i: nat)
    requires i < |w.items| == |c.output| && v.items == w.items && v.thinking == w.thinking
    ensures StatusesOk(v, c, s, i) == StatusesOk(w, c, s, i)
  {
  }

  lemma RenderAgrees(w: Writer, c: Collector, s: Watch, event: Event)
    requires Agrees(w, c, s)
    ensures Agrees(Render(w, event), Collect(c, event), WatchEvent(w.documented, s, event))
  {
    hide Aligned, Parted, InSync, TakeReasoning, CloseReasoning, TakeText, TakeCalls;
    match event {
      case ReasoningDelta(text) => ReasoningAgrees(w, c, s, text);
      case ReasoningFinished => FinishedAgrees(w, c, s);
      case TextDelta(text) => TextAgrees(w, c, s, OutputText, text);
      case RefusalDelta(text) => TextAgrees(w, c, s, Refusal, text);
      case ToolCallDelta(calls) =>
        EndSegmentAgrees(w, c, s);
        CallsAgree(w, EndSegment(c), s.(ended := s.ended || s.seen), calls);
      case ReasoningSignaled =>
      case OtherEvent =>
    }
  }

  lemma {:induction false} EventsAgree(w: Writer, c: Collector, events: seq<Event>)
    requires Agrees(w, c, NOTHING_SEEN)
    ensures Agrees(TakeAll(w, events), CollectAll(c, events), WatchAll(w.documented, events))
  {
    hide Aligned, Parted, Begin, Render, Collect, WatchEvent;
    if events != [] {
      var rest := events[..|events| - 1];
      EventsAgree(w, c, rest);
      BeginAgrees(TakeAll(w, rest), CollectAll(c, rest), WatchAll(w.documented, rest));
      RenderAgrees(Begin(TakeAll(w, rest)), CollectAll(c, rest), WatchAll(w.documented, rest), events[|events| - 1]);
    }
  }
}
