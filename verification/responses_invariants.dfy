/**
 Which item holds which position, in every state of every run, and what closing does to them.
 */
module ResponsesInvariants {
  import opened Wrappers
  import opened DecimalText
  import opened ResponsesProtocol
  import opened ResponsesSteps

  /** The id of the reasoning item of a segment: the first one has no number. */
  function SegmentId(documented: bool, base: string, segment: nat): string {
    if !documented || segment == 0 then "rs_" + base else "rs_" + base + "_" + Itoa(segment)
  }

  predicate OwnsSegment(w: Writer, id: string, segment: nat) {
    segment < w.segments && id == SegmentId(w.documented, w.base, segment)
  }

  /** Position i is held by the message, by a reasoning item, by a tool, or vacant in compatibility mode. */
  ghost predicate Placed(w: Writer, i: nat)
    requires i < |w.items|
  {
    match w.items[i]
    case Vacant => !w.documented
    case Reasoning(id, status, summary) =>
      && |summary| == 1 && status == (if w.thinkingOpen && w.thinking == Some(i) then InProgress else Completed)
      && (w.documented || w.thinking == Some(i))
      && exists segment: nat :: OwnsSegment(w, id, segment)
    case Message(id, status, _) =>
      w.message == Some(i) && status == InProgress && id == "msg_" + w.base
    case FunctionCall(_, _, status, _, _) =>
      status == InProgress && exists k :: k in w.tools && w.tools[k] == i
  }

  predicate ToolAt(w: Writer, k: int, i: nat) {
    && i < |w.items| && w.items[i].FunctionCall?
    && w.items[i].id == "fc_" + w.base + "_" + Itoa(k) && w.items[i].callId == "call_" + w.base + "_" + Itoa(k)
  }

  ghost predicate ToolsKept(w: Writer) {
    && (forall k :: k in w.tools ==> ToolAt(w, k, w.tools[k]) && k in w.toolOrder)
    && (forall i, j :: 0 <= i < j < |w.toolOrder| ==> w.toolOrder[i] != w.toolOrder[j])
  }

  predicate ReasoningDistinct(items: seq<Item>) {
    forall i, j :: 0 <= i < j < |items| && items[i].Reasoning? && items[j].Reasoning? ==> items[i].id != items[j].id
  }

  ghost predicate Accounted(w: Writer) {
    && WellKept(w) && w.message.Some? == w.messageOpen && (w.segments > 0 <==> w.thinking.Some?)
    && (forall i :: 0 <= i < |w.items| ==> Placed(w, i))
    && ToolsKept(w) && ReasoningDistinct(w.items)
  }

  // ---- Ids ----

  lemma SegmentIdInjective(base: string, a: nat, b: nat)
    requires SegmentId(true, base, a) == SegmentId(true, base, b)
    ensures a == b
  {
    var head := "rs_" + base;
    var x, y := SegmentId(true, base, a), SegmentId(true, base, b);
    assert (a == 0) == (|x| == |head|);
    assert (b == 0) == (|y| == |head|);
    if a != 0 {
      assert x[|head| + 1..] == Itoa(a) && y[|head| + 1..] == Itoa(b);
      ItoaInjective(a, b);
    }
  }

  lemma ToolIdInjective(base: string, a: int, b: int)
    requires ToolId(base, a) == ToolId(base, b)
    ensures a == b
  {
    var head := "fc_" + base + "_";
    assert ToolId(base, a)[|head|..] == Itoa(a) && ToolId(base, b)[|head|..] == Itoa(b);
    ItoaInjective(a, b);
  }

  predicate SameId(a: Item, b: Item) {
    !a.Vacant? && !b.Vacant? && a.id == b.id
  }

  /** The first letter of an id tells its kind. */
  lemma IdTellsKind(w: Writer, i: nat)
    requires Accounted(w) && i < |w.items| && !w.items[i].Vacant?
    ensures |w.items[i].id| > 0
    ensures w.items[i].id[0] == (if w.items[i].Reasoning? then 'r' else if w.items[i].Message? then 'm' else 'f')
  {
    assert Placed(w, i);
    if w.items[i].FunctionCall? {
      var k :| k in w.tools && w.tools[k] == i;
      assert ToolAt(w, k, i);
    }
  }

  /** Item ids are pairwise distinct. */
  lemma IdsDistinct(w: Writer, i: nat, j: nat)
    requires Accounted(w) && i < |w.items| && j < |w.items| && SameId(w.items[i], w.items[j])
    ensures i == j
  {
    IdTellsKind(w, i);
    IdTellsKind(w, j);
    assert Placed(w, i) && Placed(w, j);
    if w.items[i].FunctionCall? {
      var k :| k in w.tools && w.tools[k] == i;
      var l :| l in w.tools && w.tools[l] == j;
      assert ToolAt(w, k, i) && ToolAt(w, l, j);
      ToolIdInjective(w.base, k, l);
    }
  }

  lemma CallIdInjective(base: string, a: int, b: int)
    requires "call_" + base + "_" + Itoa(a) == "call_" + base + "_" + Itoa(b)
    ensures a == b
  {
    var head := "call_" + base + "_";
    assert (head + Itoa(a))[|head|..] == Itoa(a) && (head + Itoa(b))[|head|..] == Itoa(b);
    ItoaInjective(a, b);
  }

  /** The call ids of the tools are pairwise distinct, so that a client can answer each of them. */
  lemma CallIdsDistinct(w: Writer, i: nat, j: nat)
    requires Accounted(w) && i < |w.items| && j < |w.items| && w.items[i].FunctionCall? && w.items[j].FunctionCall?
    requires w.items[i].callId == w.items[j].callId
    ensures i == j
  {
    assert Placed(w, i) && Placed(w, j);
    var k :| k in w.tools && w.tools[k] == i;
    var l :| l in w.tools && w.tools[l] == j;
    assert ToolAt(w, k, i) && ToolAt(w, l, j);
    CallIdInjective(w.base, k, l);
  }

  // ---- Steps that keep the labels ----

  /** An item without its text. */
  function Label(item: Item): Item {
    match item
    case Vacant => Vacant
    case Reasoning(id, status, summary) => Reasoning(id, status, seq(|summary|, _ => ""))
    case Message(id, status, _) => Message(id, status, [])
    case FunctionCall(id, callId, status, _, _) => FunctionCall(id, callId, status, "", "")
  }

  lemma LabelPlaced(w: Writer, v: Writer, i: nat)
    requires i < |w.items| == |v.items| && Label(w.items[i]) == Label(v.items[i]) && Placed(w, i)
    requires v == w.(items := v.items, began := v.began, numbered := v.numbered, sent := v.sent, standing := v.standing)
    ensures Placed(v, i)
  {
    if w.items[i].Reasoning? {
      assert |Label(w.items[i]).summary| == |w.items[i].summary| && |Label(v.items[i]).summary| == |v.items[i].summary|;
      var segment: nat :| OwnsSegment(w, w.items[i].id, segment);
      assert OwnsSegment(v, w.items[i].id, segment);
    }
  }

  lemma Relabelled(w: Writer, v: Writer)
    requires Accounted(w) && WellKept(v) && |v.items| == |w.items|
    requires v == w.(items := v.items, began := v.began, numbered := v.numbered, sent := v.sent, standing := v.standing)
    requires forall i :: 0 <= i < |w.items| ==> Label(w.items[i]) == Label(v.items[i])
    ensures Accounted(v)
  {
    hide Placed, OwnsSegment;
    forall i | 0 <= i < |w.items|
      ensures Placed(v, i)
    {
      LabelPlaced(w, v, i);
    }
    forall k | k in v.tools
      ensures ToolAt(v, k, v.tools[k])
    {
      assert ToolAt(w, k, w.tools[k]);
      assert Label(w.items[w.tools[k]]) == Label(v.items[w.tools[k]]);
    }
    forall i, j | 0 <= i < j < |v.items| && v.items[i].Reasoning? && v.items[j].Reasoning?
      ensures v.items[i].id != v.items[j].id
    {
      assert Label(w.items[i]) == Label(v.items[i]) && Label(w.items[j]) == Label(v.items[j]);
    }
  }

  // ---- Steps that add an item or complete one ----

  /** What stays placed when items are appended, pointers move and segments are added. */
  lemma StaysPlaced(w: Writer, v: Writer, i: nat)
    requires i < |w.items| <= |v.items| && v.items[i] == w.items[i] && Placed(w, i) && SameRun(w, v)
    requires v.segments >= w.segments
    requires w.items[i].Reasoning? ==> v.thinking == w.thinking && v.thinkingOpen == w.thinkingOpen
    requires w.items[i].Message? ==> v.message == w.message
    requires forall k :: k in w.tools ==> k in v.tools && v.tools[k] == w.tools[k]
    ensures Placed(v, i)
  {
    if w.items[i].Reasoning? {
      var segment: nat :| OwnsSegment(w, w.items[i].id, segment);
      assert OwnsSegment(v, w.items[i].id, segment);
    } else if w.items[i].FunctionCall? {
      var k :| k in w.tools && w.tools[k] == i;
      assert k in v.tools && v.tools[k] == i;
    }
  }

  lemma MessageAccounted(w: Writer, v: Writer, item: Item)
    requires Accounted(w) && WellKept(v) && !w.messageOpen
    requires item.Message? && item.id == MessageId(w.base) && item.status == InProgress
    requires v == w.(items := w.items + [item], message := Some(|w.items|), messageOpen := true, numbered := v.numbered,
      sent := v.sent, standing := v.standing)
    ensures Accounted(v)
  {
    hide Placed, OwnsSegment;
    forall i | 0 <= i < |w.items|
      ensures Placed(v, i)
    {
      MessageIsPlaced(w, i);
      StaysPlaced(w, v, i);
    }
    NewMessagePlaced(v);
    forall k | k in v.tools
      ensures ToolAt(v, k, v.tools[k])
    {
      assert ToolAt(w, k, w.tools[k]);
    }
  }

  lemma MessageIsPlaced(w: Writer, i: nat)
    requires i < |w.items| && Placed(w, i)
    ensures w.items[i].Message? ==> w.message == Some(i)
  {
  }

  lemma NewMessagePlaced(v: Writer)
    requires |v.items| > 0 && v.message == Some(|v.items| - 1)
    requires v.items[|v.items| - 1].Message? && v.items[|v.items| - 1].id == MessageId(v.base)
    requires v.items[|v.items| - 1].status == InProgress
    ensures Placed(v, |v.items| - 1)
  {
  }

  lemma ToolAccounted(w: Writer, v: Writer, k: int, item: Item)
    requires Accounted(w) && WellKept(v) && k !in w.tools
    requires item.FunctionCall? && item.id == ToolId(w.base, k)
    requires item.callId == CallId(w.base, k) && item.status == InProgress
    requires v == w.(items := w.items + [item], tools := w.tools[k := |w.items|], toolOrder := w.toolOrder + [k],
                     numbered := v.numbered, sent := v.sent, standing := v.standing)
    ensures Accounted(v)
  {
    hide Placed, OwnsSegment, ToolsKept;
    forall i | 0 <= i < |w.items|
      ensures Placed(v, i)
    {
      StaysPlaced(w, v, i);
    }
    NewToolPlaced(v, k);
    NewToolKept(w, v, k, item);
    assert ReasoningDistinct(v.items);
  }

  lemma NewToolKept(w: Writer, v: Writer, k: int, item: Item)
    requires ToolsKept(w) && SameRun(w, v) && WellKept(w) && k !in w.tools && v.items == w.items + [item]
    requires v.tools == w.tools[k := |w.items|] && v.toolOrder == w.toolOrder + [k]
    requires item.FunctionCall? && item.id == ToolId(w.base, k) && item.callId == CallId(w.base, k)
    ensures ToolsKept(v)
  {
    forall l | l in v.tools
      ensures ToolAt(v, l, v.tools[l]) && l in v.toolOrder
    {
      if l != k {
        assert ToolAt(w, l, w.tools[l]) && l in w.toolOrder;
      } else {
        assert v.toolOrder[|w.toolOrder|] == k;
      }
    }
  }

  lemma NewToolPlaced(v: Writer, k: int)
    requires |v.items| > 0 && k in v.tools && v.tools[k] == |v.items| - 1
    requires v.items[|v.items| - 1].FunctionCall? && v.items[|v.items| - 1].status == InProgress
    ensures Placed(v, |v.items| - 1)
  {
  }

  /** A new reasoning item, when none is open. */
  lemma ReasoningAccounted(w: Writer, v: Writer, text: string)
    requires Accounted(w) && WellKept(v) && !w.thinkingOpen && (w.documented || w.thinking.None?)
    requires v == w.(items := w.items + [Reasoning(ReasoningId(w), InProgress, [text])], thinking := Some(|w.items|),
                     thinkingOpen := true, segments := w.segments + 1, numbered := v.numbered, sent := v.sent,
                     standing := v.standing)
    ensures Accounted(v)
  {
    hide Placed, OwnsSegment;
    forall i | 0 <= i < |w.items|
      ensures Placed(v, i)
    {
      ClosedStaysPlaced(w, v, i);
    }
    NewReasoningPlaced(w, v);
    forall k | k in v.tools
      ensures ToolAt(v, k, v.tools[k])
    {
      assert ToolAt(w, k, w.tools[k]);
    }
    forall i | 0 <= i < |w.items| && w.items[i].Reasoning?
      ensures w.items[i].id != ReasoningId(w)
    {
      assert Placed(w, i);
      NewSegmentIsNew(w, i);
    }
  }

  lemma ClosedStaysPlaced(w: Writer, v: Writer, i: nat)
    requires i < |w.items| < |v.items| && v.items[i] == w.items[i] && Placed(w, i) && SameRun(w, v)
    requires !w.thinkingOpen && (w.documented || w.thinking.None?) && v.thinking == Some(|w.items|)
    requires v.segments >= w.segments && v.message == w.message && v.tools == w.tools
    ensures Placed(v, i)
  {
    if w.items[i].Reasoning? {
      var segment: nat :| OwnsSegment(w, w.items[i].id, segment);
      assert OwnsSegment(v, w.items[i].id, segment);
    }
  }

  lemma NewReasoningPlaced(w: Writer, v: Writer)
    requires Accounted(w) && SameRun(w, v) && |v.items| > 0 && v.thinkingOpen && v.thinking == Some(|v.items| - 1)
    requires v.items[|v.items| - 1].Reasoning? && v.items[|v.items| - 1].id == ReasoningId(w)
    requires |v.items[|v.items| - 1].summary| == 1
    requires v.items[|v.items| - 1].status == InProgress
    requires v.segments > w.segments || (!w.documented && v.segments > 0)
    ensures Placed(v, |v.items| - 1)
  {
    assert OwnsSegment(v, ReasoningId(w), if w.documented then w.segments else 0);
  }

  lemma NewSegmentIsNew(w: Writer, i: nat)
    requires Accounted(w) && !w.thinkingOpen && (w.documented || w.thinking.None?) && i < |w.items|
    requires w.items[i].Reasoning? && Placed(w, i)
    ensures w.items[i].id != ReasoningId(w)
  {
    var segment: nat :| OwnsSegment(w, w.items[i].id, segment);
    if w.items[i].id == ReasoningId(w) {
      assert w.documented;
      SegmentIdInjective(w.base, segment, w.segments);
    }
  }

  /** Compatibility mode: the reasoning item moves. */
  lemma ReopenedAccounted(w: Writer, v: Writer, text: string)
    requires Accounted(w) && WellKept(v) && !w.thinkingOpen && !w.documented && w.thinking.Some?
    requires v == w.(items := w.items[w.thinking.value := Vacant] + [Reasoning(ReasoningId(w), InProgress, [text])],
                     thinking := Some(|w.items|), thinkingOpen := true, numbered := v.numbered, sent := v.sent,
                     standing := v.standing)
    ensures Accounted(v)
  {
    hide Placed, OwnsSegment;
    forall i | 0 <= i < |w.items|
      ensures Placed(v, i) && !v.items[i].Reasoning?
    {
      OthersStayPlaced(w, v, i);
    }
    NewReasoningPlaced(w, v);
    forall k | k in v.tools
      ensures ToolAt(v, k, v.tools[k])
    {
      assert ToolAt(w, k, w.tools[k]);
    }
  }

  lemma OthersStayPlaced(w: Writer, v: Writer, i: nat)
    requires i < |w.items| < |v.items| && Placed(w, i) && SameRun(w, v) && !w.documented && w.thinking.Some?
    requires v.items[i] == if w.thinking == Some(i) then Vacant else w.items[i]
    requires v.message == w.message && v.tools == w.tools
    ensures Placed(v, i) && !v.items[i].Reasoning?
  {
  }

  lemma ClosedAccounted(w: Writer, v: Writer)
    requires Accounted(w) && WellKept(v) && w.thinkingOpen
    requires v == w.(items := w.items[w.thinking.value := WithStatus(w.items[w.thinking.value], Completed)],
      thinkingOpen := false,
                     numbered := v.numbered, sent := v.sent, standing := v.standing)
    ensures Accounted(v)
  {
    hide Placed, OwnsSegment;
    forall i | 0 <= i < |w.items|
      ensures Placed(v, i)
    {
      CompletedPlaced(w, v, i);
    }
    forall k | k in v.tools
      ensures ToolAt(v, k, v.tools[k])
    {
      assert ToolAt(w, k, w.tools[k]);
    }
  }

  lemma CompletedPlaced(w: Writer, v: Writer, i: nat)
    requires i < |w.items| == |v.items| && Placed(w, i) && w.thinkingOpen && SameRun(w, v)
    requires v.items[i] == if w.thinking == Some(i) && w.items[i].Reasoning? then
      WithStatus(w.items[i], Completed) else w.items[i]
    requires v.thinking == w.thinking && !v.thinkingOpen && v.segments == w.segments
    requires v.message == w.message && v.tools == w.tools
    ensures Placed(v, i)
  {
    if w.items[i].Reasoning? {
      var segment: nat :| OwnsSegment(w, w.items[i].id, segment);
      assert OwnsSegment(v, w.items[i].id, segment);
    }
  }

  // ---- Every event keeps the account ----

  lemma TakeReasoningAccounted(w: Writer, text: string)
    requires Accounted(w)
    ensures Accounted(TakeReasoning(w, text))
  {
    hide TakeReasoning, Placed, ToolsKept, ReasoningDistinct;
    var v := TakeReasoning(w, text);
    if text == "" {
      NoReasoningText(w);
    } else if w.thinkingOpen {
      MoreReasoning(w, text);
      Relabelled(w, v);
    } else if w.documented || w.thinking.None? {
      NewReasoning(w, text);
      ReasoningAccounted(w, v, text);
    } else {
      ReopenedReasoning(w, text);
      ReopenedAccounted(w, v, w.items[w.thinking.value].summary[0] + text);
    }
  }

  lemma NoReasoningText(w: Writer)
    requires WellKept(w)
    ensures TakeReasoning(w, "") == w
  {
  }

  lemma CloseReasoningAccounted(w: Writer)
    requires Accounted(w)
    ensures Accounted(CloseReasoning(w, Completed))
  {
    hide CloseReasoning, Placed, ToolsKept, ReasoningDistinct;
    if w.thinkingOpen {
      ReasoningClosed(w, Completed);
      ClosedAccounted(w, CloseReasoning(w, Completed));
    } else {
      NoReasoningOpen(w, Completed);
    }
  }

  lemma NoReasoningOpen(w: Writer, status: Status)
    requires WellKept(w) && !w.thinkingOpen
    ensures CloseReasoning(w, status) == w
  {
  }

  lemma NextAccounted(w: Writer)
    requires Accounted(w)
    ensures Accounted(CloseReasoningBeforeNextItem(w))
    ensures var v := CloseReasoningBeforeNextItem(w); v.messageOpen == w.messageOpen && v.tools == w.tools
  {
    CloseReasoningAccounted(w);
  }

  lemma TakeTextAccounted(w: Writer, kind: PartKind, text: string)
    requires Accounted(w)
    ensures Accounted(TakeText(w, kind, text))
  {
    hide TakeText, CloseReasoningBeforeNextItem, Placed, ToolsKept, ReasoningDistinct;
    var v := TakeText(w, kind, text);
    if text == "" {
      NoMessageText(w, kind);
    } else if w.messageOpen {
      MoreText(w, kind, text);
      Relabelled(w, v);
    } else {
      NextAccounted(w);
      NewMessageItem(w, kind, text);
      MessageAccounted(CloseReasoningBeforeNextItem(w), v, Message(MessageId(w.base), InProgress, [Part(kind, text)]));
    }
  }

  lemma NoMessageText(w: Writer, kind: PartKind)
    requires WellKept(w)
    ensures TakeText(w, kind, "") == w
  {
  }

  lemma TakeCallAccounted(w: Writer, call: ToolCall)
    requires Accounted(w)
    ensures Accounted(TakeCall(w, call))
  {
    hide TakeCall, CloseReasoningBeforeNextItem, Placed, ToolsKept, ReasoningDistinct;
    var v := TakeCall(w, call);
    if call.index in w.tools {
      KnownTool(w, call);
      Relabelled(w, v);
    } else {
      NextAccounted(w);
      NewTool(w, call);
      ToolAccounted(CloseReasoningBeforeNextItem(w), v, call.index,
                    FunctionCall(ToolId(w.base, call.index), CallId(w.base, call.index), InProgress,
                      call.name, call.arguments));
    }
  }

  lemma {:induction false} TakeCallsAccounted(w: Writer, calls: seq<ToolCall>)
    requires Accounted(w)
    ensures Accounted(TakeCalls(w, calls))
  {
    hide Placed, ToolsKept, ReasoningDistinct, TakeCall;
    if calls != [] {
      TakeCallsAccounted(w, calls[..|calls| - 1]);
      TakeCallAccounted(TakeCalls(w, calls[..|calls| - 1]), calls[|calls| - 1]);
    }
  }

  lemma BeginAccounted(w: Writer)
    requires Accounted(w)
    ensures Accounted(Begin(w))
  {
    hide Placed, ToolsKept, ReasoningDistinct;
    Relabelled(w, Begin(w));
  }

  lemma TakeAccounted(w: Writer, event: Event)
    requires Accounted(w)
    ensures Accounted(Take(w, event))
  {
    hide Placed, ToolsKept, ReasoningDistinct, Begin, TakeReasoning, CloseReasoning, TakeText, TakeCalls;
    BeginAccounted(w);
    var v := Begin(w);
    match event {
      case ReasoningDelta(text) => TakeReasoningAccounted(v, text);
      case ReasoningFinished => CloseReasoningAccounted(v);
      case TextDelta(text) => TakeTextAccounted(v, OutputText, text);
      case RefusalDelta(text) => TakeTextAccounted(v, Refusal, text);
      case ToolCallDelta(calls) => TakeCallsAccounted(v, calls);
      case ReasoningSignaled =>
      case OtherEvent =>
    }
  }

  /** The account is kept over every run. */
  lemma {:induction false} AlwaysAccounted(documented: bool, base: string, events: seq<Event>)
    ensures Accounted(TakeAll(Fresh(documented, base), events))
  {
    hide Take;
    if events != [] {
      AlwaysAccounted(documented, base, events[..|events| - 1]);
      TakeAccounted(TakeAll(Fresh(documented, base), events[..|events| - 1]), events[|events| - 1]);
    }
  }

  // ---- Closing ----

  /** An item once the run is over: what was in progress gets the final status. */
  function Settle(item: Item, status: Status): Item {
    if !item.Vacant? && item.status == InProgress then WithStatus(item, status) else item
  }

  function Settled(items: seq<Item>, status: Status): (r: seq<Item>)
    ensures |r| == |items| && forall i :: 0 <= i < |r| ==> r[i] == Settle(items[i], status)
  {
    seq(|items|, i requires 0 <= i < |items| => Settle(items[i], status))
  }

  function PlaceOf(w: Writer, k: int): (n: nat)
    requires WellKept(w) && k in w.tools
    ensures n < |w.items| && w.items[n].FunctionCall?
  {
    w.tools[k]
  }

  /** Where the tool that came j-th is. */
  function ToolPlace(w: Writer, j: nat): (n: nat)
    requires WellKept(w) && j < |w.toolOrder|
    ensures n < |w.items| && w.items[n].FunctionCall?
  {
    PlaceOf(w, w.toolOrder[j])
  }

  /** v is w with the first tools closed. */
  predicate ToolsClosed(w: Writer, v: Writer, count: nat, status: Status)
    requires WellKept(w) && count <= |w.toolOrder|
  {
    && v == w.(items := v.items, numbered := v.numbered, sent := v.sent, standing := v.standing)
    && |v.items| == |w.items|
    && (forall i :: 0 <= i < |w.items| ==>
      v.items[i] == w.items[i] || (w.items[i].FunctionCall? && v.items[i] == WithStatus(w.items[i], status)))
    && (forall j :: 0 <= j < count ==> v.items[ToolPlace(w, j)] == WithStatus(w.items[ToolPlace(w, j)], status))
  }

  lemma {:induction false} CloseToolsItems(w: Writer, count: nat, status: Status)
    requires WellKept(w) && count <= |w.toolOrder|
    ensures ToolsClosed(w, CloseTools(w, count, status), count, status)
  {
    hide CloseTool, ToolsClosed;
    if count > 0 {
      CloseToolsItems(w, count - 1, status);
      CloseToolStep(w, CloseTools(w, count - 1, status), count, status);
    } else {
      NoToolClosed(w, status);
    }
  }

  lemma NoToolClosed(w: Writer, status: Status)
    requires WellKept(w)
    ensures ToolsClosed(w, w, 0, status)
  {
  }

  lemma CloseToolStep(w: Writer, u: Writer, count: nat, status: Status)
    requires WellKept(w) && WellKept(u) && 0 < count <= |w.toolOrder| && ToolsClosed(w, u, count - 1, status)
    ensures ToolsClosed(w, CloseTool(u, w.toolOrder[count - 1], status), count, status)
  {
    var k := w.toolOrder[count - 1];
    var v, n := CloseTool(u, k, status), ToolPlace(w, count - 1);
    assert n == u.tools[k];
    assert v == u.(items := u.items[n := WithStatus(u.items[n], status)], numbered := v.numbered, sent := v.sent,
      standing := v.standing);
  }

  lemma CloseMessageItems(w: Writer, status: Status)
    requires WellKept(w)
    ensures
      var v := CloseMessage(w, status);
      && (!w.messageOpen ==> v == w)
      && (w.messageOpen ==>
            var n := w.message.value;
            v == w.(items := w.items[n := WithStatus(w.items[n], status)], messageOpen := false, numbered := v.numbered,
              sent := v.sent, standing := v.standing))
  {
  }

  /** Closing everything settles every item and nothing else. */
  lemma CloseAllSettles(w: Writer, status: Status)
    requires Accounted(w)
    ensures CloseAll(w, status).items == Settled(w.items, status)
  {
    hide CloseReasoning, CloseMessage, CloseTools, Placed, ToolsKept, ReasoningDistinct, ToolsClosed;
    var u := CloseReasoning(w, status);
    if w.thinkingOpen { ReasoningClosed(w, status); } else { NoReasoningOpen(w, status); }
    var v := CloseMessage(u, status);
    CloseMessageItems(u, status);
    CloseToolsItems(v, |v.toolOrder|, status);
    var r := CloseAll(w, status);
    LengthKept(v, r, status);
    forall i | 0 <= i < |w.items|
      ensures r.items[i] == Settle(w.items[i], status)
    {
      assert Placed(w, i);
      if w.items[i].FunctionCall? {
        ToolSettled(w, v, r, status, i);
      } else {
        OtherKept(v, r, status, i);
        OtherSettled(w, i);
      }
    }
  }

  lemma LengthKept(v: Writer, r: Writer, status: Status)
    requires WellKept(v) && ToolsClosed(v, r, |v.toolOrder|, status)
    ensures |r.items| == |v.items|
  {
  }

  lemma ToolSettled(w: Writer, v: Writer, r: Writer, status: Status, i: nat)
    requires Accounted(w) && WellKept(v) && ToolsClosed(v, r, |v.toolOrder|, status)
    requires v.tools == w.tools && v.toolOrder == w.toolOrder && i < |w.items| == |v.items|
    requires w.items[i].FunctionCall? && v.items[i] == w.items[i]
    ensures r.items[i] == Settle(w.items[i], status)
  {
    assert Placed(w, i);
    var k :| k in w.tools && w.tools[k] == i;
    var j :| 0 <= j < |w.toolOrder| && w.toolOrder[j] == k;
    assert ToolPlace(v, j) == i;
  }

  lemma OtherKept(v: Writer, r: Writer, status: Status, i: nat)
    requires WellKept(v) && ToolsClosed(v, r, |v.toolOrder|, status) && i < |v.items| && !v.items[i].FunctionCall?
    ensures r.items[i] == v.items[i]
  {
  }

  /** Which of the other items are in progress. */
  lemma OtherSettled(w: Writer, i: nat)
    requires i < |w.items| && Placed(w, i)
    ensures w.items[i].Reasoning? ==> (w.items[i].status == InProgress <==> w.thinkingOpen && w.thinking == Some(i))
    ensures w.items[i].Message? ==> w.items[i].status == InProgress && w.message == Some(i)
  {
  }
}
