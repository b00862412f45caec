/**
 The writer's own fields, and how they hold the items: the message, the current reasoning item, the
 finished reasoning items and the tools are kept apart, each with its output index.
 */
module ResponsesFields {
  import opened Wrappers
  import opened DecimalText
  import opened ResponsesProtocol
  import opened ResponsesInvariants

  datatype ReasoningItem = ReasoningItem(itemId: string, outputIndex: nat, status: Status, text: string)

  datatype ToolState = ToolState(
    itemId: string, callId: string, name: string, outputIndex: nat, index: int, args: string, status: Status)

  datatype Fields = Fields(
    documented: bool,
    itemBase: string,
    began: bool,
    nextNumber: nat,
    nextOutputIndex: nat,
    reasoningOpen: bool,
    reasoningItemId: string,
    reasoningOutputIndex: nat,
    reasoningStatus: Status,
    reasoningText: string,
    completedReasoning: seq<ReasoningItem>,
    messageOpen: bool,
    messageItemId: string,
    messageOutputIndex: nat,
    messageStatus: Status,
    messageParts: seq<Part>,
    toolStates: map<int, ToolState>,
    toolOrder: seq<int>)

  function ReasoningOutput(r: ReasoningItem): Item {
    Reasoning(r.itemId, r.status, [r.text])
  }

  function CurrentReasoning(f: Fields): ReasoningItem {
    ReasoningItem(f.reasoningItemId, f.reasoningOutputIndex, f.reasoningStatus, f.reasoningText)
  }

  function MessageOutput(f: Fields): Item {
    Message(f.messageItemId, f.messageStatus, f.messageParts)
  }

  function ToolOutput(t: ToolState): Item {
    FunctionCall(t.itemId, t.callId, t.status, t.name, t.args)
  }

  predicate At(items: seq<Item>, n: nat, item: Item) {
    n < |items| && items[n] == item
  }

  // ---- How the fields hold the items ----

  predicate ReasoningLinked(f: Fields, m: Writer) {
    && m.thinkingOpen == f.reasoningOpen
    && m.thinking == (if f.reasoningItemId == "" then None else Some(f.reasoningOutputIndex))
    && (f.reasoningItemId != "" ==> At(m.items, f.reasoningOutputIndex, ReasoningOutput(CurrentReasoning(f))))
    && m.segments == |f.completedReasoning| + (if f.reasoningItemId == "" then 0 else 1)
    && (f.reasoningItemId == "" ==> f.reasoningText == "")
    && (!f.documented ==> f.completedReasoning == [])
    && (forall i :: 0 <= i < |f.completedReasoning| ==>
          At(m.items, f.completedReasoning[i].outputIndex, ReasoningOutput(f.completedReasoning[i]))
          && m.thinking != Some(f.completedReasoning[i].outputIndex))
    && (forall i, j :: 0 <= i < j < |f.completedReasoning| ==>
          f.completedReasoning[i].outputIndex != f.completedReasoning[j].outputIndex)
  }

  predicate MessageLinked(f: Fields, m: Writer) {
    && m.messageOpen == f.messageOpen
    && m.message == (if f.messageItemId == "" then None else Some(f.messageOutputIndex))
    && (f.messageItemId != "" ==> At(m.items, f.messageOutputIndex, MessageOutput(f)))
    && (f.messageItemId == "" ==> f.messageParts == [])
  }

  predicate ToolLinked(m: Writer, k: int, t: ToolState) {
    k in m.tools && m.tools[k] == t.outputIndex && At(m.items, t.outputIndex, ToolOutput(t))
  }

  predicate ToolsLinked(f: Fields, m: Writer) {
    && m.toolOrder == f.toolOrder && m.tools.Keys == f.toolStates.Keys
    && (forall k :: k in f.toolStates ==> ToolLinked(m, k, f.toolStates[k]))
    && (forall k, l :: k in f.toolStates && l in f.toolStates && k != l ==>
      f.toolStates[k].outputIndex != f.toolStates[l].outputIndex)
  }

  predicate InCompleted(f: Fields, i: nat) {
    exists j :: 0 <= j < |f.completedReasoning| && f.completedReasoning[j].outputIndex == i
  }

  predicate InTools(f: Fields, i: nat) {
    exists j :: 0 <= j < |f.toolOrder| && f.toolOrder[j] in f.toolStates
      && f.toolStates[f.toolOrder[j]].outputIndex == i
  }

  /** Some field holds the item at position i. */
  predicate Held(f: Fields, i: nat) {
    || (f.messageItemId != "" && f.messageOutputIndex == i)
    || (f.reasoningItemId != "" && f.reasoningOutputIndex == i)
    || InCompleted(f, i)
    || InTools(f, i)
  }

  predicate AllHeld(f: Fields, m: Writer) {
    forall i :: 0 <= i < |m.items| && !m.items[i].Vacant? ==> Held(f, i)
  }

  predicate Linked(f: Fields, m: Writer) {
    && WellKept(m)
    && m.documented == f.documented && m.base == f.itemBase && m.began == f.began
    && m.numbered == f.nextNumber && |m.items| == f.nextOutputIndex
    && ReasoningLinked(f, m) && MessageLinked(f, m) && ToolsLinked(f, m) && AllHeld(f, m)
  }

  // ---- Sending ----

  lemma SentLinked(f: Fields, m: Writer, r: Writer)
    requires Linked(f, m) && r == m.(began := r.began, numbered := r.numbered, sent := r.sent, standing := r.standing)
    requires |r.standing| == |r.sent|
    ensures Linked(f.(began := r.began, nextNumber := r.numbered), r)
  {
    hide Held;
    var g := f.(began := r.began, nextNumber := r.numbered);
    forall k | k in g.toolStates
      ensures ToolLinked(r, k, g.toolStates[k])
    {
      assert ToolLinked(m, k, f.toolStates[k]);
    }
    forall i | 0 <= i < |r.items| && !r.items[i].Vacant?
      ensures Held(g, i)
    {
      assert Held(f, i);
      SameHolders(f, g, i);
    }
  }

  // ---- Reasoning ----

  /** The fields once the next reasoning item has been started. */
  /** The finished item is put aside, on the documented contract. */
  function PutAside(f: Fields): Fields {
    if !f.documented || f.reasoningItemId == "" then f
    else f.(completedReasoning := f.completedReasoning + [CurrentReasoning(f)], reasoningText := "")
  }

  function NextReasoningId(f: Fields): string {
    if !f.documented || f.reasoningItemId == "" then "rs_" + f.itemBase
    else "rs_" + f.itemBase + "_" + Itoa(|f.completedReasoning| + 1)
  }

  /** The reasoning item in progress takes the next position. */
  function PlacedNext(f: Fields, id: string): Fields {
    f.(reasoningItemId := id, reasoningOutputIndex := f.nextOutputIndex, reasoningStatus := InProgress,
       nextOutputIndex := f.nextOutputIndex + 1)
  }

  function WithNewReasoning(f: Fields): Fields {
    var g := f.(reasoningOpen := true);
    PlacedNext(PutAside(g), NextReasoningId(g))
  }

  lemma StartReasoningLinked(f: Fields, m: Writer)
    requires Linked(f, m) && !f.reasoningOpen
    ensures Linked(WithNewReasoning(f), StartReasoning(m))
  {
    hide AllHeld, MessageLinked, ToolsLinked, ReasoningLinked;
    NewReasoningLinks(f, m);
    NewReasoningOthers(f, m);
    NewReasoningHeld(f, m);
  }

  lemma NewReasoningLinks(f: Fields, m: Writer)
    requires Linked(f, m) && !f.reasoningOpen
    ensures ReasoningLinked(WithNewReasoning(f), StartReasoning(m))
  {
    hide MessageLinked, ToolsLinked, AllHeld;
  }

  lemma NewReasoningOthers(f: Fields, m: Writer)
    requires Linked(f, m) && !f.reasoningOpen
    ensures MessageLinked(WithNewReasoning(f), StartReasoning(m)) && ToolsLinked(WithNewReasoning(f), StartReasoning(m))
  {
    hide AllHeld;
    var g, r := WithNewReasoning(f), StartReasoning(m);
    forall k | k in g.toolStates
      ensures ToolLinked(r, k, g.toolStates[k])
    {
      assert ToolLinked(m, k, f.toolStates[k]);
    }
  }

  lemma NewReasoningHeld(f: Fields, m: Writer)
    requires Linked(f, m) && !f.reasoningOpen
    ensures AllHeld(WithNewReasoning(f), StartReasoning(m))
  {
    hide MessageLinked, ToolsLinked;
    var g, r := WithNewReasoning(f), StartReasoning(m);
    forall i | 0 <= i < |r.items| && !r.items[i].Vacant?
      ensures Held(g, i)
    {
      if i < |m.items| {
        assert !m.items[i].Vacant? && Held(f, i);
        NewReasoningHolds(f, i);
      }
    }
  }

  lemma NewReasoningHolds(f: Fields, i: nat)
    requires Held(f, i) && (f.documented || f.reasoningItemId == "" || f.reasoningOutputIndex != i)
    ensures Held(WithNewReasoning(f), i)
  {
    var g := WithNewReasoning(f);
    if f.reasoningItemId != "" && f.reasoningOutputIndex == i {
      assert g.completedReasoning[|f.completedReasoning|].outputIndex == i;
    } else if InCompleted(f, i) {
      var j :| 0 <= j < |f.completedReasoning| && f.completedReasoning[j].outputIndex == i;
      assert g.completedReasoning[j].outputIndex == i;
    } else if InTools(f, i) {
      assert InTools(g, i);
    }
  }

  /** Replacing one item changes no other holder. */
  lemma ReasoningItemLinked(f: Fields, m: Writer, text: string, status: Status, open: bool)
    requires Linked(f, m) && f.reasoningOpen
    ensures
      var g := f.(reasoningText := text, reasoningStatus := status, reasoningOpen := open);
      Linked(g, m.(items := m.items[m.thinking.value := Reasoning(f.reasoningItemId, status, [text])],
        thinkingOpen := open))
  {
    var g := f.(reasoningText := text, reasoningStatus := status, reasoningOpen := open);
    var r := m.(items := m.items[m.thinking.value := Reasoning(f.reasoningItemId, status, [text])],
      thinkingOpen := open);
    forall k | k in g.toolStates
      ensures ToolLinked(r, k, g.toolStates[k])
    {
      assert ToolLinked(m, k, f.toolStates[k]);
    }
    forall i | 0 <= i < |r.items| && !r.items[i].Vacant?
      ensures Held(g, i)
    {
      assert Held(f, i);
      SameHolders(f, g, i);
    }
  }

  lemma SameHolders(f: Fields, g: Fields, i: nat)
    requires g.messageItemId == f.messageItemId && g.messageOutputIndex == f.messageOutputIndex
    requires g.reasoningItemId == f.reasoningItemId && g.reasoningOutputIndex == f.reasoningOutputIndex
    requires g.completedReasoning == f.completedReasoning && g.toolOrder == f.toolOrder
    requires forall k :: k in f.toolStates ==>
      k in g.toolStates && g.toolStates[k].outputIndex == f.toolStates[k].outputIndex
    requires Held(f, i)
    ensures Held(g, i)
  {
    if InTools(f, i) {
      var j :| 0 <= j < |f.toolOrder| && f.toolOrder[j] in f.toolStates
        && f.toolStates[f.toolOrder[j]].outputIndex == i;
      var k := f.toolOrder[j];
      assert k in f.toolStates && k in g.toolStates && g.toolStates[k].outputIndex == i;
    } else if InCompleted(f, i) {
      assert InCompleted(g, i);
    }
  }

  // ---- The message ----

  function WithNewMessage(f: Fields): Fields {
    f.(messageOpen := true, messageItemId := MessageId(f.itemBase), messageOutputIndex := f.nextOutputIndex,
       messageStatus := InProgress, nextOutputIndex := f.nextOutputIndex + 1)
  }

  lemma StartMessageLinked(f: Fields, m: Writer)
    requires Linked(f, m) && !f.messageOpen
    ensures Linked(WithNewMessage(f), StartMessage(m))
  {
    hide Held, ToolsLinked;
    NewMessageTools(f, m);
    var g, r := WithNewMessage(f), StartMessage(m);
    forall i | 0 <= i < |r.items| && !r.items[i].Vacant?
      ensures Held(g, i)
    {
      if i < |m.items| {
        assert Held(f, i);
      }
      NewMessageHolds(f, i);
    }
  }

  lemma NewMessageTools(f: Fields, m: Writer)
    requires WellKept(m) && ToolsLinked(f, m)
    ensures ToolsLinked(WithNewMessage(f), StartMessage(m))
  {
    var g, r := WithNewMessage(f), StartMessage(m);
    forall k | k in g.toolStates
      ensures ToolLinked(r, k, g.toolStates[k])
    {
      assert ToolLinked(m, k, f.toolStates[k]);
    }
  }

  lemma NewMessageHolds(f: Fields, i: nat)
    ensures Held(f, i) && (f.messageItemId == "" || f.messageOutputIndex != i) ==> Held(WithNewMessage(f), i)
    ensures Held(WithNewMessage(f), f.nextOutputIndex)
  {
    var g := WithNewMessage(f);
    if InTools(f, i) {
      assert InTools(g, i);
    } else if InCompleted(f, i) {
      assert InCompleted(g, i);
    }
  }

  lemma MessageItemLinked(f: Fields, m: Writer, status: Status, parts: seq<Part>, open: bool)
    requires Linked(f, m) && f.messageOpen
    ensures
      var g := f.(messageStatus := status, messageParts := parts, messageOpen := open);
      Linked(g, m.(items := m.items[m.message.value := Message(f.messageItemId, status, parts)], messageOpen := open))
  {
    var g := f.(messageStatus := status, messageParts := parts, messageOpen := open);
    var r := m.(items := m.items[m.message.value := Message(f.messageItemId, status, parts)], messageOpen := open);
    forall k | k in g.toolStates
      ensures ToolLinked(r, k, g.toolStates[k])
    {
      assert ToolLinked(m, k, f.toolStates[k]);
    }
    forall i | 0 <= i < |r.items| && !r.items[i].Vacant?
      ensures Held(g, i)
    {
      assert Held(f, i);
      SameHolders(f, g, i);
    }
  }

  // ---- Tools ----

  function WithNewTool(f: Fields, call: ToolCall): Fields {
    var t := ToolState(ToolId(f.itemBase, call.index), CallId(f.itemBase, call.index), call.name, f.nextOutputIndex,
      call.index, "", InProgress);
    f.(toolStates := f.toolStates[call.index := t], toolOrder := f.toolOrder + [call.index],
      nextOutputIndex := f.nextOutputIndex + 1)
  }

  lemma StartToolLinked(f: Fields, m: Writer, call: ToolCall)
    requires Linked(f, m) && call.index !in f.toolStates
    ensures Linked(WithNewTool(f, call), StartTool(m, call))
  {
    hide Held, ToolsLinked;
    NewToolLinks(f, m, call);
    var g, r := WithNewTool(f, call), StartTool(m, call);
    forall i | 0 <= i < |r.items| && !r.items[i].Vacant?
      ensures Held(g, i)
    {
      NewToolHolds(f, call, i);
      if i < |m.items| {
        assert Held(f, i);
      }
    }
  }

  lemma NewToolLinks(f: Fields, m: Writer, call: ToolCall)
    requires WellKept(m) && ToolsLinked(f, m) && call.index !in f.toolStates
    requires m.base == f.itemBase && |m.items| == f.nextOutputIndex
    ensures ToolsLinked(WithNewTool(f, call), StartTool(m, call))
  {
    var g, r := WithNewTool(f, call), StartTool(m, call);
    forall k | k in g.toolStates
      ensures ToolLinked(r, k, g.toolStates[k])
      ensures k != call.index ==> g.toolStates[k].outputIndex < |m.items|
    {
      if k != call.index {
        assert ToolLinked(m, k, f.toolStates[k]);
      }
    }
  }

  lemma NewToolHolds(f: Fields, call: ToolCall, i: nat)
    requires call.index !in f.toolStates
    ensures Held(f, i) ==> Held(WithNewTool(f, call), i)
    ensures i == f.nextOutputIndex ==> Held(WithNewTool(f, call), i)
  {
    var g := WithNewTool(f, call);
    if InTools(f, i) {
      var j :| 0 <= j < |f.toolOrder| && f.toolOrder[j] in f.toolStates
        && f.toolStates[f.toolOrder[j]].outputIndex == i;
      assert g.toolOrder[j] in g.toolStates && g.toolStates[g.toolOrder[j]].outputIndex == i;
    } else if InCompleted(f, i) {
      assert InCompleted(g, i);
    }
    if i == f.nextOutputIndex {
      assert g.toolOrder[|f.toolOrder|] == call.index;
    }
  }

  lemma ToolReplaced(f: Fields, m: Writer, k: int, t: ToolState)
    requires WellKept(m) && ToolsLinked(f, m) && k in f.toolStates && t.outputIndex == f.toolStates[k].outputIndex
    ensures k in m.tools && m.tools[k] == t.outputIndex
    ensures ToolsLinked(f.(toolStates := f.toolStates[k := t]), WithTool(m, k, ToolOutput(t)))
  {
    assert ToolLinked(m, k, f.toolStates[k]);
    var g, r := f.(toolStates := f.toolStates[k := t]), WithTool(m, k, ToolOutput(t));
    forall l | l in g.toolStates
      ensures ToolLinked(r, l, g.toolStates[l])
    {
      assert ToolLinked(m, l, f.toolStates[l]);
    }
  }

  /** A tool's state is replaced by one at the same place. */
  lemma ToolItemLinked(f: Fields, m: Writer, k: int, t: ToolState)
    requires Linked(f, m) && k in f.toolStates && t.outputIndex == f.toolStates[k].outputIndex
    ensures k in m.tools && Linked(f.(toolStates := f.toolStates[k := t]), WithTool(m, k, ToolOutput(t)))
  {
    hide Held, ToolsLinked;
    ToolReplaced(f, m, k, t);
    var g, r := f.(toolStates := f.toolStates[k := t]), WithTool(m, k, ToolOutput(t));
    forall i | 0 <= i < |r.items| && !r.items[i].Vacant?
      ensures Held(g, i)
    {
      assert m.items[m.tools[k]].FunctionCall?;
      assert Held(f, i);
      SameHolders(f, g, i);
    }
  }

  // ---- The partition ----

  /** Position i is held if and only if it is in use, by exactly one of the four kinds of holder, and once. */
  predicate HeldOnce(f: Fields, i: nat) {
    && (i < f.nextOutputIndex <==> Held(f, i))
    && (f.messageItemId != "" && f.messageOutputIndex == i ==>
          !(f.reasoningItemId != "" && f.reasoningOutputIndex == i) && !InCompleted(f, i) && !InTools(f, i))
    && (f.reasoningItemId != "" && f.reasoningOutputIndex == i ==> !InCompleted(f, i) && !InTools(f, i))
    && (InCompleted(f, i) ==> !InTools(f, i))
    && (forall a, b :: 0 <= a < b < |f.completedReasoning| ==>
          !(f.completedReasoning[a].outputIndex == i == f.completedReasoning[b].outputIndex))
    && (forall a, b :: a in f.toolStates && b in f.toolStates && a != b ==>
          !(f.toolStates[a].outputIndex == i == f.toolStates[b].outputIndex))
  }

  /**
   Without a vacant position, the message index, the finished reasoning indexes, the current
   reasoning index and the tool indexes partition the positions.
   */
  lemma Partition(f: Fields, m: Writer, i: nat)
    requires Linked(f, m) && (i < |m.items| ==> !m.items[i].Vacant?)
    ensures HeldOnce(f, i)
  {
    if InTools(f, i) {
      ToolKind(f, m, i);
    }
    if InCompleted(f, i) {
      var j :| 0 <= j < |f.completedReasoning| && f.completedReasoning[j].outputIndex == i;
      assert At(m.items, i, ReasoningOutput(f.completedReasoning[j]));
    }
  }

  /** In every reachable state of the documented contract the holders partition the positions. */
  lemma ReachablePartition(f: Fields, base: string, events: seq<Event>, i: nat)
    requires Linked(f, TakeAll(Fresh(true, base), events))
    ensures HeldOnce(f, i)
  {
    hide Linked, HeldOnce, TakeAll, ToolsKept, ReasoningDistinct;
    var m := TakeAll(Fresh(true, base), events);
    AlwaysAccounted(true, base, events);
    if i < |m.items| {
      assert Placed(m, i);
    }
    Partition(f, m, i);
  }

  lemma ToolKind(f: Fields, m: Writer, i: nat)
    requires ToolsLinked(f, m) && InTools(f, i)
    ensures i < |m.items| && m.items[i].FunctionCall?
  {
    var j :| 0 <= j < |f.toolOrder| && f.toolOrder[j] in f.toolStates && f.toolStates[f.toolOrder[j]].outputIndex == i;
    var k := f.toolOrder[j];
    assert ToolLinked(m, k, f.toolStates[k]);
  }
}
