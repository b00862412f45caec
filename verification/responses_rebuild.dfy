/**
 Which finished runs the client can follow: all of the documented contract, and in compatibility mode
 those that never reopen reasoning. What it has built at the end is then the terminal snapshot.
 */
module ResponsesRebuild {
  import opened Wrappers
  import opened ResponsesProtocol
  import opened ResponsesClient
  import opened ResponsesInvariants
  import opened ResponsesNumbering
  import opened ResponsesSteps
  import opened ResponsesAgreementLaws
  import opened ResponsesReopening

  /** The client has the writer's item; it may not know a tool's latest name before its done frame. */
  predicate Matches(item: Item, shown: Shown) {
    && !item.Vacant? && shown.done == (item.status != InProgress) && (!shown.done ==> shown.told == 0)
    && if item.FunctionCall? && !shown.done then shown.item.FunctionCall? && shown.item.(name := item.name) == item
       else shown.item == item
  }

  predicate Mirrors(items: seq<Item>, view: View) {
    |view| == |items| && forall i :: 0 <= i < |items| ==> Matches(items[i], view[i])
  }

  /** The client could follow everything sent so far and is up to date. */
  predicate Followed(w: Writer) {
    Follow(w.documented, w.sent).Some? && Mirrors(w.items, Follow(w.documented, w.sent).value)
  }

  /** What the client makes of one more frame. */
  lemma FollowEmit(w: Writer, body: Body)
    requires Follow(w.documented, w.sent).Some?
    ensures Follow(w.documented, Emit(w, body).sent) == See(w.documented, Follow(w.documented, w.sent).value, body)
  {
    assert Emit(w, body).sent[..|w.sent|] == w.sent;
  }

  lemma MirrorsAppend(items: seq<Item>, view: View, item: Item, shown: Shown)
    requires Mirrors(items, view) && Matches(item, shown)
    ensures Mirrors(items + [item], view + [shown])
  {
  }

  lemma MirrorsUpdate(items: seq<Item>, view: View, n: nat, item: Item, shown: Shown)
    requires Mirrors(items, view) && n < |items| && Matches(item, shown)
    ensures Mirrors(items[n := item], view[n := shown])
  {
  }

  // ---- Reasoning ----

  /** The next reasoning delta does not reopen an item. */
  predicate Continues(w: Writer) {
    w.documented || w.thinkingOpen || w.thinking.None?
  }

  lemma OpenReasoningFollowed(w: Writer)
    requires WellKept(w) && Continues(w) && Followed(w)
    ensures Followed(OpenReasoning(w))
  {
    hide See, Follow;
    if !w.thinkingOpen {
      var view := Follow(w.documented, w.sent).value;
      var id, n := ReasoningId(w), |w.items|;
      var blank := Reasoning(id, InProgress, []);
      var added := Emit(w, ItemAdded(n, blank));
      FollowEmit(w, ItemAdded(n, blank));
      SeeAdded(w.documented, view, blank);
      FollowEmit(added, SummaryPartAdded(id, n));
      if w.documented {
        SeeSummaryPart(w.documented, view, id);
      }
      MirrorsAppend(w.items, view, Reasoning(id, InProgress, [""]), Shown(Reasoning(id, InProgress, [""]), false, 0));
      assert OpenReasoning(w).sent == if w.documented then Emit(added, SummaryPartAdded(id, n)).sent else added.sent;
    }
  }

  lemma SeeAdded(documented: bool, view: View, item: Item)
    requires Blank(item)
    ensures See(documented, view, ItemAdded(|view|, item)) ==
      Some(view + [Shown(Announced(documented, item), false, 0)])
  {
  }

  lemma SeeSummaryPart(documented: bool, view: View, id: string)
    requires documented
    ensures See(documented, view + [Shown(Reasoning(id, InProgress, []), false, 0)], SummaryPartAdded(id, |view|))
         == Some(view + [Shown(Reasoning(id, InProgress, [""]), false, 0)])
  {
    var blank := Reasoning(id, InProgress, []);
    assert With(view + [Shown(blank, false, 0)], |view|, blank.(summary := [""])) ==
      view + [Shown(blank.(summary := [""]), false, 0)];
  }

  lemma TakeReasoningFollowed(w: Writer, text: string)
    requires WellKept(w) && Followed(w) && (w.thinkingOpen ==> w.items[w.thinking.value].status == InProgress)
    requires text != "" ==> Continues(w)
    ensures Followed(TakeReasoning(w, text))
  {
    hide OpenReasoning, See, Mirrors;
    if text != "" {
      OpenReasoningFollowed(w);
      OpenedInProgress(w);
      var v := OpenReasoning(w);
      var n := v.thinking.value;
      FollowEmit(v, SummaryTextDelta(v.items[n].id, n, text));
      SeeSummaryDelta(w.documented, v.items, Follow(w.documented, v.sent).value, n, text);
    }
  }

  lemma OpenedInProgress(w: Writer)
    requires WellKept(w) && (w.thinkingOpen ==> w.items[w.thinking.value].status == InProgress)
    ensures var v := OpenReasoning(w); v.items[v.thinking.value].status == InProgress
  {
  }

  lemma SeeSummaryDelta(documented: bool, items: seq<Item>, view: View, n: nat, text: string)
    requires Mirrors(items, view) && n < |items| && items[n].Reasoning?
    requires |items[n].summary| == 1 && items[n].status == InProgress
    ensures
      var seen := See(documented, view, SummaryTextDelta(items[n].id, n, text));
      seen.Some? && Mirrors(items[n := AppendSummary(items[n], text)], seen.value)
  {
    var item := AppendSummary(items[n], text);
    MirrorsUpdate(items, view, n, item, Shown(item, false, 0));
  }

  lemma CloseReasoningFollowed(w: Writer, status: Status)
    requires WellKept(w) && Followed(w) && status != InProgress
    requires w.thinkingOpen ==> w.items[w.thinking.value].status == InProgress
    ensures Followed(CloseReasoning(w, status))
  {
    hide See, Follow, DoneFrames;
    if w.thinkingOpen {
      var n, view := w.thinking.value, Follow(w.documented, w.sent).value;
      var item := WithStatus(w.items[n], status);
      var text := item.summary[0];
      SeeReasoningDone(w.documented, view, n, w.items[n], status);
      FollowEmit(w, SummaryTextDone(item.id, n, text));
      var v := Emit(w, SummaryTextDone(item.id, n, text));
      FollowEmit(v, SummaryPartDone(item.id, n, text));
      var u := if w.documented then Emit(v, SummaryPartDone(item.id, n, text)) else v;
      FollowEmit(u, ItemDone(n, item));
      var told := DoneFrames(w.documented, w.items[n]);
      MirrorsUpdate(w.items, view, n, item, Shown(item, true, told));
      assert CloseReasoning(w, status).sent == Emit(u, ItemDone(n, item)).sent;
    }
  }

  /** The done frames of a reasoning item, in their order. */
  lemma SeeReasoningDone(documented: bool, view: View, n: nat, item: Item, status: Status)
    requires n < |view| && view[n] == Shown(item, false, 0)
    requires item.Reasoning? && |item.summary| == 1 && status != InProgress
    ensures
      var text := item.summary[0];
      var once := view[n := Shown(item, false, 1)];
      var twice := view[n := Shown(item, false, 2)];
      var done := WithStatus(item, status);
      && See(documented, view, SummaryTextDone(item.id, n, text)) == Some(once)
      && (documented ==> See(documented, once, SummaryPartDone(item.id, n, text)) == Some(twice))
      && See(documented, if documented then twice else once, ItemDone(n, done))
           == Some(view[n := Shown(done, true, DoneFrames(documented, item))])
  {
    assert item.summary == [item.summary[0]];
    var once := view[n := Shown(item, false, 1)];
    var twice := view[n := Shown(item, false, 2)];
    assert Tell(view, n) == once && Tell(once, n) == twice;
    var done := Shown(WithStatus(item, status), true, DoneFrames(documented, item));
    assert once[n := done] == view[n := done] && twice[n := done] == view[n := done];
  }

  // ---- The message ----

  lemma OpenMessageFollowed(w: Writer)
    requires Accounted(w) && Followed(w)
    ensures Followed(OpenMessage(w))
    ensures var v := OpenMessage(w); v.items[v.message.value].status == InProgress
  {
    hide CloseReasoning, See, Mirrors;
    if !w.messageOpen {
      ThinkingInProgress(w);
      CloseReasoningFollowed(w, Completed);
      ReasoningAside(w);
      var v := CloseReasoningBeforeNextItem(w);
      var n, item := |v.items|, Message(MessageId(w.base), InProgress, []);
      FollowEmit(v, ItemAdded(n, item));
      SameLength(v);
      SeeAdded(w.documented, Follow(w.documented, v.sent).value, item);
      MirrorsAppend(v.items, Follow(w.documented, v.sent).value, item, Shown(item, false, 0));
      assert OpenMessage(w).sent == Emit(v, ItemAdded(n, item)).sent;
    } else {
      assert Placed(w, w.message.value);
    }
  }

  lemma SameLength(w: Writer)
    requires Followed(w)
    ensures |Follow(w.documented, w.sent).value| == |w.items|
  {
  }

  lemma ThinkingInProgress(w: Writer)
    requires Accounted(w)
    ensures w.thinkingOpen ==> w.items[w.thinking.value].status == InProgress
  {
    if w.thinkingOpen {
      assert Placed(w, w.thinking.value);
    }
  }

  lemma OpenPartFollowed(w: Writer, kind: PartKind)
    requires WellKept(w) && Followed(w) && w.messageOpen && w.items[w.message.value].status == InProgress
    ensures Followed(OpenPart(w, kind))
    ensures var v := OpenPart(w, kind);
      v.items[v.message.value].status == InProgress && EndsWithKind(v.items[v.message.value].parts, kind)
  {
    var n := w.message.value;
    var item := w.items[n];
    if !EndsWithKind(item.parts, kind) {
      FollowEmit(w, PartAdded(item.id, n, |item.parts|, Part(kind, "")));
      var longer := item.(parts := item.parts + [Part(kind, "")]);
      MirrorsUpdate(w.items, Follow(w.documented, w.sent).value, n, longer, Shown(longer, false, 0));
    }
  }

  lemma TakeTextFollowed(w: Writer, kind: PartKind, text: string)
    requires Accounted(w) && Followed(w)
    ensures Followed(TakeText(w, kind, text))
  {
    hide OpenMessage, OpenPart, See, Mirrors;
    if text != "" {
      OpenMessageFollowed(w);
      OpenPartFollowed(OpenMessage(w), kind);
      var v := OpenPart(OpenMessage(w), kind);
      var n := v.message.value;
      FollowEmit(v, PartDelta(v.items[n].id, n, |v.items[n].parts| - 1, kind, text));
      SeePartDelta(w.documented, v.items, Follow(w.documented, v.sent).value, n, kind, text);
    }
  }

  lemma SeePartDelta(documented: bool, items: seq<Item>, view: View, n: nat, kind: PartKind, text: string)
    requires Mirrors(items, view) && n < |items| && items[n].Message?
    requires items[n].status == InProgress && EndsWithKind(items[n].parts, kind)
    ensures
      var seen := See(documented, view, PartDelta(items[n].id, n, |items[n].parts| - 1, kind, text));
      seen.Some? && Mirrors(items[n := items[n].(parts := AppendToLast(items[n].parts, text))], seen.value)
  {
    var item := items[n].(parts := AppendToLast(items[n].parts, text));
    MirrorsUpdate(items, view, n, item, Shown(item, false, 0));
  }

  lemma SeePartDone(documented: bool, view: View, n: nat, item: Item, k: nat)
    requires n < |view| && item.Message? && k < |item.parts|
    ensures
      var part := item.parts[k];
      var before, between, after :=
        view[n := Shown(item, false, 2 * k)], view[n := Shown(item, false, 2 * k + 1)],
          view[n := Shown(item, false, 2 * k + 2)];
      && See(documented, before, PartTextDone(item.id, n, k, part.kind, part.text)) == Some(between)
      && See(documented, between, PartDone(item.id, n, k, part)) == Some(after)
  {
    var before, between := view[n := Shown(item, false, 2 * k)], view[n := Shown(item, false, 2 * k + 1)];
    assert Tell(before, n) == between && Tell(between, n) == view[n := Shown(item, false, 2 * k + 2)];
  }

  lemma {:induction false} ClosePartsFollowed(w: Writer, view: View, n: nat, item: Item, parts: seq<Part>)
    requires Follow(w.documented, w.sent) == Some(view) && n < |view|
    requires view[n] == Shown(item, false, 0) && item.Message? && parts <= item.parts
    ensures Follow(w.documented, CloseParts(w, item.id, n, parts).sent) ==
      Some(view[n := Shown(item, false, 2 * |parts|)])
  {
    hide Follow, See;
    if parts == [] {
      assert view[n := Shown(item, false, 0)] == view;
    } else {
      var last := |parts| - 1;
      ClosePartsFollowed(w, view, n, item, parts[..last]);
      var v := CloseParts(w, item.id, n, parts[..last]);
      var part := parts[last];
      assert part == item.parts[last];
      SeePartDone(w.documented, view, n, item, last);
      FollowEmit(v, PartTextDone(item.id, n, last, part.kind, part.text));
      FollowEmit(Emit(v, PartTextDone(item.id, n, last, part.kind, part.text)), PartDone(item.id, n, last, part));
    }
  }

  lemma CloseMessageFollowed(w: Writer, status: Status)
    requires WellKept(w) && Followed(w) && status != InProgress
    requires w.messageOpen ==> w.items[w.message.value].status == InProgress
    ensures Followed(CloseMessage(w, status))
  {
    hide See, Follow, CloseParts;
    if w.messageOpen {
      var n, view := w.message.value, Follow(w.documented, w.sent).value;
      var item := WithStatus(w.items[n], status);
      var v := w.(items := w.items[n := item], messageOpen := false);
      ClosePartsFollowed(v, view, n, w.items[n], item.parts);
      var u := CloseParts(v, item.id, n, item.parts);
      FollowEmit(u, ItemDone(n, item));
      SeeDone(w.documented, view, n, w.items[n], status);
      MirrorsUpdate(w.items, view, n, item, Shown(item, true, DoneFrames(w.documented, w.items[n])));
    }
  }

  /** The done frame of an item whose inside is all told. */
  lemma SeeDone(documented: bool, view: View, n: nat, item: Item, status: Status)
    requires n < |view| && !item.Vacant? && status != InProgress
    ensures
      var told := DoneFrames(documented, item);
      See(documented, view[n := Shown(item, false, told)], ItemDone(n, WithStatus(item, status)))
        == Some(view[n := Shown(WithStatus(item, status), true, told)])
  {
    var told := DoneFrames(documented, item);
    var done := Shown(WithStatus(item, status), true, told);
    assert view[n := Shown(item, false, told)][n := done] == view[n := done];
  }

  // ---- Tools ----

  lemma OpenToolFollowed(w: Writer, call: ToolCall)
    requires Accounted(w) && Followed(w)
    ensures Followed(OpenTool(w, call))
    ensures var v := OpenTool(w, call);
      v.items[v.tools[call.index]].FunctionCall? && v.items[v.tools[call.index]].status == InProgress
  {
    hide CloseReasoning, See, Mirrors;
    if call.index !in w.tools {
      ThinkingInProgress(w);
      CloseReasoningFollowed(w, Completed);
      var v := CloseReasoningBeforeNextItem(w);
      var item := FunctionCall(ToolId(w.base, call.index), CallId(w.base, call.index), InProgress, call.name, "");
      FollowEmit(v, ItemAdded(|v.items|, item));
      SameLength(v);
      SeeAdded(w.documented, Follow(w.documented, v.sent).value, item);
      MirrorsAppend(v.items, Follow(w.documented, v.sent).value, item, Shown(item, false, 0));
    } else {
      var n := w.tools[call.index];
      assert Placed(w, n);
      if call.name != "" {
        RenameUnseen(w.items, Follow(w.documented, w.sent).value, n, call.name);
      }
    }
  }

  lemma RenameUnseen(items: seq<Item>, view: View, n: nat, name: string)
    requires Mirrors(items, view) && n < |items| && items[n].FunctionCall? && items[n].status == InProgress
    ensures Mirrors(items[n := items[n].(name := name)], view)
  {
    MirrorsUpdate(items, view, n, items[n].(name := name), view[n]);
    assert view[n := view[n]] == view;
  }

  lemma TakeCallFollowed(w: Writer, call: ToolCall)
    requires Accounted(w) && Followed(w)
    ensures Followed(TakeCall(w, call))
  {
    hide OpenTool, See, Mirrors;
    OpenToolFollowed(w, call);
    var v := OpenTool(w, call);
    if call.arguments != "" {
      var n := v.tools[call.index];
      FollowEmit(v, ArgumentsDelta(v.items[n].id, n, call.arguments));
      SeeArgumentsDelta(w.documented, v.items, Follow(w.documented, v.sent).value, n, call.arguments);
    }
  }

  lemma SeeArgumentsDelta(documented: bool, items: seq<Item>, view: View, n: nat, text: string)
    requires Mirrors(items, view) && n < |items| && items[n].FunctionCall? && items[n].status == InProgress
    ensures
      var seen := See(documented, view, ArgumentsDelta(items[n].id, n, text));
      seen.Some? && Mirrors(items[n := items[n].(arguments := items[n].arguments + text)], seen.value)
  {
    var item := items[n].(arguments := items[n].arguments + text);
    MirrorsUpdate(items, view, n, item, Shown(view[n].item.(arguments := items[n].arguments + text), false, 0));
  }

  lemma {:induction false} TakeCallsFollowed(w: Writer, calls: seq<ToolCall>)
    requires Accounted(w) && Followed(w)
    ensures Followed(TakeCalls(w, calls))
  {
    hide TakeCall, Placed, ToolsKept, ReasoningDistinct, Followed;
    if calls != [] {
      var rest := calls[..|calls| - 1];
      TakeCallsFollowed(w, rest);
      TakeCallsAccounted(w, rest);
      TakeCallFollowed(TakeCalls(w, rest), calls[|calls| - 1]);
    }
  }

  lemma CloseToolFollowed(w: Writer, k: int, status: Status)
    requires WellKept(w) && k in w.tools && Followed(w)
    requires w.items[w.tools[k]].status == InProgress && status != InProgress
    ensures Followed(CloseTool(w, k, status))
  {
    hide See, Follow;
    var n, view := w.tools[k], Follow(w.documented, w.sent).value;
    var item := WithStatus(w.items[n], status);
    var v := Emit(w, ArgumentsDone(item.id, n, item.name, item.arguments));
    FollowEmit(w, ArgumentsDone(item.id, n, item.name, item.arguments));
    SeeArgumentsDone(w.documented, view, n, w.items[n]);
    FollowEmit(v, ItemDone(n, item));
    SeeDone(w.documented, view, n, w.items[n], status);
    MirrorsUpdate(w.items, view, n, item, Shown(item, true, 1));
    assert CloseTool(w, k, status).sent == Emit(v, ItemDone(n, item)).sent;
  }

  lemma SeeArgumentsDone(documented: bool, view: View, n: nat, item: Item)
    requires n < |view| && Matches(item, view[n]) && item.FunctionCall? && item.status == InProgress
    ensures See(documented, view, ArgumentsDone(item.id, n, item.name, item.arguments))
         == Some(view[n := Shown(item, false, 1)])
  {
    assert view[n].item.(name := item.name) == item;
    assert Tell(With(view, n, item), n) == view[n := Shown(item, false, 1)];
  }

  /** The tools from position j on in the order are still in progress, each at a place of its own. */
  predicate ToolsAwait(w: Writer, j: nat)
    requires WellKept(w)
  {
    && (forall i :: j <= i < |w.toolOrder| ==> w.items[ToolPlace(w, i)].status == InProgress)
    && (forall i, l :: 0 <= i < l < |w.toolOrder| ==> ToolPlace(w, i) != ToolPlace(w, l))
  }

  lemma {:induction false} CloseToolsFollowed(w: Writer, count: nat, status: Status)
    requires WellKept(w) && count <= |w.toolOrder| && Followed(w) && ToolsAwait(w, 0) && status != InProgress
    ensures Followed(CloseTools(w, count, status)) && ToolsAwait(CloseTools(w, count, status), count)
  {
    hide CloseTool, Followed, ToolsAwait;
    if count > 0 {
      CloseToolsFollowed(w, count - 1, status);
      var v := CloseTools(w, count - 1, status);
      NextAwaits(v, count - 1);
      CloseToolFollowed(v, v.toolOrder[count - 1], status);
      StillAwait(v, count - 1, status);
    }
  }

  lemma NextAwaits(w: Writer, j: nat)
    requires WellKept(w) && j < |w.toolOrder| && ToolsAwait(w, j)
    ensures w.toolOrder[j] in w.tools && w.tools[w.toolOrder[j]] == ToolPlace(w, j)
    ensures w.items[ToolPlace(w, j)].status == InProgress
  {
  }

  lemma StillAwait(w: Writer, j: nat, status: Status)
    requires WellKept(w) && j < |w.toolOrder| && ToolsAwait(w, j)
    ensures ToolsAwait(CloseTool(w, w.toolOrder[j], status), j + 1)
  {
    var v, n := CloseTool(w, w.toolOrder[j], status), ToolPlace(w, j);
    assert v == w.(items := w.items[n := WithStatus(w.items[n], status)], numbered := v.numbered, sent := v.sent,
      standing := v.standing);
    assert forall i :: 0 <= i < |w.toolOrder| ==> ToolPlace(v, i) == ToolPlace(w, i);
  }

  lemma AccountedAwait(w: Writer, v: Writer)
    requires Accounted(w) && WellKept(v) && v.tools == w.tools && v.toolOrder == w.toolOrder
    requires |v.items| == |w.items| && forall i :: 0 <= i < |w.items| && w.items[i].FunctionCall? ==>
      v.items[i] == w.items[i]
    ensures ToolsAwait(v, 0)
  {
    forall i | 0 <= i < |v.toolOrder|
      ensures v.items[ToolPlace(v, i)].status == InProgress && ToolAt(w, w.toolOrder[i], ToolPlace(v, i))
    {
      ToolInProgress(w, i);
      assert ToolPlace(v, i) == ToolPlace(w, i);
    }
    forall i, l | 0 <= i < l < |v.toolOrder|
      ensures ToolPlace(v, i) != ToolPlace(v, l)
    {
      assert w.toolOrder[i] != w.toolOrder[l];
      if ToolPlace(v, i) == ToolPlace(v, l) {
        assert ToolAt(w, w.toolOrder[i], ToolPlace(v, i)) && ToolAt(w, w.toolOrder[l], ToolPlace(v, l));
        ToolIdInjective(w.base, w.toolOrder[i], w.toolOrder[l]);
      }
    }
  }

  lemma ToolInProgress(w: Writer, j: nat)
    requires Accounted(w) && j < |w.toolOrder|
    ensures w.items[ToolPlace(w, j)].status == InProgress && ToolAt(w, w.toolOrder[j], ToolPlace(w, j))
  {
    assert Placed(w, ToolPlace(w, j));
    var k := w.toolOrder[j];
    assert k in w.tools && ToolPlace(w, j) == w.tools[k];
  }

  // ---- Whole runs ----

  lemma CloseAllFollowed(w: Writer, status: Status)
    requires Accounted(w) && Followed(w) && status != InProgress
    ensures Followed(CloseAll(w, status))
  {
    hide CloseReasoning, CloseMessage, CloseTools, Placed, ToolsKept, ReasoningDistinct, Followed, ToolsAwait;
    ThinkingInProgress(w);
    var u := CloseReasoning(w, status);
    CloseReasoningFollowed(w, status);
    if w.thinkingOpen { ReasoningClosed(w, status); } else { NoReasoningOpen(w, status); }
    MessageInProgress(w);
    var v := CloseMessage(u, status);
    CloseMessageFollowed(u, status);
    CloseMessageItems(u, status);
    AccountedAwait(w, v);
    CloseToolsFollowed(v, |v.toolOrder|, status);
  }

  lemma MessageInProgress(w: Writer)
    requires Accounted(w)
    ensures w.messageOpen ==> w.items[w.message.value].status == InProgress
  {
    if w.messageOpen {
      assert Placed(w, w.message.value);
    }
  }

  lemma BeginFollowed(w: Writer)
    requires WellKept(w) && Followed(w) && (!w.began ==> w.items == [])
    ensures Followed(Begin(w))
  {
    hide Follow;
    if !w.began {
      var v := w.(began := true);
      FollowEmit(v, Snapshot(ResponseCreated, w.items));
      FollowEmit(Emit(v, Snapshot(ResponseCreated, w.items)), Snapshot(ResponseInProgress, w.items));
    }
  }

  lemma TakeFollowed(w: Writer, event: Event)
    requires Accounted(w) && Followed(w) && (!w.began ==> w.items == []) && (Thinks(event) ==> Continues(w))
    ensures Followed(Take(w, event))
  {
    hide TakeReasoning, CloseReasoning, TakeText, TakeCalls, Placed, ToolsKept, ReasoningDistinct, Followed;
    BeginFollowed(w);
    BeginAccounted(w);
    var v := Begin(w);
    ThinkingInProgress(v);
    match event {
      case ReasoningDelta(text) => TakeReasoningFollowed(v, text);
      case ReasoningFinished => CloseReasoningFollowed(v, Completed);
      case TextDelta(text) => TakeTextFollowed(v, OutputText, text);
      case RefusalDelta(text) => TakeTextFollowed(v, Refusal, text);
      case ToolCallDelta(calls) => TakeCallsFollowed(v, calls);
      case ReasoningSignaled =>
      case OtherEvent =>
    }
  }

  lemma {:induction false} AlwaysFollowed(documented: bool, base: string, events: seq<Event>)
    requires documented || !Reopens(events)
    ensures Followed(TakeAll(Fresh(documented, base), events))
  {
    hide Take, Accounted, Thinks, Reopens, Closed;
    if events != [] {
      var rest, last := events[..|events| - 1], events[|events| - 1];
      ReopensStep(events);
      AlwaysFollowed(documented, base, rest);
      AlwaysAccounted(documented, base, rest);
      AlwaysRunning(documented, base, rest);
      var w := TakeAll(Fresh(documented, base), rest);
      if !documented {
        ClosedIsClosed(base, rest);
      }
      TakeFollowed(w, last);
    }
  }

  /** Settled items mirror exactly a view in which everything is done. */
  lemma SettledConfirms(items: seq<Item>, view: View)
    requires Mirrors(items, view) && forall i :: 0 <= i < |items| ==> !items[i].Vacant? && items[i].status != InProgress
    ensures Confirms(view, items)
  {
  }

  lemma NoneInProgress(w: Writer, status: Status)
    requires Followed(w) && status != InProgress
    ensures forall i :: 0 <= i < |w.items| ==>
      var item := Settled(w.items, status)[i]; !item.Vacant? && item.status != InProgress
  {
    hide Follow;
    forall i | 0 <= i < |w.items|
      ensures !w.items[i].Vacant?
    {
      assert Matches(w.items[i], Follow(w.documented, w.sent).value[i]);
    }
  }

  /** A run that never reopens reasoning is followed to its end. */
  lemma FollowedToTheEnd(documented: bool, base: string, events: seq<Event>, usageDetailMissing: bool, incomplete: bool)
    requires !(documented && usageDetailMissing) && (documented || !Reopens(events))
    ensures
      var r := Finish(TakeAll(Fresh(documented, base), events), usageDetailMissing, incomplete);
      Follow(documented, r.sent).Some? && Confirms(Follow(documented, r.sent).value, r.items)
  {
    hide TakeAll, CloseAll, Begin, Accounted, Settled, Confirms, See, Follow, Mirrors, Reopens;
    var w, status := TakeAll(Fresh(documented, base), events), FinalStatus(incomplete);
    AlwaysFollowed(documented, base, events);
    AlwaysAccounted(documented, base, events);
    AlwaysRunning(documented, base, events);
    BeginFollowed(w);
    BeginAccounted(w);
    var v := Begin(w);
    CloseAllFollowed(v, status);
    CloseAllSettles(v, status);
    NoneInProgress(v, status);
    var u := CloseAll(v, status);
    SettledConfirms(u.items, Follow(documented, u.sent).value);
    FollowEmit(u, Snapshot(if incomplete then ResponseIncomplete else ResponseCompleted, u.items));
    SeeTerminal(documented, Follow(documented, u.sent).value, if incomplete then ResponseIncomplete
      else ResponseCompleted, u.items);
  }

  lemma SeeTerminal(documented: bool, view: View, envelope: Envelope, output: seq<Item>)
    requires envelope == ResponseCompleted || envelope == ResponseIncomplete
    ensures See(documented, view, Snapshot(envelope, output)) == if Confirms(view, output) then Some(view) else None
  {
  }

  /** The client never shows a vacant position. */
  lemma {:induction false} NothingVacantShown(documented: bool, frames: seq<Frame>, i: nat)
    requires Follow(documented, frames).Some? && i < |Follow(documented, frames).value|
    ensures !Follow(documented, frames).value[i].item.Vacant?
  {
    if frames != [] {
      var rest := frames[..|frames| - 1];
      if i < |Follow(documented, rest).value| {
        NothingVacantShown(documented, rest, i);
      }
    }
  }

  /** So it refuses a terminal snapshot that has one. */
  lemma VacancyIsRefused(w: Writer, envelope: Envelope, i: nat)
    requires VacantAt(w, i) && (envelope == ResponseCompleted || envelope == ResponseIncomplete)
    ensures Follow(w.documented, Emit(w, Snapshot(envelope, w.items)).sent).None?
  {
    hide See;
    assert Emit(w, Snapshot(envelope, w.items)).sent[..|w.sent|] == w.sent;
    if Follow(w.documented, w.sent).Some? {
      var view := Follow(w.documented, w.sent).value;
      SeeTerminal(w.documented, view, envelope, w.items);
      if i < |view| {
        NothingVacantShown(w.documented, w.sent, i);
      }
    }
  }

  lemma ReopenedIsRefused(base: string, events: seq<Event>, usageDetailMissing: bool, incomplete: bool)
    requires Reopens(events)
    ensures Follow(false, Finish(TakeAll(Fresh(false, base), events), usageDetailMissing, incomplete).sent).None?
  {
    hide TakeAll, CloseAll, Accounted, Follow, Reopens;
    var w, status := TakeAll(Fresh(false, base), events), FinalStatus(incomplete);
    var i := ReopeningVacates(base, events);
    AlwaysAccounted(false, base, events);
    SettledAfterBegin(w, status);
    var u := CloseAll(Begin(w), status);
    assert VacantAt(u, i);
    VacancyIsRefused(u, if incomplete then ResponseIncomplete else ResponseCompleted, i);
  }

  /**
   A client follows a finished run to its end exactly if the contract is the documented one or no
   event reopens reasoning, and has then built exactly the terminal output, every item of it done.
   */
  lemma ClientRebuildsIff(documented: bool, base: string, events: seq<Event>,
      usageDetailMissing: bool, incomplete: bool)
    requires !(documented && usageDetailMissing)
    ensures
      var r := Finish(TakeAll(Fresh(documented, base), events), usageDetailMissing, incomplete);
      && (Follow(documented, r.sent).Some? <==> documented || !Reopens(events))
      && (Follow(documented, r.sent).Some? ==> Confirms(Follow(documented, r.sent).value, r.items))
      && r.sent[|r.sent| - 1].body == Snapshot(if incomplete then ResponseIncomplete else ResponseCompleted, r.items)
  {
    hide TakeAll, CloseAll, Confirms, Follow, Reopens;
    if documented || !Reopens(events) {
      FollowedToTheEnd(documented, base, events, usageDetailMissing, incomplete);
    } else {
      ReopenedIsRefused(base, events, usageDetailMissing, incomplete);
    }
  }

  /** A run no client can follow to its end. */
  lemma ReopenedRunIsRefused(base: string, usageDetailMissing: bool, incomplete: bool)
    ensures
      var events := [ReasoningDelta("a"), ReasoningFinished, ReasoningDelta("b")];
      Follow(false, Finish(TakeAll(Fresh(false, base), events), usageDetailMissing, incomplete).sent).None?
  {
    hide TakeAll, Finish, Follow, Reopens;
    SmallestReopening();
    ReopenedIsRefused(base, [ReasoningDelta("a"), ReasoningFinished, ReasoningDelta("b")],
      usageDetailMissing, incomplete);
  }

  /** Every text of the item is what its delta frames say, joined. */
  predicate ToldByDeltas(item: Item, frames: seq<Frame>, n: nat) {
    match item
    case Vacant => false
    case Reasoning(_, _, summary) => summary == [SummaryDeltas(frames, n)]
    case FunctionCall(_, _, _, _, arguments) => arguments == ArgumentDeltas(frames, n)
    case Message(_, _, parts) => forall k :: 0 <= k < |parts| ==> parts[k].text == PartDeltas(frames, n, k)
  }

  lemma ConfirmedByDeltas(documented: bool, frames: seq<Frame>, output: seq<Item>, n: nat)
    requires Follow(documented, frames).Some? && Confirms(Follow(documented, frames).value, output) && n < |output|
    requires !output[n].Vacant? && (output[n].Reasoning? ==> |output[n].summary| == 1)
    ensures ToldByDeltas(output[n], frames, n)
  {
    hide Follow;
    TextsAreDeltas(documented, frames, n, 0);
    if output[n].Message? {
      forall k | 0 <= k < |output[n].parts|
        ensures output[n].parts[k].text == PartDeltas(frames, n, k)
      {
        TextsAreDeltas(documented, frames, n, k);
      }
    }
  }

  lemma OneSummaryEach(w: Writer, status: Status, n: nat)
    requires Accounted(w) && n < |w.items|
    ensures var item := Settled(w.items, status)[n]; item.Reasoning? ==> |item.summary| == 1
  {
    assert Placed(w, n);
  }

  /** For each output item there is one added and one done frame, and its texts are its deltas, joined. */
  lemma OneFrameEach(documented: bool, base: string, events: seq<Event>, incomplete: bool, n: nat)
    requires documented || !Reopens(events)
    ensures
      var r := Finish(TakeAll(Fresh(documented, base), events), false, incomplete);
      && Added(r.sent, n) == Finished(r.sent, n) == (if n < |r.items| then 1 else 0)
      && (n < |r.items| ==> ToldByDeltas(r.items[n], r.sent, n))
  {
    hide TakeAll, CloseAll, Begin, Accounted, Settled, Follow, ToldByDeltas, Reopens;
    var w, status := TakeAll(Fresh(documented, base), events), FinalStatus(incomplete);
    var r := Finish(w, false, incomplete);
    FollowedToTheEnd(documented, base, events, false, incomplete);
    AnnouncedOnce(documented, r.sent, n);
    if n < |r.items| {
      AlwaysAccounted(documented, base, events);
      BeginAccounted(w);
      CloseAllSettles(Begin(w), status);
      OneSummaryEach(Begin(w), status, n);
      NothingVacantShown(documented, r.sent, n);
      ConfirmedByDeltas(documented, r.sent, r.items, n);
    }
  }
}
