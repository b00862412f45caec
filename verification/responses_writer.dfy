/**
 The stream writer as it is: an object whose fields change with every event and whose sends may
 fail. Each method is proved against the function of the protocol it carries out. When a send
 fails, the fields still hold together and what the sink has is a prefix of what was due.
 */
module ResponsesWriter {
  import opened Wrappers
  import opened ResponsesProtocol
  import P = ResponsesProtocol
  import opened ResponsesFields
  import opened ResponsesNumbering
  import opened ResponsesSends
  import opened DecimalText

  class ResponsesStreamWriter {
    const documented: bool
    const itemBase: string
    /** Which tries the sink takes, counted from zero: any pattern. */
    const takes: nat -> bool
    /** What the sink has accepted. */
    var sink: seq<Frame>
    var began: bool
    var nextNumber: nat
    var nextOutputIndex: nat
    var reasoningOpen: bool
    var reasoningItemId: string
    var reasoningOutputIndex: nat
    var reasoningStatus: Status
    var reasoningText: string
    var completedReasoning: seq<ReasoningItem>
    var messageOpen: bool
    var messageItemId: string
    var messageOutputIndex: nat
    var messageStatus: Status
    var messageParts: seq<Part>
    var toolStates: map<int, ToolState>
    var toolOrder: seq<int>
    /** The state of the protocol the fields stand for. */
    ghost var model: Writer

    ghost function Now(): Fields
      reads this
    {
      Fields(documented, itemBase, began, nextNumber, nextOutputIndex, reasoningOpen, reasoningItemId,
             reasoningOutputIndex, reasoningStatus, reasoningText, completedReasoning, messageOpen, messageItemId,
             messageOutputIndex, messageStatus, messageParts, toolStates, toolOrder)
    }

    ghost predicate Valid()
      reads this
    {
      Linked(Now(), model) && model.sent == sink && Gap(model) == Refusals(takes, nextNumber) && AllTaken(takes, sink)
    }

    constructor (documented: bool, itemBase: string, takes: nat -> bool)
      ensures Valid() && model == Fresh(documented, itemBase) && this.takes == takes && this.documented == documented
    {
      this.takes := takes;
      this.documented := documented;
      this.itemBase := itemBase;
      sink := [];
      began := false;
      nextNumber := 0;
      nextOutputIndex := 0;
      reasoningOpen := false;
      reasoningItemId := "";
      reasoningOutputIndex := 0;
      reasoningStatus := NoStatus;
      reasoningText := "";
      completedReasoning := [];
      messageOpen := false;
      messageItemId := "";
      messageOutputIndex := 0;
      messageStatus := NoStatus;
      messageParts := [];
      toolStates := map[];
      toolOrder := [];
      model := Fresh(documented, itemBase);
    }

    /** Takes the next number, then tries to send. */
    method Send(body: Body) returns (ok: bool)
      requires Valid()
      modifies `nextNumber, `sink, `model
      ensures Valid() && nextNumber == old(nextNumber) + 1 && ok == takes(old(nextNumber))
      ensures model == Tried(old(model), body, ok) && Ends(old(model), model, Emit(old(model), body), ok)
    {
      hide Refusals, AllTaken, Linked, Tried, Emit, Ends, Gap;
      ghost var f, m := Now(), model;
      SameFlags(f, m);
      SinkKeeps(takes, m, body, nextNumber);
      var number := nextNumber;
      nextNumber := nextNumber + 1;
      ok := takes(number);
      if ok {
        sink := sink + [Frame(number, body)];
      }
      model := Tried(m, body, ok);
      SendKeeps(f, m, number, body, ok);
    }

    // ---- Reasoning ----

    /** Puts the finished item aside, on the documented contract, and names the next one. */
    method StartNextReasoningItem() returns (id: string)
      modifies `completedReasoning, `reasoningText
      ensures Now() == PutAside(old(Now())) && id == NextReasoningId(old(Now()))
    {
      if !documented || reasoningItemId == "" {
        return "rs_" + itemBase;
      }
      completedReasoning := completedReasoning + [ReasoningItem(reasoningItemId, reasoningOutputIndex,
        reasoningStatus, reasoningText)];
      reasoningText := "";
      return "rs_" + itemBase + "_" + Itoa(|completedReasoning|);
    }

    /** The item takes the next position. */
    method PlaceReasoning(id: string)
      modifies `reasoningItemId, `reasoningOutputIndex, `reasoningStatus, `nextOutputIndex
      ensures Now() == PlacedNext(old(Now()), id)
    {
      reasoningItemId := id;
      reasoningOutputIndex := nextOutputIndex;
      reasoningStatus := InProgress;
      nextOutputIndex := nextOutputIndex + 1;
    }

    method TakeNextReasoning()
      modifies `reasoningOpen, `reasoningItemId, `reasoningOutputIndex, `reasoningStatus, `reasoningText,
        `completedReasoning, `nextOutputIndex
      ensures Now() == WithNewReasoning(old(Now()))
    {
      hide PutAside, NextReasoningId, PlacedNext;
      ghost var f := Now();
      reasoningOpen := true;
      assert Now() == f.(reasoningOpen := true);
      var id := StartNextReasoningItem();
      PlaceReasoning(id);
    }

    /** The fields for the next item. */
    method StartReasoning()
      requires Valid() && !reasoningOpen
      modifies `reasoningOpen, `reasoningItemId, `reasoningOutputIndex, `reasoningStatus, `reasoningText,
        `completedReasoning, `nextOutputIndex, `model
      ensures Valid() && model == P.StartReasoning(old(model)) && reasoningStatus == InProgress
      ensures reasoningItemId == ReasoningId(old(model)) && reasoningOutputIndex == |old(model).items|
    {
      hide Refusals, AllTaken, Linked, P.StartReasoning, WellKept, WithNewReasoning, ReasoningId;
      ghost var f, m := Now(), model;
      ReasoningStarted(f, m);
      TakeNextReasoning();
      model := P.StartReasoning(m);
    }

    /** The summary part frames belong to the documented contract only. */
    method EmitReasoningSummaryPart(body: Body) returns (ok: bool)
      requires Valid()
      modifies `nextNumber, `sink, `model
      ensures Valid() && Ends(old(model), model, if documented then Emit(old(model), body) else old(model), ok)
      ensures SameMessage(old(model), model)
    {
      hide Refusals, AllTaken, Linked, Grows, Due;
      if !documented {
        NothingTried(model, model);
        return true;
      }
      ok := Send(body);
    }

    method OpenReasoning() returns (ok: bool)
      requires Valid()
      modifies this
      ensures SameMessage(old(model), model)
      ensures Valid() && Ends(old(model), model, P.OpenReasoning(old(model)), ok)
    {
      hide Refusals, AllTaken, Linked, WellKept, P.StartReasoning, P.OpenReasoning, Emit, Due, Grows, Gap, Silent;
      ghost var m := model;
      SameFlags(Now(), m);
      OpenedFrames(m);
      if reasoningOpen {
        NothingTried(m, m);
        return true;
      }
      StartReasoning();
      ghost var started, full := model, P.OpenReasoning(m);
      NothingTried(m, started);
      ok := Send(ItemAdded(reasoningOutputIndex, Reasoning(reasoningItemId, reasoningStatus, [])));
      ghost var added := Emit(started, ItemAdded(reasoningOutputIndex,
        Reasoning(reasoningItemId, reasoningStatus, [])));
      Next(m, started, model, added, full, ok);
      if !ok {
        return;
      }
      ok := EmitReasoningSummaryPart(SummaryPartAdded(reasoningItemId, reasoningOutputIndex));
      Next(m, added, model, full, full, ok);
    }

    method GrowReasoning(text: string)
      requires Valid() && reasoningOpen
      modifies `reasoningText, `model
      ensures Valid() && WellKept(old(model)) && old(model).thinkingOpen && model == P.GrowReasoning(old(model), text)
      ensures model.thinking == Some(reasoningOutputIndex)
      ensures old(model).items[reasoningOutputIndex].id == reasoningItemId
    {
      hide Refusals, AllTaken, Linked, WellKept, P.GrowReasoning;
      ghost var f, m := Now(), model;
      ReasoningGrown(f, m, text);
      reasoningText := reasoningText + text;
      model := P.GrowReasoning(m, text);
      assert Now() == f.(reasoningText := f.reasoningText + text);
    }

    method HandleReasoningDelta(text: string) returns (ok: bool)
      requires Valid()
      modifies this
      ensures Valid() && SameMessage(old(model), model)
      ensures Ends(old(model), model, TakeReasoning(old(model), text), ok)
    {
      hide Refusals, AllTaken, Linked, WellKept, P.OpenReasoning, P.GrowReasoning, Emit, Due, Grows, Gap, Silent;
      ghost var m := model;
      SameFlags(Now(), m);
      NothingTried(m, m);
      if text == "" {
        return true;
      }
      ReasoningFrames(m, text);
      ghost var v, full := P.OpenReasoning(m), TakeReasoning(m, text);
      ok := OpenReasoning();
      Next(m, m, model, v, full, ok);
      if !ok {
        return;
      }
      SameFlags(Now(), v);
      GrowReasoning(text);
      ghost var grown := model;
      NothingTried(v, grown);
      Next(m, v, grown, grown, grown, true);
      ok := Send(SummaryTextDelta(reasoningItemId, reasoningOutputIndex, text));
      Next(m, grown, model, full, full, ok);
    }

    method EndReasoning(status: Status)
      requires Valid() && reasoningOpen
      modifies `reasoningOpen, `reasoningStatus, `model
      ensures Valid() && WellKept(old(model)) && old(model).thinkingOpen && model == P.EndReasoning(old(model), status)
      ensures old(model).thinking == Some(reasoningOutputIndex) && reasoningStatus == status
      ensures old(model).items[reasoningOutputIndex].id == reasoningItemId
      ensures old(model).items[reasoningOutputIndex].summary == [reasoningText]
    {
      hide Refusals, AllTaken, Linked, WellKept, P.EndReasoning;
      ghost var f, m := Now(), model;
      ReasoningEnded(f, m, status);
      reasoningOpen := false;
      reasoningStatus := status;
      model := P.EndReasoning(m, status);
      assert Now() == f.(reasoningOpen := false, reasoningStatus := status);
    }

    method CloseReasoning(status: Status) returns (ok: bool)
      requires Valid()
      modifies this
      ensures Valid() && SameMessage(old(model), model)
      ensures Ends(old(model), model, P.CloseReasoning(old(model), status), ok)
    {
      hide Refusals, AllTaken, Linked, P.EndReasoning, P.CloseReasoning, Emit, WellKept, Due, Grows, Gap, Silent;
      ghost var m := model;
      SameFlags(Now(), m);
      if !reasoningOpen {
        NothingToClose(m, status);
        NothingTried(m, m);
        return true;
      }
      EndReasoning(status);
      ghost var ended, full := model, P.CloseReasoning(m, status);
      ClosingFrames(m, status);
      NothingTried(m, ended);
      ok := Send(SummaryTextDone(reasoningItemId, reasoningOutputIndex, reasoningText));
      ghost var told := Emit(ended, SummaryTextDone(reasoningItemId, reasoningOutputIndex, reasoningText));
      Next(m, ended, model, told, full, ok);
      if !ok {
        return;
      }
      ok := EmitReasoningSummaryPart(SummaryPartDone(reasoningItemId, reasoningOutputIndex, reasoningText));
      ghost var parted := if documented then Emit(told,
        SummaryPartDone(reasoningItemId, reasoningOutputIndex, reasoningText)) else told;
      Next(m, told, model, parted, full, ok);
      if !ok {
        return;
      }
      ok := Send(ItemDone(reasoningOutputIndex, Reasoning(reasoningItemId, reasoningStatus, [reasoningText])));
      Next(m, parted, model, full, full, ok);
    }

    method CloseReasoningBeforeNextItem() returns (ok: bool)
      requires Valid()
      modifies this
      ensures Valid() && SameMessage(old(model), model)
      ensures Ends(old(model), model, P.CloseReasoningBeforeNextItem(old(model)), ok)
    {
      hide Refusals, AllTaken, Linked, P.CloseReasoning, Due, Grows, Gap;
      SameFlags(Now(), model);
      if !documented {
        NothingTried(model, model);
        return true;
      }
      ok := CloseReasoning(Completed);
    }

    // ---- The message ----

    method StartMessage()
      requires Valid() && !messageOpen
      modifies this
      ensures Valid() && WellKept(old(model)) && model == P.StartMessage(old(model))
      ensures messageItemId == MessageId(itemBase) && messageOutputIndex == |old(model).items|
    {
      hide Refusals, AllTaken, Linked, WellKept, P.StartMessage;
      ghost var f, m := Now(), model;
      MessageStarted(f, m);
      messageOpen := true;
      messageItemId := "msg_" + itemBase;
      messageOutputIndex := nextOutputIndex;
      messageStatus := InProgress;
      nextOutputIndex := nextOutputIndex + 1;
      model := P.StartMessage(m);
      assert Now() == WithNewMessage(f);
    }

    method OpenMessage() returns (ok: bool)
      requires Valid()
      modifies this
      ensures Valid() && model.began == old(model).began
      ensures Ends(old(model), model, P.OpenMessage(old(model)), ok)
    {
      hide Refusals, AllTaken, Linked, P.CloseReasoningBeforeNextItem, P.OpenMessage, P.StartMessage, Emit, WellKept,
        Due, Grows, Gap, Silent;
      ghost var m := model;
      SameFlags(Now(), m);
      MessageFrames(m);
      NothingTried(m, m);
      if messageOpen {
        return true;
      }
      ghost var v, full := P.CloseReasoningBeforeNextItem(m), P.OpenMessage(m);
      ok := CloseReasoningBeforeNextItem();
      Next(m, m, model, v, full, ok);
      if !ok {
        return;
      }
      SameFlags(Now(), v);
      StartMessage();
      ghost var started := model;
      NothingTried(v, started);
      Next(m, v, started, started, started, true);
      ok := Send(ItemAdded(messageOutputIndex, Message(messageItemId, InProgress, [])));
      Next(m, started, model, full, full, ok);
    }

    /** Replaces the parts of the open message. */
    method SetParts(parts: seq<Part>)
      requires Valid() && messageOpen
      modifies `messageParts, `model
      ensures Valid() && WellKept(old(model)) && old(model).messageOpen && model == WithParts(old(model), parts)
      ensures messageParts == parts && old(model).message == Some(messageOutputIndex)
      ensures old(model).items[messageOutputIndex].id == messageItemId
      ensures old(model).items[messageOutputIndex].parts == old(messageParts)
    {
      hide Refusals, AllTaken, Linked, WellKept, WithParts;
      ghost var f, m := Now(), model;
      PartsSet(f, m, parts);
      messageParts := parts;
      model := WithParts(m, parts);
      assert Now() == f.(messageParts := parts);
    }

    method OpenMessageContentPart(kind: PartKind) returns (ok: bool, contentIndex: nat)
      requires Valid() && messageOpen
      modifies `messageParts, `nextNumber, `sink, `model
      ensures Valid() && SameMessage(old(model), model) && WellKept(old(model)) && old(model).messageOpen
      ensures Ends(old(model), model, OpenPart(old(model), kind), ok)
      ensures ok ==> contentIndex + 1 == |messageParts|
    {
      hide Refusals, AllTaken, Linked, WithParts, WellKept, Emit, Due, Grows, Gap;
      ghost var m := model;
      MessageLinks(Now(), m);
      NothingTried(m, m);
      var count := |messageParts|;
      if count > 0 && messageParts[count - 1].kind == kind {
        return true, count - 1;
      }
      PartsKeep(m, messageParts + [Part(kind, "")]);
      SetParts(messageParts + [Part(kind, "")]);
      contentIndex := |messageParts| - 1;
      ghost var longer := model;
      NothingTried(m, longer);
      ok := Send(PartAdded(messageItemId, messageOutputIndex, contentIndex, Part(kind, "")));
      Next(m, longer, model, OpenPart(m, kind), OpenPart(m, kind), ok);
      EmitKeepsMessage(longer, PartAdded(messageItemId, messageOutputIndex, contentIndex, Part(kind, "")));
    }

    /** Text for the open message. */
    method AddText(kind: PartKind, text: string) returns (ok: bool)
      requires Valid() && messageOpen
      modifies `messageParts, `nextNumber, `sink, `model
      ensures Valid() && model.began == old(model).began && WellKept(old(model)) && old(model).messageOpen
      ensures Ends(old(model), model, P.AddText(old(model), kind, text), ok)
    {
      hide Refusals, AllTaken, Linked, OpenPart, WithParts, P.AddText, Emit, WellKept, AppendToLast, Due, Grows, Gap,
        Silent;
      ghost var m := model;
      MessageLinks(Now(), m);
      TextFrames(m, kind, text);
      NothingTried(m, m);
      ghost var v, full := OpenPart(m, kind), P.AddText(m, kind, text);
      var contentIndex;
      ok, contentIndex := OpenMessageContentPart(kind);
      Next(m, m, model, v, full, ok);
      if !ok {
        return;
      }
      SetParts(AppendToLast(messageParts, text));
      ghost var grown := model;
      NothingTried(v, grown);
      Next(m, v, grown, grown, grown, true);
      ok := Send(PartDelta(messageItemId, messageOutputIndex, contentIndex, kind, text));
      Next(m, grown, model, full, full, ok);
    }

    /** Text and refusals are handled alike. */
    method HandleText(kind: PartKind, text: string) returns (ok: bool)
      requires Valid()
      modifies this
      ensures Valid() && model.began == old(model).began
      ensures Ends(old(model), model, TakeText(old(model), kind, text), ok)
    {
      hide Refusals, AllTaken, Linked, P.OpenMessage, P.AddText, WellKept, Due, Grows, Gap;
      ghost var m := model;
      SameFlags(Now(), m);
      NothingTried(m, m);
      if text == "" {
        return true;
      }
      ghost var v, full := P.OpenMessage(m), TakeText(m, kind, text);
      TextGrows(v, kind, text);
      ok := OpenMessage();
      Next(m, m, model, v, full, ok);
      if !ok {
        return;
      }
      SameFlags(Now(), model);
      ok := AddText(kind, text);
      Next(m, v, model, full, full, ok);
    }

    method EndMessage(status: Status)
      requires Valid() && messageOpen
      modifies `messageOpen, `messageStatus, `model
      ensures Valid() && WellKept(old(model)) && old(model).messageOpen && model == P.EndMessage(old(model), status)
      ensures old(model).message == Some(messageOutputIndex) && messageStatus == status
      ensures old(model).items[messageOutputIndex].id == messageItemId
      ensures old(model).items[messageOutputIndex].parts == messageParts
    {
      hide Refusals, AllTaken, Linked, WellKept, P.EndMessage;
      ghost var f, m := Now(), model;
      MessageEnded(f, m, status);
      messageOpen := false;
      messageStatus := status;
      model := P.EndMessage(m, status);
      assert Now() == f.(messageOpen := false, messageStatus := status);
    }

    /** The done frames of every part. */
    method CloseContent() returns (ok: bool, content: seq<Part>)
      requires Valid()
      modifies `nextNumber, `sink, `model
      ensures Valid() && (ok ==> content == messageParts)
      ensures Ends(old(model), model, CloseParts(old(model), messageItemId, messageOutputIndex, messageParts), ok)
    {
      hide Refusals, AllTaken, Linked, Emit, CloseParts, Due, Grows, Gap;
      ghost var m, full := model, CloseParts(model, messageItemId, messageOutputIndex, messageParts);
      content := [];
      PartsBegin(m, messageItemId, messageOutputIndex, messageParts);
      NothingTried(m, m);
      for contentIndex := 0 to |messageParts|
        modifies `nextNumber, `sink, `model
        invariant Valid() && content == messageParts[..contentIndex]
        invariant Ends(m, model, CloseParts(m, messageItemId, messageOutputIndex, messageParts[..contentIndex]), true)
      {
        var part := messageParts[contentIndex];
        PartsStep(m, messageItemId, messageOutputIndex, messageParts, contentIndex);
        ghost var u := model;
        ghost var told := Emit(u, PartTextDone(messageItemId, messageOutputIndex, contentIndex, part.kind, part.text));
        ok := Send(PartTextDone(messageItemId, messageOutputIndex, contentIndex, part.kind, part.text));
        Next(m, u, model, told, full, ok);
        if !ok {
          return;
        }
        ok := Send(PartDone(messageItemId, messageOutputIndex, contentIndex, part));
        Next(m, told, model, Emit(told, PartDone(messageItemId, messageOutputIndex, contentIndex, part)), full, ok);
        if !ok {
          return;
        }
        content := content + [part];
      }
      assert messageParts[..|messageParts|] == messageParts;
      ok := true;
    }

    method CloseMessage(status: Status) returns (ok: bool)
      requires Valid()
      modifies this
      ensures Valid()
      ensures Ends(old(model), model, P.CloseMessage(old(model), status), ok)
    {
      hide Refusals, AllTaken, Linked, Emit, CloseParts, WellKept, P.EndMessage, P.CloseMessage, Due, Grows, Gap,
        Silent;
      ghost var m := model;
      SameFlags(Now(), m);
      ghost var full := P.CloseMessage(m, status);
      MessageCloses(m, status);
      if !messageOpen {
        NothingTried(m, m);
        return true;
      }
      EndMessage(status);
      ghost var ended := model;
      ghost var v := CloseParts(ended, messageItemId, messageOutputIndex, messageParts);
      NothingTried(m, ended);
      var content;
      ok, content := CloseContent();
      Next(m, ended, model, v, full, ok);
      if !ok {
        return;
      }
      ok := Send(ItemDone(messageOutputIndex, Message(messageItemId, messageStatus, content)));
      Next(m, v, model, full, full, ok);
    }

    // ---- Tools ----

    method AddToolState(call: ToolCall)
      modifies `nextOutputIndex, `toolStates, `toolOrder
      ensures Now() == WithNewTool(old(Now()), call)
    {
      var state := ToolState("fc_" + itemBase + "_" + Itoa(call.index), "call_" + itemBase + "_" + Itoa(call.index),
                             call.name, nextOutputIndex, call.index, "", InProgress);
      nextOutputIndex := nextOutputIndex + 1;
      toolStates := toolStates[call.index := state];
      toolOrder := toolOrder + [call.index];
    }

    method CreateTool(call: ToolCall)
      requires Valid() && call.index !in toolStates
      modifies `nextOutputIndex, `toolStates, `toolOrder, `model
      ensures Valid() && WellKept(old(model)) && model == StartTool(old(model), call) && call.index in toolStates
      ensures toolStates[call.index].outputIndex == |old(model).items|
      ensures ToolOutput(toolStates[call.index]) == BlankTool(old(model), call)
    {
      hide Refusals, AllTaken, Linked, WellKept, StartTool;
      ghost var f, m := Now(), model;
      ToolStarted(f, m, call);
      AddToolState(call);
      model := StartTool(m, call);
    }

    method GetOrCreateTool(call: ToolCall) returns (isNew: bool)
      requires Valid()
      modifies this
      ensures Valid() && WellKept(old(model)) && call.index in toolStates && isNew == (call.index !in old(model).tools)
      ensures model == if isNew then StartTool(old(model), call) else old(model)
      ensures isNew ==>
        toolStates[call.index].outputIndex == |old(model).items|
        && ToolOutput(toolStates[call.index]) == BlankTool(old(model), call)
      ensures isNew ==>
        ToolOutput(toolStates[call.index]) ==
          FunctionCall("fc_" + old(model).base + "_" + Itoa(call.index),
                       "call_" + old(model).base + "_" + Itoa(call.index), InProgress, call.name, "")
    {
      hide Refusals, AllTaken, Linked, WellKept, StartTool, Itoa;
      SameFlags(Now(), model);
      SameTools(Now(), model, call.index);
      if call.index in toolStates {
        return false;
      }
      CreateTool(call);
      return true;
    }

    /** Replaces the state of a tool. */
    method SetTool(k: int, state: ToolState)
      requires Valid() && k in toolStates && state.outputIndex == toolStates[k].outputIndex
      modifies `toolStates, `model
      ensures Valid() && toolStates == old(toolStates)[k := state]
      ensures WellKept(old(model)) && k in old(model).tools && model == WithTool(old(model), k, ToolOutput(state))
    {
      hide Refusals, AllTaken, Linked, WellKept, WithTool;
      ghost var f, m := Now(), model;
      ToolSet(f, m, k, state);
      toolStates := toolStates[k := state];
      model := WithTool(m, k, ToolOutput(state));
      assert Now() == f.(toolStates := f.toolStates[k := state]);
    }

    /** A tool with a new index: reasoning is closed first where the contract says so. */
    method OpenNewTool(call: ToolCall) returns (ok: bool)
      requires Valid() && call.index !in toolStates
      modifies this
      ensures Valid() && SameMessage(old(model), model) && (ok ==> call.index in toolStates)
      ensures Ends(old(model), model, P.OpenTool(old(model), call), ok)
    {
      hide Refusals, AllTaken, Linked, WellKept, WithTool, StartTool, P.CloseReasoningBeforeNextItem, P.OpenTool, Emit,
        BlankTool, Due, Grows, Gap, Silent;
      ghost var m := model;
      SameFlags(Now(), m);
      ToolFrames(m, call);
      SameTools(Now(), m, call.index);
      NothingTried(m, m);
      ghost var v, full := P.CloseReasoningBeforeNextItem(m), P.OpenTool(m, call);
      ok := CloseReasoningBeforeNextItem();
      Next(m, m, model, v, full, ok);
      if !ok {
        return;
      }
      var isNew := GetOrCreateTool(call);
      ghost var started := model;
      NothingTried(v, started);
      Next(m, v, started, started, started, true);
      var state := toolStates[call.index];
      ok := Send(ItemAdded(state.outputIndex, FunctionCall(state.itemId, state.callId, state.status,
        state.name, state.args)));
      Next(m, started, model, full, full, ok);
    }

    method OpenTool(call: ToolCall) returns (ok: bool)
      requires Valid()
      modifies this
      ensures Valid() && SameMessage(old(model), model) && (ok ==> call.index in toolStates)
      ensures Ends(old(model), model, P.OpenTool(old(model), call), ok)
    {
      hide Refusals, AllTaken, Linked, WellKept, WithTool, StartTool, P.CloseReasoningBeforeNextItem, P.OpenTool, Emit,
        Due, Grows, Gap, Silent;
      if call.index !in toolStates {
        ok := OpenNewTool(call);
        return;
      }
      ghost var m := model;
      SameFlags(Now(), m);
      ToolFrames(m, call);
      SameTools(Now(), m, call.index);
      if call.name != "" {
        SetTool(call.index, toolStates[call.index].(name := call.name));
      }
      NothingTried(m, model);
      return true;
    }

    method HandleToolCall(call: ToolCall) returns (ok: bool)
      requires Valid()
      modifies this
      ensures Valid() && SameMessage(old(model), model)
      ensures Ends(old(model), model, TakeCall(old(model), call), ok)
    {
      hide Refusals, AllTaken, Linked, WellKept, WithTool, P.OpenTool, TakeCall, Emit, Due, Grows, Gap, Silent;
      ghost var m := model;
      SameFlags(Now(), m);
      CallFrames(m, call);
      NothingTried(m, m);
      ghost var v, full := P.OpenTool(m, call), TakeCall(m, call);
      ok := OpenTool(call);
      Next(m, m, model, v, full, ok);
      if !ok || call.arguments == "" {
        return;
      }
      SameTools(Now(), v, call.index);
      var state := toolStates[call.index];
      SetTool(call.index, state.(args := state.args + call.arguments));
      ghost var grown := model;
      NothingTried(v, grown);
      Next(m, v, grown, grown, grown, true);
      ok := Send(ArgumentsDelta(state.itemId, state.outputIndex, call.arguments));
      Next(m, grown, model, full, full, ok);
    }

    method HandleToolCalls(calls: seq<ToolCall>) returns (ok: bool)
      requires Valid()
      modifies this
      ensures Valid() && SameMessage(old(model), model)
      ensures Ends(old(model), model, TakeCalls(old(model), calls), ok)
    {
      hide Refusals, AllTaken, Linked, WellKept, TakeCall, TakeCalls, Due, Grows, Gap;
      ghost var m := model;
      SameFlags(Now(), m);
      ghost var full := TakeCalls(m, calls);
      CallsBegin(m, calls);
      NothingTried(m, m);
      for i := 0 to |calls|
        invariant Valid() && SameMessage(m, model) && Ends(m, model, TakeCalls(m, calls[..i]), true)
      {
        CallsStep(m, calls, i);
        ghost var u := model;
        ok := HandleToolCall(calls[i]);
        Next(m, u, model, TakeCall(u, calls[i]), full, ok);
        if !ok {
          return;
        }
      }
      assert calls[..|calls|] == calls;
      ok := true;
    }

    /** The done frames of one tool; its status is set once they are out. */
    method CloseTool(k: int, status: Status) returns (ok: bool)
      requires Valid() && k in model.tools
      modifies this
      ensures Valid() && WellKept(old(model)) && Ends(old(model), model, P.CloseTool(old(model), k, status), ok)
    {
      hide Refusals, AllTaken, Linked, WellKept, P.CloseTool, Emit, WithTool, Due, Grows, Gap, Silent;
      ghost var m := model;
      SameFlags(Now(), m);
      SameTools(Now(), m, k);
      ToolCloses(m, k, status);
      NothingTried(m, m);
      ghost var full := P.CloseTool(m, k, status);
      var state := toolStates[k];
      ok := Send(ArgumentsDone(state.itemId, state.outputIndex, state.name, state.args));
      ghost var told := Emit(m, ArgumentsDone(state.itemId, state.outputIndex, state.name, state.args));
      Next(m, m, model, told, full, ok);
      if !ok {
        return;
      }
      ghost var item := FunctionCall(state.itemId, state.callId, status, state.name, state.args);
      ok := Send(ItemDone(state.outputIndex, FunctionCall(state.itemId, state.callId, status, state.name, state.args)));
      ghost var done := Emit(told, ItemDone(state.outputIndex, item));
      Next(m, told, model, done, full, ok);
      if !ok {
        return;
      }
      SetTool(k, state.(status := status));
      NothingTried(done, full);
      Next(m, done, full, full, full, true);
    }

    method CloseTools(status: Status) returns (ok: bool)
      requires Valid()
      modifies this
      ensures Valid()
      ensures Ends(old(model), model, P.CloseTools(old(model), |old(model).toolOrder|, status), ok)
    {
      hide Refusals, AllTaken, Linked, WellKept, P.CloseTools, P.CloseTool, Due, Grows, Gap;
      ghost var m := model;
      SameFlags(Now(), m);
      ghost var full := P.CloseTools(m, |m.toolOrder|, status);
      ToolsBegin(m, status);
      NothingTried(m, m);
      SameOrder(Now(), m);
      var order := toolOrder;
      for i := 0 to |order|
        invariant Valid() && order == m.toolOrder && Ends(m, model, P.CloseTools(m, i, status), true)
      {
        ToolsStep(m, i, status);
        ghost var u := model;
        ok := CloseTool(order[i], status);
        Next(m, u, model, P.CloseTools(m, i + 1, status), full, ok);
        if !ok {
          return;
        }
      }
      ok := true;
    }

    // ---- The output in order ----

    method PlaceCompleted(slots: array<Item>)
      requires Valid() && OnlyOf(slots[..], model.items)
      modifies slots
      ensures OnlyOf(slots[..], model.items) && forall i :: 0 <= i < slots.Length && old(slots[i]) == model.items[i] ==>
        slots[i] == model.items[i]
      ensures forall j :: 0 <= j < |completedReasoning| ==>
        Right(slots[..], model.items, completedReasoning[j].outputIndex)
    {
      hide Refusals, AllTaken, Linked;
      for i := 0 to |completedReasoning|
        invariant OnlyOf(slots[..], model.items)
        invariant forall n :: 0 <= n < slots.Length && old(slots[n]) == model.items[n] ==> slots[n] == model.items[n]
        invariant forall j :: 0 <= j < i ==> Right(slots[..], model.items, completedReasoning[j].outputIndex)
      {
        var r := completedReasoning[i];
        CompletedFits(Now(), model, i);
        slots[r.outputIndex] := ReasoningOutput(r);
      }
    }

    method PlaceTools(slots: array<Item>)
      requires Valid() && OnlyOf(slots[..], model.items)
      modifies slots
      ensures OnlyOf(slots[..], model.items) && forall i :: 0 <= i < slots.Length && old(slots[i]) == model.items[i] ==>
        slots[i] == model.items[i]
      ensures forall j :: 0 <= j < |toolOrder| ==> ToolRight(slots[..], model.items, toolStates, toolOrder[j])
    {
      hide Refusals, AllTaken, Linked;
      for i := 0 to |toolOrder|
        invariant OnlyOf(slots[..], model.items)
        invariant forall n :: 0 <= n < slots.Length && old(slots[n]) == model.items[n] ==> slots[n] == model.items[n]
        invariant forall j :: 0 <= j < i ==> ToolRight(slots[..], model.items, toolStates, toolOrder[j])
      {
        var k := toolOrder[i];
        ToolFits(Now(), model, i);
        var t := toolStates[k];
        slots[t.outputIndex] := ToolOutput(t);
      }
    }

    /** Puts every held item at its index. The result is the protocol's item list, vacant positions included. */
    method OrderedOutput() returns (output: seq<Item>)
      requires Valid()
      ensures output == model.items
    {
      hide Refusals, AllTaken, Linked;
      ghost var f := Now();
      SlotsFit(f, model);
      var slots := new Item[nextOutputIndex](_ => Vacant);
      if messageItemId != "" {
        slots[messageOutputIndex] := Message(messageItemId, messageStatus, messageParts);
      }
      PlaceCompleted(slots);
      if reasoningItemId != "" {
        slots[reasoningOutputIndex] := ReasoningOutput(ReasoningItem(reasoningItemId, reasoningOutputIndex,
          reasoningStatus, reasoningText));
      }
      PlaceTools(slots);
      HeldIsRight(f, model, slots[..]);
      return slots[..];
    }

    // ---- Whole runs ----

    method MarkBegun()
      requires Valid()
      modifies `began, `model
      ensures Valid() && model == old(model).(began := true)
    {
      hide Refusals, AllTaken, Linked, WellKept;
      ghost var f, m := Now(), model;
      BeganLinked(f, m);
      began := true;
      model := m.(began := true);
      assert Now() == f.(began := true);
    }

    method Begin() returns (ok: bool)
      requires Valid()
      modifies this
      ensures Valid() && model.began && SameMessage(old(model).(began := true), model)
      ensures Ends(old(model), model, P.Begin(old(model)), ok)
    {
      hide Refusals, AllTaken, Linked, WellKept, P.Begin, Emit, Due, Grows, Gap, Silent;
      ghost var m := model;
      SameFlags(Now(), m);
      if began {
        BegunAlready(m);
        NothingTried(m, m);
        return true;
      }
      OpeningFrames(m);
      MarkBegun();
      ghost var begun, full := model, P.Begin(m);
      NothingTried(m, begun);
      var output := OrderedOutput();
      ok := Send(Snapshot(ResponseCreated, output));
      ghost var created := Emit(begun, Snapshot(ResponseCreated, output));
      Next(m, begun, model, created, full, ok);
      if !ok {
        return;
      }
      ok := Send(Snapshot(ResponseInProgress, output));
      Next(m, created, model, full, full, ok);
    }

    method WriteEvent(event: Event) returns (ok: bool)
      requires Valid()
      modifies this
      ensures Valid() && model.began
      ensures Ends(old(model), model, Take(old(model), event), ok)
    {
      hide Refusals, AllTaken, Linked, WellKept, P.Begin, TakeReasoning, P.CloseReasoning, TakeText, TakeCalls;
      SameFlags(Now(), model);
      RenderQuiet(P.Begin(model), event);
      ok := Begin();
      if !ok {
        return;
      }
      match event {
        case ReasoningSignaled => ok := true;
        case ReasoningDelta(text) => ok := HandleReasoningDelta(text);
        case ReasoningFinished => ok := CloseReasoning(Completed);
        case TextDelta(text) => ok := HandleText(OutputText, text);
        case RefusalDelta(text) => ok := HandleText(Refusal, text);
        case ToolCallDelta(calls) => ok := HandleToolCalls(calls);
        case OtherEvent => ok := true;
      }
    }

    method Fail() returns (ok: bool)
      requires Valid()
      modifies this
      ensures Valid()
      ensures Ends(old(model), model, P.Fail(old(model)), ok)
    {
      hide Refusals, AllTaken, Linked, WellKept, P.Begin;
      SameFlags(Now(), model);
      ok := Begin();
      if !ok {
        return;
      }
      var output := OrderedOutput();
      ok := Send(Snapshot(ResponseFailed, output));
    }

    method CloseAll(status: Status) returns (ok: bool)
      requires Valid()
      modifies this
      ensures Valid()
      ensures Ends(old(model), model, P.CloseAll(old(model), status), ok)
    {
      hide Refusals, AllTaken, Linked, WellKept, P.CloseReasoning, P.CloseMessage, P.CloseTools;
      ghost var m := model;
      SameFlags(Now(), m);
      ClosingQuiet(m, status);
      ok := CloseReasoning(status);
      if !ok {
        return;
      }
      ok := CloseMessage(status);
      if !ok {
        return;
      }
      ok := CloseTools(status);
    }

    method Finish(usageDetailMissing: bool, incomplete: bool) returns (ok: bool)
      requires Valid()
      modifies this
      ensures Valid()
      ensures Ends(old(model), model, P.Finish(old(model), usageDetailMissing, incomplete), ok)
    {
      hide Refusals, AllTaken, Linked, WellKept, P.Begin, P.CloseAll, P.Fail, P.Finish, Emit, Due, Grows, Gap, Silent;
      ghost var m := model;
      SameFlags(Now(), m);
      FinishFrames(m, usageDetailMissing, incomplete);
      NothingTried(m, m);
      ghost var b, full := P.Begin(m), P.Finish(m, usageDetailMissing, incomplete);
      ok := Begin();
      Next(m, m, model, b, full, ok);
      if !ok {
        return;
      }
      if documented && usageDetailMissing {
        ok := Fail();
        Next(m, b, model, full, full, ok);
        return;
      }
      ok := CloseAll(FinalStatus(incomplete));
      ghost var closed := P.CloseAll(b, FinalStatus(incomplete));
      Next(m, b, model, closed, full, ok);
      if !ok {
        return;
      }
      var output := OrderedOutput();
      ok := Send(Snapshot(if incomplete then ResponseIncomplete else ResponseCompleted, output));
      Next(m, closed, model, full, full, ok);
    }
  }
}
