/**
 What each step of the writer does to its items, in one equation per case.
 */
module ResponsesSteps {
  import opened Wrappers
  import opened ResponsesProtocol
  import opened ResponsesCollector

  // ---- Reasoning ----

  /** A delta that starts an item of its own. */
  lemma NewReasoning(w: Writer, text: string)
    requires WellKept(w) && text != "" && !w.thinkingOpen && (w.documented || w.thinking.None?)
    ensures
      var v := TakeReasoning(w, text);
      v == w.(items := w.items + [Reasoning(ReasoningId(w), InProgress, [text])], thinking := Some(|w.items|),
              thinkingOpen := true, segments := w.segments + 1, numbered := v.numbered, sent := v.sent,
              standing := v.standing)
  {
    assert "" + text == text;
    var item := Reasoning(ReasoningId(w), InProgress, [""]);
    assert OpenReasoning(w).items == w.items + [item];
    assert (w.items + [item])[|w.items| := AppendSummary(item, text)] == w.items + [AppendSummary(item, text)];
  }

  /** Compatibility mode reopens reasoning under a new index and leaves the old position vacant. */
  lemma ReopenedReasoning(w: Writer, text: string)
    requires WellKept(w) && text != "" && !w.thinkingOpen && !w.documented && w.thinking.Some?
    ensures
      var v, n := TakeReasoning(w, text), w.thinking.value;
      v == w.(items := w.items[n := Vacant] + [Reasoning(ReasoningId(w), InProgress, [w.items[n].summary[0] + text])],
              thinking := Some(|w.items|), thinkingOpen := true, numbered := v.numbered, sent := v.sent,
              standing := v.standing)
  {
    var kept := w.items[w.thinking.value := Vacant];
    var item := Reasoning(ReasoningId(w), InProgress, [CarriedText(w)]);
    assert OpenReasoning(w).items == kept + [item];
    assert (kept + [item])[|w.items| := AppendSummary(item, text)] == kept + [AppendSummary(item, text)];
  }

  /** A delta for the open item. */
  lemma MoreReasoning(w: Writer, text: string)
    requires WellKept(w) && text != "" && w.thinkingOpen
    ensures
      var v, n := TakeReasoning(w, text), w.thinking.value;
      v == w.(items := w.items[n := AppendSummary(w.items[n], text)], numbered := v.numbered, sent := v.sent,
        standing := v.standing)
  {
  }

  lemma ReasoningClosed(w: Writer, status: Status)
    requires WellKept(w) && w.thinkingOpen
    ensures
      var v, n := CloseReasoning(w, status), w.thinking.value;
      v == w.(items := w.items[n := WithStatus(w.items[n], status)], thinkingOpen := false, numbered := v.numbered,
        sent := v.sent, standing := v.standing)
  {
  }

  // ---- The message ----

  lemma PartOpened(w: Writer, kind: PartKind)
    requires WellKept(w) && w.messageOpen
    ensures
      var n := w.message.value; var v := OpenPart(w, kind);
      var parts := w.items[n].parts;
      v == w.(items := w.items[n := w.items[n].(parts := if EndsWithKind(parts, kind) then parts
        else parts + [Part(kind, "")])],
              numbered := v.numbered, sent := v.sent, standing := v.standing)
  {
    assert w.items[w.message.value := w.items[w.message.value]] == w.items;
  }

  /** What text does to an open message. */
  lemma TextAdded(w: Writer, kind: PartKind, text: string)
    requires WellKept(w) && w.messageOpen
    ensures
      var n := w.message.value; var v := AddText(w, kind, text);
      v == w.(items := w.items[n := w.items[n].(parts := CollectedParts(w.items[n].parts, kind, text))],
              numbered := v.numbered, sent := v.sent, standing := v.standing)
  {
    hide OpenPart;
    PartOpened(w, kind);
    var parts := w.items[w.message.value].parts;
    if !EndsWithKind(parts, kind) {
      assert "" + text == text;
      assert AppendToLast(parts + [Part(kind, "")], text) == parts + [Part(kind, text)];
    }
  }

  /** What a first text does to the writer. */
  lemma NewMessageItem(w: Writer, kind: PartKind, text: string)
    requires WellKept(w) && text != "" && !w.messageOpen && w.message.None?
    ensures
      var u, v := CloseReasoningBeforeNextItem(w), TakeText(w, kind, text);
      && v.items == u.items + [Message(MessageId(w.base), InProgress, [Part(kind, text)])]
      && v == u.(items := v.items, message := Some(|u.items|), messageOpen := true, numbered := v.numbered,
        sent := v.sent, standing := v.standing)
  {
    hide AddText, CloseReasoning;
    var u, o := CloseReasoningBeforeNextItem(w), OpenMessage(w);
    ReasoningAside(w);
    var item := Message(MessageId(w.base), InProgress, []);
    assert o.items == u.items + [item];
    TextAdded(o, kind, text);
    assert CollectedParts([], kind, text) == [Part(kind, text)];
    assert (u.items + [item])[|u.items| := item.(parts := [Part(kind, text)])] ==
      u.items + [item.(parts := [Part(kind, text)])];
  }

  /** Closing reasoning touches no message. */
  lemma ReasoningAside(w: Writer)
    requires WellKept(w)
    ensures var u := CloseReasoningBeforeNextItem(w);
      u.message == w.message && u.messageOpen == w.messageOpen && u.base == w.base
  {
  }

  /** What a further text does to the writer. */
  lemma MoreText(w: Writer, kind: PartKind, text: string)
    requires WellKept(w) && text != "" && w.messageOpen
    ensures
      var n := w.message.value; var v := TakeText(w, kind, text);
      v == w.(items := w.items[n := w.items[n].(parts := CollectedParts(w.items[n].parts, kind, text))],
        numbered := v.numbered, sent := v.sent, standing := v.standing)
  {
    hide AddText;
    TextAdded(w, kind, text);
  }

  // ---- Tools ----

  /** A call with an index not seen before. */
  lemma NewTool(w: Writer, call: ToolCall)
    requires WellKept(w) && call.index !in w.tools
    ensures
      var u, v := CloseReasoningBeforeNextItem(w), TakeCall(w, call);
      && v.items == u.items + [FunctionCall(ToolId(w.base, call.index), CallId(w.base, call.index), InProgress,
        call.name, call.arguments)]
      && v == u.(items := v.items, tools := u.tools[call.index := |u.items|], toolOrder := u.toolOrder + [call.index],
        numbered := v.numbered, sent := v.sent, standing := v.standing)
  {
    assert "" + call.arguments == call.arguments;
  }

  /** A call for a tool that is already out. */
  lemma KnownTool(w: Writer, call: ToolCall)
    requires WellKept(w) && call.index in w.tools
    ensures
      var v, n := TakeCall(w, call), w.tools[call.index];
      var item := w.items[n];
      var named := if call.name == "" then item else item.(name := call.name);
      v == w.(items := w.items[n := named.(arguments := item.arguments + call.arguments)], numbered := v.numbered,
        sent := v.sent, standing := v.standing)
  {
    var n := w.tools[call.index];
    var item := w.items[n];
    assert item.arguments + "" == item.arguments;
    assert w.items[n := item] == w.items;
  }
}
