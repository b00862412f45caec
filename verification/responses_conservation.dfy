/**
 Nothing a provider says is lost, moved or made up: in every run, streamed or collected, the texts of
 the items are the deltas of the events, joined in order, kind by kind and tool by tool, and every
 item has the id its place calls for.
 */
module ResponsesConservation {
  import opened Wrappers
  import opened DecimalText
  import opened ResponsesProtocol
  import opened ResponsesCollector
  import opened ResponsesInvariants

  // ---- What the events say ----

  type Letter = (PartKind, char)

  function Tag(kind: PartKind, text: string): seq<Letter> {
    seq(|text|, i requires 0 <= i < |text| => (kind, text[i]))
  }

  /** The reasoning so far, the message so far letter by letter, and the calls so far. */
  datatype Said = Said(thought: string, message: seq<Letter>, calls: seq<ToolCall>)

  function Say(said: Said, event: Event): Said {
    match event
    case ReasoningDelta(text) => said.(thought := said.thought + text)
    case TextDelta(text) => said.(message := said.message + Tag(OutputText, text))
    case RefusalDelta(text) => said.(message := said.message + Tag(Refusal, text))
    case ToolCallDelta(calls) => said.(calls := said.calls + calls)
    case _ => said
  }

  function SaidBy(events: seq<Event>): Said {
    if events == [] then Said("", [], []) else Say(SaidBy(events[..|events| - 1]), events[|events| - 1])
  }

  predicate Mentions(calls: seq<ToolCall>, k: int) {
    exists i :: 0 <= i < |calls| && calls[i].index == k
  }

  /** The arguments of a tool: those of its calls, joined. */
  function ArgumentsIn(calls: seq<ToolCall>, k: int): string {
    if calls == [] then ""
    else
      var last := calls[|calls| - 1];
      ArgumentsIn(calls[..|calls| - 1], k) + if last.index == k then last.arguments else ""
  }

  /** The name of a tool: the last one given. */
  function NameIn(calls: seq<ToolCall>, k: int): string {
    if calls == [] then ""
    else
      var last := calls[|calls| - 1];
      if last.index == k && last.name != "" then last.name else NameIn(calls[..|calls| - 1], k)
  }

  // ---- What the items hold ----

  function SummaryText(item: Item): string {
    if item.Reasoning? && |item.summary| == 1 then item.summary[0] else ""
  }

  function Thoughts(items: seq<Item>): string {
    if items == [] then "" else Thoughts(items[..|items| - 1]) + SummaryText(items[|items| - 1])
  }

  function Segments(items: seq<Item>): nat {
    if items == [] then 0 else Segments(items[..|items| - 1]) + if items[|items| - 1].Reasoning? then 1 else 0
  }

  function Letters(parts: seq<Part>): seq<Letter> {
    if parts == [] then [] else Letters(parts[..|parts| - 1]) + Tag(parts[|parts| - 1].kind, parts[|parts| - 1].text)
  }

  /** No part is empty and no part could be joined with the one before it. */
  predicate Maximal(parts: seq<Part>) {
    && (forall i :: 0 <= i < |parts| ==> parts[i].text != "")
    && (forall i :: 0 < i < |parts| ==> parts[i].kind != parts[i - 1].kind)
  }

  /** The items and the places in them, of a writer or of a collector. */
  datatype Holding = Holding(
    separate: bool, base: string, items: seq<Item>, segments: nat, thinking: Option<nat>, message: Option<nat>,
    tools: map<int, nat>)

  function OfWriter(w: Writer): Holding {
    Holding(w.documented, w.base, w.items, w.segments, w.thinking, w.message, w.tools)
  }

  function OfCollector(c: Collector): Holding {
    Holding(c.separate, c.base, c.output, c.segments, c.thinking, c.message, c.tools)
  }

  /** Reasoning items are numbered in order, and the latest is the one that is added to. */
  predicate ThoughtHeld(h: Holding, thought: string) {
    && Thoughts(h.items) == thought && h.segments == Segments(h.items)
    && (forall i :: 0 <= i < |h.items| && h.items[i].Reasoning? ==>
          |h.items[i].summary| == 1 && h.items[i].id == SegmentId(h.separate, h.base, Segments(h.items[..i])))
    && (h.thinking.Some? ==> h.thinking.value < |h.items| && h.items[h.thinking.value].Reasoning?)
    && (forall i :: 0 <= i < |h.items| && h.items[i].Reasoning? ==> h.thinking.Some? && i <= h.thinking.value)
  }

  predicate MessageHeld(h: Holding, letters: seq<Letter>) {
    && (h.message.Some? <==> letters != [])
    && (h.message.Some? ==>
          && h.message.value < |h.items| && h.items[h.message.value].Message?
          && h.items[h.message.value].id == "msg_" + h.base
          && Letters(h.items[h.message.value].parts) == letters && Maximal(h.items[h.message.value].parts))
    && (forall i :: 0 <= i < |h.items| && h.items[i].Message? ==> h.message == Some(i))
  }

  predicate ToolHeld(h: Holding, calls: seq<ToolCall>, k: int) {
    && (k in h.tools <==> Mentions(calls, k))
    && (k in h.tools ==>
          && h.tools[k] < |h.items| && h.items[h.tools[k]].FunctionCall?
          && h.items[h.tools[k]].id == "fc_" + h.base + "_" + Itoa(k)
          && h.items[h.tools[k]].callId == "call_" + h.base + "_" + Itoa(k)
          && h.items[h.tools[k]].name == NameIn(calls, k) && h.items[h.tools[k]].arguments == ArgumentsIn(calls, k))
  }

  /** The first call of a tool. */
  function FirstCall(calls: seq<ToolCall>, k: int): (n: nat)
    ensures n <= |calls|
  {
    if calls == [] then 0
    else
      var n := |calls| - 1;
      var before := FirstCall(calls[..n], k);
      if before < n then before else if calls[n].index == k then n else n + 1
  }

  /** Tools stand in the order of their first calls, and there are no others. */
  ghost predicate ToolsInOrder(h: Holding, calls: seq<ToolCall>) {
    && (forall k, l :: k in h.tools && l in h.tools && FirstCall(calls, k) < FirstCall(calls, l) ==>
      h.tools[k] < h.tools[l])
    && (forall i :: 0 <= i < |h.items| && h.items[i].FunctionCall? ==> exists k :: k in h.tools && h.tools[k] == i)
  }

  ghost predicate Holds(h: Holding, said: Said) {
    && ThoughtHeld(h, said.thought) && MessageHeld(h, said.message)
    && (forall k :: ToolHeld(h, said.calls, k)) && ToolsInOrder(h, said.calls)
  }

  // ---- What does not disturb what ----

  /** The same but for the status. */
  predicate Alike(a: Item, b: Item) {
    WithStatus(a, NoStatus) == WithStatus(b, NoStatus)
  }

  /** The places are the same, and the items but for those a condition picks out. */
  predicate SameHolder(h: Holding, g: Holding) {
    g.separate == h.separate && g.base == h.base && |g.items| >= |h.items|
  }

  lemma {:induction false} SameThoughts(a: seq<Item>, b: seq<Item>)
    requires |a| <= |b|
    requires forall i :: 0 <= i < |a| ==> SummaryText(a[i]) == SummaryText(b[i]) && a[i].Reasoning? == b[i].Reasoning?
    requires forall i :: |a| <= i < |b| ==> !b[i].Reasoning?
    ensures Thoughts(b) == Thoughts(a) && Segments(b) == Segments(a)
    decreases |b|
  {
    if b != [] {
      var n := |b| - 1;
      if |a| == |b| {
        hide SummaryText;
        SameThoughts(a[..n], b[..n]);
      } else {
        SameThoughts(a, b[..n]);
        NoMore(b);
      }
    }
  }

  lemma NoMore(items: seq<Item>)
    requires items != [] && !items[|items| - 1].Reasoning?
    ensures Thoughts(items) == Thoughts(items[..|items| - 1]) && Segments(items) == Segments(items[..|items| - 1])
  {
    assert Thoughts(items[..|items| - 1]) + "" == Thoughts(items[..|items| - 1]);
  }

  lemma ThoughtKept(h: Holding, g: Holding, thought: string)
    requires ThoughtHeld(h, thought) && SameHolder(h, g) && g.thinking == h.thinking && g.segments == h.segments
    requires forall i :: 0 <= i < |h.items| ==>
      (h.items[i].Reasoning? || g.items[i].Reasoning? ==> Alike(h.items[i], g.items[i]))
    requires forall i :: |h.items| <= i < |g.items| ==> !g.items[i].Reasoning?
    ensures ThoughtHeld(g, thought)
  {
    SameThoughts(h.items, g.items);
    forall i | 0 <= i < |g.items| && g.items[i].Reasoning?
      ensures |g.items[i].summary| == 1 && g.items[i].id == SegmentId(g.separate, g.base, Segments(g.items[..i]))
    {
      SameThoughts(h.items[..i], g.items[..i]);
    }
  }

  lemma MessageKept(h: Holding, g: Holding, letters: seq<Letter>)
    requires MessageHeld(h, letters) && SameHolder(h, g) && g.message == h.message
    requires forall i :: 0 <= i < |h.items| ==>
      (h.items[i].Message? || g.items[i].Message? ==> Alike(h.items[i], g.items[i]))
    requires forall i :: |h.items| <= i < |g.items| ==> !g.items[i].Message?
    ensures MessageHeld(g, letters)
  {
  }

  lemma ToolsKeptHeld(h: Holding, g: Holding, calls: seq<ToolCall>)
    requires (forall k :: ToolHeld(h, calls, k)) && ToolsInOrder(h, calls) && SameHolder(h, g) && g.tools == h.tools
    requires forall i :: 0 <= i < |h.items| ==>
      (h.items[i].FunctionCall? || g.items[i].FunctionCall? ==> Alike(h.items[i], g.items[i]))
    requires forall i :: |h.items| <= i < |g.items| ==> !g.items[i].FunctionCall?
    ensures (forall k :: ToolHeld(g, calls, k)) && ToolsInOrder(g, calls)
  {
    hide Mentions, NameIn, ArgumentsIn, FirstCall, Itoa;
    forall k
      ensures ToolHeld(g, calls, k)
    {
      assert ToolHeld(h, calls, k);
    }
  }

  /** A change of status only. */
  lemma StatusChanges(h: Holding, g: Holding, said: Said)
    requires Holds(h, said) && g == h.(items := g.items) && |g.items| == |h.items|
    requires forall i :: 0 <= i < |h.items| ==> Alike(h.items[i], g.items[i])
    ensures Holds(g, said)
  {
    hide ThoughtHeld, MessageHeld, ToolHeld, ToolsInOrder, Alike;
    ThoughtKept(h, g, said.thought);
    MessageKept(h, g, said.message);
    ToolsKeptHeld(h, g, said.calls);
  }

  // ---- Reasoning ----

  lemma ThoughtsPush(items: seq<Item>, item: Item)
    ensures Thoughts(items + [item]) == Thoughts(items) + SummaryText(item)
    ensures Segments(items + [item]) == Segments(items) + if item.Reasoning? then 1 else 0
  {
    assert (items + [item])[..|items|] == items;
  }

  lemma PrefixKept(items: seq<Item>, item: Item, i: nat)
    requires i <= |items|
    ensures (items + [item])[..i] == items[..i]
  {
  }

  /** A delta that starts an item of its own. */
  lemma ThoughtStarts(h: Holding, g: Holding, thought: string, text: string, status: Status)
    requires ThoughtHeld(h, thought)
    requires g == h.(items := h.items + [Reasoning(SegmentId(h.separate, h.base, h.segments), status, [text])],
                     thinking := Some(|h.items|), segments := h.segments + 1)
    ensures ThoughtHeld(g, thought + text)
  {
    ThoughtsPush(h.items, g.items[|h.items|]);
    forall i | 0 <= i < |g.items| && g.items[i].Reasoning?
      ensures g.items[i].id == SegmentId(g.separate, g.base, Segments(g.items[..i]))
    {
      PrefixKept(h.items, g.items[|h.items|], i);
    }
  }

  /** The thoughts up to and after the latest reasoning item. */
  lemma {:induction false} ThoughtsSplit(items: seq<Item>, n: nat)
    requires n < |items| && forall i :: n < i < |items| ==> !items[i].Reasoning?
    ensures Thoughts(items) == Thoughts(items[..n]) + SummaryText(items[n])
    ensures Segments(items) == Segments(items[..n]) + if items[n].Reasoning? then 1 else 0
  {
    var last := |items| - 1;
    if n < last {
      ThoughtsSplit(items[..last], n);
      assert items[..last][..n] == items[..n];
      assert Thoughts(items[..last]) + "" == Thoughts(items[..last]);
    }
  }

  /** A delta for the latest item. */
  lemma ThoughtGrows(h: Holding, g: Holding, thought: string, text: string, item: Item)
    requires ThoughtHeld(h, thought) && h.thinking.Some? && Alike(item, AppendSummary(h.items[h.thinking.value], text))
    requires g == h.(items := h.items[h.thinking.value := item])
    ensures ThoughtHeld(g, thought + text)
  {
    var n := h.thinking.value;
    ThoughtsSplit(h.items, n);
    ThoughtsSplit(g.items, n);
    assert g.items[..n] == h.items[..n];
    assert Thoughts(h.items[..n]) + (SummaryText(h.items[n]) + text) == thought + text;
    forall i | 0 <= i < |g.items| && g.items[i].Reasoning?
      ensures |g.items[i].summary| == 1 && g.items[i].id == SegmentId(g.separate, g.base, Segments(g.items[..i]))
    {
      assert i <= n && g.items[..i] == h.items[..i];
    }
  }

  lemma MovedThoughts(items: seq<Item>, n: nat, item: Item, text: string)
    requires n < |items| && items[n].Reasoning? && |items[n].summary| == 1
    requires forall i :: 0 <= i < |items| && items[i].Reasoning? ==> i == n
    requires item.Reasoning? && item.summary == [items[n].summary[0] + text]
    ensures Thoughts(items[n := Vacant] + [item]) == Thoughts(items) + text
    ensures Segments(items[n := Vacant] + [item]) == Segments(items) == 1 && Segments(items[n := Vacant]) == 0
  {
    hide Thoughts, Segments;
    ThoughtsSplit(items, n);
    NoThoughts(items[..n]);
    NoThoughts(items[n := Vacant]);
    ThoughtsPush(items[n := Vacant], item);
    assert "" + items[n].summary[0] == items[n].summary[0];
    assert "" + (items[n].summary[0] + text) == items[n].summary[0] + text;
  }

  /** In compatibility mode a reopened item takes a new position, with all its text. */
  lemma ThoughtMoves(h: Holding, g: Holding, thought: string, text: string)
    requires ThoughtHeld(h, thought) && h.thinking.Some? && !h.separate
    requires forall i :: 0 <= i < |h.items| && h.items[i].Reasoning? ==> h.thinking == Some(i)
    requires
      var n := h.thinking.value;
      g == h.(items := h.items[n := Vacant] + [Reasoning("rs_" + h.base, InProgress, [h.items[n].summary[0] + text])],
              thinking := Some(|h.items|))
    ensures ThoughtHeld(g, thought + text)
  {
    hide Thoughts, Segments;
    MovedThoughts(h.items, h.thinking.value, g.items[|h.items|], text);
  }

  lemma {:induction false} NoThoughts(items: seq<Item>)
    requires forall i :: 0 <= i < |items| ==> !items[i].Reasoning?
    ensures Thoughts(items) == "" && Segments(items) == 0
  {
    if items != [] {
      NoThoughts(items[..|items| - 1]);
    }
  }

  // ---- The message ----

  lemma LettersPush(parts: seq<Part>, part: Part)
    ensures Letters(parts + [part]) == Letters(parts) + Tag(part.kind, part.text)
  {
    assert (parts + [part])[..|parts|] == parts;
  }

  lemma TagGrows(kind: PartKind, a: string, b: string)
    ensures Tag(kind, a + b) == Tag(kind, a) + Tag(kind, b)
  {
  }

  lemma LastPartGrows(parts: seq<Part>, kind: PartKind, text: string)
    requires EndsWithKind(parts, kind)
    ensures Letters(AppendToLast(parts, text)) == Letters(parts) + Tag(kind, text)
  {
    hide Letters, Tag;
    var n := |parts| - 1;
    var grown := Part(kind, parts[n].text + text);
    assert parts == parts[..n] + [parts[n]] && AppendToLast(parts, text) == parts[..n] + [grown];
    LettersPush(parts[..n], parts[n]);
    LettersPush(parts[..n], grown);
    TagGrows(kind, parts[n].text, text);
  }

  lemma PartsGrow(parts: seq<Part>, kind: PartKind, text: string)
    requires Maximal(parts) && text != ""
    ensures Maximal(CollectedParts(parts, kind, text))
    ensures Letters(CollectedParts(parts, kind, text)) == Letters(parts) + Tag(kind, text)
  {
    hide Letters, Tag;
    if EndsWithKind(parts, kind) {
      LastPartGrows(parts, kind, text);
    } else {
      LettersPush(parts, Part(kind, text));
    }
  }

  lemma FirstPart(kind: PartKind, text: string)
    requires text != ""
    ensures Letters([Part(kind, text)]) == Tag(kind, text) && Tag(kind, text) != [] && Maximal([Part(kind, text)])
  {
    assert [] + [Part(kind, text)] == [Part(kind, text)];
    LettersPush([], Part(kind, text));
    assert Letters([]) + Tag(kind, text) == Tag(kind, text);
    assert |Tag(kind, text)| == |text|;
  }

  lemma MessageStarts(h: Holding, g: Holding, letters: seq<Letter>, kind: PartKind, text: string, status: Status)
    requires MessageHeld(h, letters) && h.message.None? && text != ""
    requires g == h.(items := h.items + [Message("msg_" + h.base, status, [Part(kind, text)])],
      message := Some(|h.items|))
    ensures MessageHeld(g, letters + Tag(kind, text))
  {
    hide Letters, Tag, Maximal;
    FirstPart(kind, text);
    assert letters + Tag(kind, text) == Tag(kind, text);
  }

  lemma MessageGrows(h: Holding, g: Holding, letters: seq<Letter>, kind: PartKind, text: string)
    requires MessageHeld(h, letters) && text != "" && h.message.Some?
    requires
      var n := h.message.value;
      g == h.(items := h.items[n := h.items[n].(parts := CollectedParts(h.items[n].parts, kind, text))])
    ensures MessageHeld(g, letters + Tag(kind, text))
  {
    hide CollectedParts;
    PartsGrow(h.items[h.message.value].parts, kind, text);
  }

  // ---- Tools ----

  lemma CallsPush(calls: seq<ToolCall>, call: ToolCall, k: int)
    ensures Mentions(calls + [call], k) <==> Mentions(calls, k) || call.index == k
    ensures ArgumentsIn(calls + [call], k) == ArgumentsIn(calls, k) + if call.index == k then call.arguments else ""
    ensures NameIn(calls + [call], k) == if call.index == k && call.name != "" then call.name else NameIn(calls, k)
    ensures FirstCall(calls + [call], k) ==
      if FirstCall(calls, k) < |calls| then FirstCall(calls, k) else if call.index == k then |calls| else |calls| + 1
  {
    var longer := calls + [call];
    assert longer[..|calls|] == calls;
    if Mentions(calls, k) {
      var i :| 0 <= i < |calls| && calls[i].index == k;
      assert longer[i].index == k;
    }
    if call.index == k {
      assert longer[|calls|].index == k;
    }
  }

  lemma {:induction false} Unmentioned(calls: seq<ToolCall>, k: int)
    ensures !Mentions(calls, k) ==> ArgumentsIn(calls, k) == "" && NameIn(calls, k) == ""
    ensures FirstCall(calls, k) < |calls| <==> Mentions(calls, k)
  {
    if calls != [] {
      var n := |calls| - 1;
      Unmentioned(calls[..n], k);
      assert calls == calls[..n] + [calls[n]];
      CallsPush(calls[..n], calls[n], k);
    }
  }

  lemma OtherToolKept(h: Holding, g: Holding, calls: seq<ToolCall>, call: ToolCall, k: int)
    requires ToolHeld(h, calls, k) && SameHolder(h, g) && k != call.index
    requires (k in g.tools <==> k in h.tools) && (k in h.tools ==> g.tools[k] == h.tools[k])
    requires k in h.tools ==> g.items[h.tools[k]] == h.items[h.tools[k]]
    ensures ToolHeld(g, calls + [call], k)
  {
    hide Mentions, ArgumentsIn, NameIn, Itoa;
    CallsPush(calls, call, k);
    assert ArgumentsIn(calls, k) + "" == ArgumentsIn(calls, k);
  }

  lemma NewToolHeld(g: Holding, calls: seq<ToolCall>, call: ToolCall)
    requires call.index in g.tools && !Mentions(calls, call.index) && g.tools[call.index] < |g.items|
    requires
      var item := g.items[g.tools[call.index]];
      && item.FunctionCall? && item.id == "fc_" + g.base + "_" + Itoa(call.index)
      && item.callId == "call_" + g.base + "_" + Itoa(call.index) && item.name == call.name
        && item.arguments == call.arguments
    ensures ToolHeld(g, calls + [call], call.index)
  {
    hide Mentions, ArgumentsIn, NameIn, Itoa;
    CallsPush(calls, call, call.index);
    Unmentioned(calls, call.index);
    assert "" + call.arguments == call.arguments;
  }

  /** Tools known before come before a new one. */
  lemma OrderKept(h: Holding, g: Holding, calls: seq<ToolCall>, call: ToolCall)
    requires (forall k :: ToolHeld(h, calls, k)) && ToolsInOrder(h, calls) && call.index !in h.tools
    requires g.tools == h.tools[call.index := |h.items|]
    ensures forall k, l | k in g.tools && l in g.tools ::
      FirstCall(calls + [call], k) < FirstCall(calls + [call], l) ==> g.tools[k] < g.tools[l]
  {
    hide Mentions, ArgumentsIn, NameIn, Itoa, FirstCall;
    forall k, l | k in g.tools && l in g.tools && FirstCall(calls + [call], k) < FirstCall(calls + [call], l)
      ensures g.tools[k] < g.tools[l]
    {
      assert ToolHeld(h, calls, k) && ToolHeld(h, calls, l);
      CallsPush(calls, call, k);
      CallsPush(calls, call, l);
      Unmentioned(calls, k);
      Unmentioned(calls, l);
    }
  }

  lemma ToolStarts(h: Holding, g: Holding, calls: seq<ToolCall>, call: ToolCall, item: Item)
    requires (forall k :: ToolHeld(h, calls, k)) && ToolsInOrder(h, calls) && call.index !in h.tools
    requires item.FunctionCall? && item.id == "fc_" + h.base + "_" + Itoa(call.index)
    requires item.callId == "call_" + h.base + "_" + Itoa(call.index)
    requires item.name == call.name && item.arguments == call.arguments
    requires g == h.(items := h.items + [item], tools := h.tools[call.index := |h.items|])
    ensures (forall k :: ToolHeld(g, calls + [call], k)) && ToolsInOrder(g, calls + [call])
  {
    hide Mentions, ArgumentsIn, NameIn, Itoa, FirstCall;
    forall k
      ensures ToolHeld(g, calls + [call], k)
    {
      assert ToolHeld(h, calls, k);
      if k == call.index {
        NewToolHeld(g, calls, call);
      } else {
        OtherToolKept(h, g, calls, call, k);
      }
    }
    OrderKept(h, g, calls, call);
    forall i | 0 <= i < |g.items| && g.items[i].FunctionCall?
      ensures exists k :: k in g.tools && g.tools[k] == i
    {
      if i < |h.items| {
        var k :| k in h.tools && h.tools[k] == i;
        assert k in g.tools && g.tools[k] == i;
      } else {
        assert call.index in g.tools && g.tools[call.index] == i;
      }
    }
  }

  lemma SameOrderKept(h: Holding, calls: seq<ToolCall>, call: ToolCall)
    requires (forall k :: ToolHeld(h, calls, k)) && ToolsInOrder(h, calls)
    ensures forall k, l | k in h.tools && l in h.tools ::
      FirstCall(calls + [call], k) < FirstCall(calls + [call], l) ==> h.tools[k] < h.tools[l]
  {
    hide Mentions, ArgumentsIn, NameIn, Itoa, FirstCall;
    forall k, l | k in h.tools && l in h.tools && FirstCall(calls + [call], k) < FirstCall(calls + [call], l)
      ensures h.tools[k] < h.tools[l]
    {
      assert ToolHeld(h, calls, k) && ToolHeld(h, calls, l);
      CallsPush(calls, call, k);
      CallsPush(calls, call, l);
      Unmentioned(calls, k);
      Unmentioned(calls, l);
    }
  }

  /** Two tools are at two places. */
  lemma PlacesDiffer(h: Holding, calls: seq<ToolCall>, k: int, l: int)
    requires ToolHeld(h, calls, k) && ToolHeld(h, calls, l) && k in h.tools && l in h.tools && k != l
    ensures h.tools[k] != h.tools[l]
  {
    hide Mentions, ArgumentsIn, NameIn, Itoa;
    if h.tools[k] == h.tools[l] {
      ToolIdInjective(h.base, k, l);
    }
  }

  lemma ToolGrows(h: Holding, g: Holding, calls: seq<ToolCall>, call: ToolCall)
    requires (forall k :: ToolHeld(h, calls, k)) && ToolsInOrder(h, calls) && call.index in h.tools
    requires ToolHeld(h, calls, call.index)
    requires
      var n := h.tools[call.index];
      var item := h.items[n];
      var named := if call.name == "" then item else item.(name := call.name);
      g == h.(items := h.items[n := named.(arguments := item.arguments + call.arguments)])
    ensures (forall k :: ToolHeld(g, calls + [call], k)) && ToolsInOrder(g, calls + [call])
  {
    hide Mentions, ArgumentsIn, NameIn, Itoa, FirstCall;
    forall k
      ensures ToolHeld(g, calls + [call], k)
    {
      assert ToolHeld(h, calls, k);
      if k == call.index {
        CallsPush(calls, call, k);
      } else {
        if k in h.tools {
          PlacesDiffer(h, calls, k, call.index);
        }
        OtherToolKept(h, g, calls, call, k);
      }
    }
    SameOrderKept(h, calls, call);
  }
}
