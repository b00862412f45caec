/**
 A client of the stream, on the documented contract or in compatibility mode: it builds the output
 items from the added, delta and done frames, and refuses a stream as soon as a frame does not fit
 what it has built.
 */
module ResponsesClient {
  import opened Wrappers
  import opened ResponsesProtocol

  /**
   An item as the client has it, whether its done frame has come, and how many done frames for its
   texts, parts and arguments came before.
   */
  datatype Shown = Shown(item: Item, done: bool, told: nat)

  type View = seq<Shown>

  /** How an item is announced: in progress and without content. */
  predicate Blank(item: Item) {
    match item
    case Vacant => false
    case Reasoning(_, status, summary) => status == InProgress && summary == []
    case Message(_, status, parts) => status == InProgress && parts == []
    case FunctionCall(_, _, status, _, arguments) => status == InProgress && arguments == ""
  }

  /** Compatibility mode has no summary part frames: an announced reasoning item starts with an empty summary. */
  function Announced(documented: bool, item: Item): Item {
    if !documented && item.Reasoning? then item.(summary := [""]) else item
  }

  predicate OpenAt(view: View, n: nat, id: string) {
    n < |view| && !view[n].done && !view[n].item.Vacant? && view[n].item.id == id
  }

  predicate ThinkingAt(view: View, n: nat, id: string) {
    OpenAt(view, n, id) && view[n].item.Reasoning?
  }

  predicate MessageAt(view: View, n: nat, id: string) {
    OpenAt(view, n, id) && view[n].item.Message?
  }

  predicate CallAt(view: View, n: nat, id: string) {
    OpenAt(view, n, id) && view[n].item.FunctionCall?
  }

  /** The item is still being told: nothing of it is done. */
  predicate Growing(view: View, n: nat) {
    n < |view| && view[n].told == 0
  }

  function With(view: View, n: nat, item: Item): View
    requires n < |view|
  {
    view[n := Shown(item, false, 0)]
  }

  /** One more done frame for something inside the item. */
  function Tell(view: View, n: nat): View
    requires n < |view|
  {
    view[n := view[n].(told := view[n].told + 1)]
  }

  /** How many done frames an item needs inside before its own. */
  function DoneFrames(documented: bool, item: Item): nat {
    match item
    case Vacant => 0
    case Reasoning(_, _, _) => if documented then 2 else 1
    case Message(_, _, parts) => 2 * |parts|
    case FunctionCall(_, _, _, _, _) => 1
  }

  /** Every item is done and the output lists exactly these items. */
  predicate Confirms(view: View, output: seq<Item>) {
    |output| == |view| && forall i :: 0 <= i < |view| ==> view[i].done && view[i].item == output[i]
  }

  /** One frame. None means the frame contradicts what came before, or comes out of turn. */
  function See(documented: bool, view: View, body: Body): Option<View> {
    match body
    case Snapshot(envelope, output) =>
      if envelope == ResponseFailed then Some(view)
      else if IsTerminal(envelope) then (if Confirms(view, output) then Some(view) else None)
      else if view == [] && output == [] then Some(view)
      else None
    case ItemAdded(n, item) =>
      if n == |view| && Blank(item) then Some(view + [Shown(Announced(documented, item), false, 0)]) else None
    case ItemDone(n, item) =>
      if !item.Vacant? && OpenAt(view, n, item.id) && item.status != InProgress
        && WithStatus(view[n].item, item.status) == item && view[n].told == DoneFrames(documented, view[n].item)
      then Some(view[n := Shown(item, true, view[n].told)]) else None
    case SummaryPartAdded(id, n) =>
      if documented && ThinkingAt(view, n, id) && Growing(view, n) && view[n].item.summary == []
      then Some(With(view, n, view[n].item.(summary := [""]))) else None
    case SummaryTextDelta(id, n, delta) =>
      if ThinkingAt(view, n, id) && Growing(view, n) && |view[n].item.summary| == 1
      then Some(With(view, n, view[n].item.(summary := [view[n].item.summary[0] + delta]))) else None
    case SummaryTextDone(id, n, text) =>
      if ThinkingAt(view, n, id) && view[n].item.summary == [text] && view[n].told == 0 then
        Some(Tell(view, n)) else None
    case SummaryPartDone(id, n, text) =>
      if documented && ThinkingAt(view, n, id) && view[n].item.summary == [text] && view[n].told == 1
      then Some(Tell(view, n)) else None
    case PartAdded(id, n, contentIndex, part) =>
      if MessageAt(view, n, id) && Growing(view, n) && contentIndex == |view[n].item.parts| && part.text == ""
      then Some(With(view, n, view[n].item.(parts := view[n].item.parts + [part]))) else None
    case PartDelta(id, n, contentIndex, kind, delta) =>
      if MessageAt(view, n, id) && Growing(view, n)
        && contentIndex + 1 == |view[n].item.parts| && EndsWithKind(view[n].item.parts, kind)
      then Some(With(view, n, view[n].item.(parts := AppendToLast(view[n].item.parts, delta)))) else None
    case PartTextDone(id, n, contentIndex, kind, text) =>
      if MessageAt(view, n, id) && view[n].told == 2 * contentIndex && contentIndex < |view[n].item.parts|
        && view[n].item.parts[contentIndex] == Part(kind, text)
      then Some(Tell(view, n)) else None
    case PartDone(id, n, contentIndex, part) =>
      if MessageAt(view, n, id) && view[n].told == 2 * contentIndex + 1 && contentIndex < |view[n].item.parts|
        && view[n].item.parts[contentIndex] == part
      then Some(Tell(view, n)) else None
    case ArgumentsDelta(id, n, delta) =>
      if CallAt(view, n, id) && Growing(view, n)
      then Some(With(view, n, view[n].item.(arguments := view[n].item.arguments + delta))) else None
    case ArgumentsDone(id, n, name, arguments) =>
      if CallAt(view, n, id) && Growing(view, n) && view[n].item.arguments == arguments
      then Some(Tell(With(view, n, view[n].item.(name := name)), n)) else None
  }

  /** A whole stream. */
  function Follow(documented: bool, frames: seq<Frame>): Option<View> {
    if frames == [] then Some([])
    else
      var before := Follow(documented, frames[..|frames| - 1]);
      if before.None? then None else See(documented, before.value, frames[|frames| - 1].body)
  }

  // ---- What a followed stream means ----

  /** How many of the frames announce position n, and how many complete it. */
  function Added(frames: seq<Frame>, n: nat): nat {
    if frames == [] then 0
    else
      var body := frames[|frames| - 1].body;
      Added(frames[..|frames| - 1], n) + if body.ItemAdded? && body.index == n then 1 else 0
  }

  function Finished(frames: seq<Frame>, n: nat): nat {
    if frames == [] then 0
    else
      var body := frames[|frames| - 1].body;
      Finished(frames[..|frames| - 1], n) + if body.ItemDone? && body.index == n then 1 else 0
  }

  /** In a stream a client could follow, each item was announced once and completed at most once. */
  lemma {:induction false} AnnouncedOnce(documented: bool, frames: seq<Frame>, n: nat)
    requires Follow(documented, frames).Some?
    ensures Added(frames, n) == if n < |Follow(documented, frames).value| then 1 else 0
    ensures Finished(frames, n) == if n < |Follow(documented, frames).value|
      && Follow(documented, frames).value[n].done then 1 else 0
  {
    if frames != [] {
      AnnouncedOnce(documented, frames[..|frames| - 1], n);
    }
  }

  // ---- Concatenated deltas ----

  /** The summary deltas of position n, joined. */
  function SummaryDeltas(frames: seq<Frame>, n: nat): string {
    if frames == [] then ""
    else
      var body := frames[|frames| - 1].body;
      SummaryDeltas(frames[..|frames| - 1], n) + if body.SummaryTextDelta? && body.index == n then body.delta else ""
  }

  function ArgumentDeltas(frames: seq<Frame>, n: nat): string {
    if frames == [] then ""
    else
      var body := frames[|frames| - 1].body;
      ArgumentDeltas(frames[..|frames| - 1], n) + if body.ArgumentsDelta? && body.index == n then body.delta else ""
  }

  function PartDeltas(frames: seq<Frame>, n: nat, contentIndex: nat): string {
    if frames == [] then ""
    else
      var body := frames[|frames| - 1].body;
      PartDeltas(frames[..|frames| - 1], n, contentIndex)
      + if body.PartDelta? && body.index == n && body.contentIndex == contentIndex then body.delta else ""
  }

  function SummaryOf(view: View, n: nat): string {
    if n < |view| && view[n].item.Reasoning? && view[n].item.summary != [] then view[n].item.summary[0] else ""
  }

  function ArgumentsOf(view: View, n: nat): string {
    if n < |view| && view[n].item.FunctionCall? then view[n].item.arguments else ""
  }

  function PartTextOf(view: View, n: nat, k: nat): string {
    if n < |view| && view[n].item.Message? && k < |view[n].item.parts| then view[n].item.parts[k].text else ""
  }

  lemma SummaryStep(documented: bool, view: View, body: Body, n: nat)
    requires See(documented, view, body).Some?
    ensures SummaryOf(See(documented, view, body).value, n) ==
      SummaryOf(view, n) + if body.SummaryTextDelta? && body.index == n then body.delta else ""
  {
    assert SummaryOf(view, n) + "" == SummaryOf(view, n);
  }

  lemma ArgumentsStep(documented: bool, view: View, body: Body, n: nat)
    requires See(documented, view, body).Some?
    ensures ArgumentsOf(See(documented, view, body).value, n) ==
      ArgumentsOf(view, n) + if body.ArgumentsDelta? && body.index == n then body.delta else ""
  {
    assert ArgumentsOf(view, n) + "" == ArgumentsOf(view, n);
  }

  lemma PartDeltaStep(documented: bool, view: View, body: Body, n: nat, k: nat)
    requires body.PartDelta? && See(documented, view, body).Some?
    ensures PartTextOf(See(documented, view, body).value, n, k) ==
      PartTextOf(view, n, k) + if body.index == n && body.contentIndex == k then body.delta else ""
  {
    assert PartTextOf(view, n, k) + "" == PartTextOf(view, n, k);
  }

  lemma PartAddedStep(documented: bool, view: View, body: Body, n: nat, k: nat)
    requires body.PartAdded? && See(documented, view, body).Some?
    ensures PartTextOf(See(documented, view, body).value, n, k) == PartTextOf(view, n, k)
  {
  }

  /** No other frame touches the parts of a message. */
  lemma PartsKept(documented: bool, view: View, body: Body, n: nat)
    requires !body.PartDelta? && !body.PartAdded? && See(documented, view, body).Some?
    ensures
      var r := See(documented, view, body).value;
      && |r| >= |view|
      && (n < |r| && r[n].item.Message? ==> if n < |view| then
        view[n].item.Message? && view[n].item.parts == r[n].item.parts else r[n].item.parts == [])
      && (n < |view| && view[n].item.Message? ==> r[n].item.Message?)
  {
  }

  lemma PartTextStep(documented: bool, view: View, body: Body, n: nat, k: nat)
    requires See(documented, view, body).Some?
    ensures PartTextOf(See(documented, view, body).value, n, k)
         == PartTextOf(view, n, k) + if body.PartDelta? && body.index == n && body.contentIndex == k then
           body.delta else ""
  {
    hide See;
    assert PartTextOf(view, n, k) + "" == PartTextOf(view, n, k);
    if body.PartDelta? {
      PartDeltaStep(documented, view, body, n, k);
    } else if body.PartAdded? {
      PartAddedStep(documented, view, body, n, k);
    } else {
      PartsKept(documented, view, body, n);
    }
  }

  /** In a stream a client could follow, every text is its deltas, joined in the order they came. */
  lemma {:induction false} TextsAreDeltas(documented: bool, frames: seq<Frame>, n: nat, k: nat)
    requires Follow(documented, frames).Some?
    ensures SummaryOf(Follow(documented, frames).value, n) == SummaryDeltas(frames, n)
    ensures ArgumentsOf(Follow(documented, frames).value, n) == ArgumentDeltas(frames, n)
    ensures PartTextOf(Follow(documented, frames).value, n, k) == PartDeltas(frames, n, k)
  {
    if frames != [] {
      hide See, SummaryOf, ArgumentsOf, PartTextOf;
      var rest, body := frames[..|frames| - 1], frames[|frames| - 1].body;
      TextsAreDeltas(documented, rest, n, k);
      SummaryStep(documented, Follow(documented, rest).value, body, n);
      ArgumentsStep(documented, Follow(documented, rest).value, body, n);
      PartTextStep(documented, Follow(documented, rest).value, body, n, k);
    } else {
      NothingShown(n, k);
    }
  }

  lemma NothingShown(n: nat, k: nat)
    ensures SummaryOf([], n) == "" && ArgumentsOf([], n) == "" && PartTextOf([], n, k) == ""
  {
  }
}
