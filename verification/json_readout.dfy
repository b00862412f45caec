/**
 What the bytes read so far say about usage and terminal kind, read off the partial tree, and how
 each operation of the machine changes it. A value in progress already supersedes an earlier one
 at the same key when it is structural, and only once complete when it is a counter.
 */
module JsonReadout {
  import opened Wrappers
  import opened Bytes
  import opened JsonText
  import opened JsonMachine
  import opened JsonSoundness

  /** The frame is an object whose value for that key is in progress. */
  predicate Holds(f: Frame, name: bytes) {
    f.slot.Filling? && f.slot.head.Keyed? && Spells(f.slot.head.key, name)
  }

  function CountsSoFar(stack: seq<Frame>): Usage
    requires |stack| > 2
  {
    var u := CountsIn(stack[2].entries);
    if !Holds(stack[2], INPUT_TOKENS_DETAILS) then u
    else if |stack| > 3 && stack[3].kind == Object then u.(promptTokensDetails := DetailsIn(stack[3].entries))
    else u.(promptTokensDetails := None)
  }

  function ResponseSoFar(stack: seq<Frame>): Usage
    requires |stack| > 1
  {
    if !Holds(stack[1], USAGE) then UsageInResponse(stack[1].entries)
    else if |stack| > 2 && stack[2].kind == Object then CountsSoFar(stack)
    else NO_USAGE
  }

  function RootSoFar(stack: seq<Frame>): Usage
    requires |stack| > 0
  {
    if stack[0].kind != Object then NO_USAGE
    else if !Holds(stack[0], RESPONSE) then UsageInRoot(stack[0].entries)
    else if |stack| > 1 && stack[1].kind == Object then ResponseSoFar(stack)
    else NO_USAGE
  }

  function UsageSoFar(s: State): Usage
    requires s.Live?
  {
    if s.stack != [] then RootSoFar(s.stack)
    else if s.base.Done? then UsageOf(s.base.value)
    else NO_USAGE
  }

  function TerminalSoFar(s: State): Terminal
    requires s.Live?
  {
    if s.stack == [] then (if s.base.Done? then TerminalOf(s.base.value) else NotTerminal)
    else if s.stack[0].kind != Object then NotTerminal
    else if Holds(s.stack[0], TYPE) && (|s.stack| > 1 || s.token.InNumber? || s.token.InWord?) then NotTerminal
    else TerminalIn(s.stack[0].entries)
  }

  /** What starting a value at a place does to the usage known so far. */
  function Superseded(u: Usage, p: Place): Usage {
    if p == Response || p == UsageObject then NO_USAGE
    else if p == Details then u.(promptTokensDetails := None)
    else u
  }

  /** What a counter value does to the usage known so far. */
  function Recorded(u: Usage, key: seq<Piece>, n: int): Usage {
    if Spells(key, INPUT_TOKENS) then u.(inputTokens := n, promptTokens := n)
    else if Spells(key, OUTPUT_TOKENS) then u.(outputTokens := n, completionTokens := n)
    else if Spells(key, TOTAL_TOKENS) then u.(totalTokens := n)
    else u.(promptTokensDetails := Some(TokensDetails(n)))
  }

  lemma NamesDiffer()
    ensures |RESPONSE| == 8 && |USAGE| == 5 && |INPUT_TOKENS| == 12 && |OUTPUT_TOKENS| == 13 && |TOTAL_TOKENS| == 12
    ensures |INPUT_TOKENS_DETAILS| == 20 && |CACHED_TOKENS| == 13 && |TYPE| == 4
    ensures INPUT_TOKENS != TOTAL_TOKENS && OUTPUT_TOKENS != CACHED_TOKENS
  {
    assert INPUT_TOKENS[0] != TOTAL_TOKENS[0];
    assert OUTPUT_TOKENS[0] != CACHED_TOKENS[0];
  }

  lemma LookupPush(es: seq<Entry>, e: Entry, name: bytes)
    ensures Lookup(es + [e], name) == if HasKey(e, name) then Some(e.value) else Lookup(es, name)
  {
    assert (es + [e])[..|es|] == es;
  }

  /** Places are tied to levels: a place is what the keys of the frames below it spell. */
  lemma PlacesByLevel(stack: seq<Frame>)
    requires StackOk(stack) && stack != []
    ensures var n := |stack| - 1; var p := stack[n].place;
      && (p == Root <==> n == 0)
      && (p == Response <==> n == 1 && Holds(stack[0], RESPONSE))
      && (p == UsageObject <==> n == 2 && Holds(stack[0], RESPONSE) && Holds(stack[1], USAGE))
      && (p == Details <==>
        n == 3 && Holds(stack[0], RESPONSE) && Holds(stack[1], USAGE) && Holds(stack[2], INPUT_TOKENS_DETAILS))
  {
    NamesDiffer();
    var n := |stack| - 1;
    if n > 0 {
      var below := stack[..n];
      assert StackOk(below);
      PlacesByLevel(below);
      assert stack[n].place == PlaceUnder(stack[n - 1].place, stack[n - 1].slot.head);
    }
  }

  /** Only the four outermost frames matter. */
  lemma UsageIsOuter(a: seq<Frame>, b: seq<Frame>)
    requires |a| >= 4 && |b| >= 4 && a[..4] == b[..4]
    ensures RootSoFar(a) == RootSoFar(b)
  {
    assert forall i :: 0 <= i < 4 ==> a[i] == a[..4][i] && b[i] == b[..4][i];
  }

  /** Moving between slots where no value is in progress. */
  lemma MoveReads(s: State, slot: Slot, token: Token)
    requires s.Live? && s.stack != [] && !Top(s).slot.Filling? && !slot.Filling?
    ensures UsageSoFar(MoveTo(s, slot, token)) == UsageSoFar(s)
    ensures TerminalSoFar(MoveTo(s, slot, token)) == TerminalSoFar(s)
  {
    var a, b := s.stack, MoveTo(s, slot, token).stack;
    if |a| > 4 { UsageIsOuter(a, b); }
  }

  /** The innermost frame's slot turns to filling under `head`. */
  lemma FillReads(a: seq<Frame>, b: seq<Frame>)
    requires StackOk(a) && a != [] && |b| == |a| && b[..|a| - 1] == a[..|a| - 1]
    requires var n := |a| - 1; !a[n].slot.Filling? && b[n].slot.Filling? && b[n] == a[n].(slot := b[n].slot)
                               && HeadOk(a[n].kind, b[n].slot.head)
    ensures var n := |a| - 1; RootSoFar(b) == Superseded(RootSoFar(a), PlaceUnder(a[n].place, b[n].slot.head))
  {
    hide Lookup, Spells, UsageInRoot, UsageInResponse, CountsIn, DetailsIn;
    var n := |a| - 1;
    PlacesByLevel(a);
    assert forall i :: 0 <= i < n ==> a[i] == a[..n][i] && b[i] == b[..n][i];
    if n == 0 {
    } else if n == 1 {
    } else if n == 2 {
      ExclusiveKeys(b[2].slot.head);
    } else if n > 3 {
      assert a[..4] == b[..4];
      UsageIsOuter(a, b);
    }
  }

  lemma ExclusiveKeys(h: Head)
    ensures h.Keyed? && Spells(h.key, INPUT_TOKENS_DETAILS) ==>
      !Spells(h.key, INPUT_TOKENS) && !Spells(h.key, OUTPUT_TOKENS) && !Spells(h.key, TOTAL_TOKENS)
  {
    NamesDiffer();
  }

  lemma StartReads(s: State)
    requires Inv(s) && s.Live? && s.token.Idle? && StartValue(s).Live?
    ensures var t := StartValue(s);
      UsageSoFar(t) == Superseded(UsageSoFar(s), ValuePlace(t)) && TerminalSoFar(t) == TerminalSoFar(s)
  {
    hide RootSoFar, PlaceUnder, TerminalIn, TerminalOf, UsageOf, Superseded;
    var a, b := s.stack, StartValue(s).stack;
    if a == [] {
      NothingSuperseded();
    } else {
      StartValueSound(s);
      assert FrameOk(b[|b| - 1], |b|);
      FillReads(a, b);
    }
  }

  lemma NothingSuperseded()
    ensures Superseded(NO_USAGE, Root) == NO_USAGE
  {
  }

  lemma NothingLookedUp()
    ensures CountsIn([]) == NO_USAGE && DetailsIn([]) == None
    ensures UsageInResponse([]) == NO_USAGE && UsageInRoot([]) == NO_USAGE
    ensures TerminalIn([]) == NotTerminal
  {
  }

  /** A container opens in the position being filled. */
  lemma PushReads(a: seq<Frame>, f: Frame)
    requires a != [] && a[|a| - 1].slot.Filling? && f.entries == [] && f.slot.Between?
    ensures RootSoFar(a + [f]) == RootSoFar(a)
  {
    hide Lookup, CountOf, Spells, DetailsIn, UsageInResponse, CountsIn;
    NothingLookedUp();
    var b := a + [f];
    assert forall i :: 0 <= i < |a| ==> b[i] == a[i];
    if |a| >= 4 {
      assert a[..4] == b[..4];
      UsageIsOuter(a, b);
    }
  }

  lemma CountersLookup(es: seq<Entry>, e: Entry)
    requires e.head.Keyed?
    ensures CountsIn(es).inputTokens == CountsIn(es).promptTokens
    ensures CountsIn(es).outputTokens == CountsIn(es).completionTokens
    ensures var k := e.head.key; var u, w := CountsIn(es), CountsIn(es + [e]);
      && w.inputTokens == w.promptTokens == (if Spells(k, INPUT_TOKENS) then CountOf(Some(e.value)) else u.inputTokens)
      && w.outputTokens == w.completionTokens ==
        (if Spells(k, OUTPUT_TOKENS) then CountOf(Some(e.value)) else u.outputTokens)
      && w.totalTokens == (if Spells(k, TOTAL_TOKENS) then CountOf(Some(e.value)) else u.totalTokens)
      && w.promptTokensDetails ==
           (if !Spells(k, INPUT_TOKENS_DETAILS) then u.promptTokensDetails
            else if IsObject(Some(e.value)) then DetailsIn(e.value.entries) else None)
  {
    LookupPush(es, e, INPUT_TOKENS);
    LookupPush(es, e, OUTPUT_TOKENS);
    LookupPush(es, e, TOTAL_TOKENS);
    LookupPush(es, e, INPUT_TOKENS_DETAILS);
  }

  lemma UpperLookups(es: seq<Entry>, e: Entry)
    ensures UsageInRoot(es + [e]) ==
      (if !HasKey(e, RESPONSE) then UsageInRoot(es)
       else if IsObject(Some(e.value)) then UsageInResponse(e.value.entries) else NO_USAGE)
    ensures UsageInResponse(es + [e]) ==
      (if !HasKey(e, USAGE) then UsageInResponse(es)
       else if IsObject(Some(e.value)) then CountsIn(e.value.entries) else NO_USAGE)
    ensures DetailsIn(es + [e]) ==
      (if HasKey(e, CACHED_TOKENS) then Some(TokensDetails(CountOf(Some(e.value)))) else DetailsIn(es))
    ensures TerminalIn(es + [e]) ==
      (if !HasKey(e, TYPE) then TerminalIn(es)
       else if e.value.Str? then TerminalOfString(e.value.text) else NotTerminal)
  {
    LookupPush(es, e, RESPONSE);
    LookupPush(es, e, USAGE);
    LookupPush(es, e, CACHED_TOKENS);
    LookupPush(es, e, TYPE);
  }

  /** The frame with the value being filled put into it. */
  function Plugged(f: Frame, v: Json): Frame
    requires f.slot.Filling?
  {
    Frame(f.kind, f.place, f.entries + [Entry(f.slot.gap, f.slot.head, f.slot.lead, v)], Between)
  }

  /** A scalar is put into the innermost frame. */
  lemma PlugScalarReads(a: seq<Frame>, v: Json)
    requires StackOk(a) && a != [] && a[|a| - 1].slot.Filling? && !v.Node?
    requires var f := a[|a| - 1]; PlaceUnder(f.place, f.slot.head) == Counter ==> IsCount(v)
    ensures var n := |a| - 1; var f := a[n];
      RootSoFar(a[..n] + [Plugged(f, v)]) ==
        if PlaceUnder(f.place, f.slot.head) == Counter then
          Recorded(RootSoFar(a), f.slot.head.key, Decimal(v.number.whole))
        else RootSoFar(a)
  {
    hide Lookup, Spells, UsageInRoot, UsageInResponse, CountsIn, DetailsIn, TerminalIn;
    var n := |a| - 1;
    var f := a[n];
    var b := a[..n] + [Plugged(f, v)];
    var e := Entry(f.slot.gap, f.slot.head, f.slot.lead, v);
    assert forall i :: 0 <= i < n ==> b[i] == a[i];
    PlacesByLevel(a);
    ExclusiveKeys(f.slot.head);
    ExclusiveCounters(f.slot.head);
    if n <= 1 {
      UpperLookups(f.entries, e);
    } else if n == 2 {
      if f.slot.head.Keyed? { CountersLookup(f.entries, e); }
      else { BareKeepsCounts(f.entries, e); }
    } else if n == 3 {
      UpperLookups(f.entries, e);
    } else {
      assert a[..4] == b[..4];
      UsageIsOuter(a, b);
    }
  }

  lemma BareKeepsCounts(es: seq<Entry>, e: Entry)
    requires e.head.Bare?
    ensures CountsIn(es + [e]) == CountsIn(es)
  {
    LookupPush(es, e, INPUT_TOKENS);
    LookupPush(es, e, OUTPUT_TOKENS);
    LookupPush(es, e, TOTAL_TOKENS);
    LookupPush(es, e, INPUT_TOKENS_DETAILS);
  }

  lemma ExclusiveCounters(h: Head)
    ensures h.Keyed? && Spells(h.key, INPUT_TOKENS) ==> !Spells(h.key, OUTPUT_TOKENS) && !Spells(h.key, TOTAL_TOKENS)
    ensures h.Keyed? && Spells(h.key, OUTPUT_TOKENS) ==> !Spells(h.key, INPUT_TOKENS) && !Spells(h.key, TOTAL_TOKENS)
    ensures h.Keyed? && Spells(h.key, CACHED_TOKENS) ==>
      !Spells(h.key, INPUT_TOKENS) && !Spells(h.key, OUTPUT_TOKENS) && !Spells(h.key, TOTAL_TOKENS)
  {
    NamesDiffer();
  }

  /** The frames after the innermost container closed into the frame below it. */
  function Popped(a: seq<Frame>, close: bytes): seq<Frame>
    requires |a| > 1 && a[|a| - 2].slot.Filling?
  {
    var n := |a| - 2;
    a[..n] + [Plugged(a[n], Node(a[n + 1].kind, a[n + 1].entries, close))]
  }

  lemma PopCounters(a: seq<Frame>, close: bytes)
    requires StackOk(a) && |a| == 4 && a[3].slot.Between?
    ensures RootSoFar(Popped(a, close)) == RootSoFar(a)
  {
    hide Lookup, Spells, UsageInRoot, UsageInResponse, CountsIn, DetailsIn, TerminalIn, CountOf;
    var f, g := a[2], a[3];
    var e := Entry(f.slot.gap, f.slot.head, f.slot.lead, Node(g.kind, g.entries, close));
    PlacesByLevel(a[..3]);
    PlacesByLevel(a);
    assert FrameOk(g, 4) && g.place != Counter;
    ExclusiveKeys(f.slot.head);
    if f.slot.head.Keyed? { CountersLookup(f.entries, e); }
    else { BareKeepsCounts(f.entries, e); }
  }

  lemma PopUpper(a: seq<Frame>, close: bytes)
    requires StackOk(a) && 1 < |a| <= 5 && |a| != 4 && a[|a| - 1].slot.Between?
    ensures RootSoFar(Popped(a, close)) == RootSoFar(a)
  {
    hide Lookup, Spells, UsageInRoot, UsageInResponse, CountsIn, DetailsIn, TerminalIn, CountOf;
    var n := |a| - 2;
    var f, g := a[n], a[n + 1];
    PlacesByLevel(a[..n + 1]);
    PlacesByLevel(a);
    assert FrameOk(g, n + 2) && g.place != Counter;
    UpperLookups(f.entries, Entry(f.slot.gap, f.slot.head, f.slot.lead, Node(g.kind, g.entries, close)));
  }

  /** The innermost container closes into the frame below it. */
  lemma PopReads(a: seq<Frame>, close: bytes)
    requires StackOk(a) && |a| > 1 && a[|a| - 1].slot.Between?
    ensures RootSoFar(Popped(a, close)) == RootSoFar(a)
  {
    hide RootSoFar;
    if |a| == 4 {
      PopCounters(a, close);
    } else if |a| <= 5 {
      PopUpper(a, close);
    } else {
      assert a[..4] == Popped(a, close)[..4];
      UsageIsOuter(a, Popped(a, close));
    }
  }

  // ---- The operations of the machine ----

  /** The value being filled is the root `type`. */
  predicate FillsType(s: State) {
    s.Live? && |s.stack| == 1 && Top(s).kind == Object && Holds(Top(s), TYPE)
  }

  /** A number or word starts: only the terminal kind may change. */
  lemma TokenReads(t: State, token: Token)
    requires t.Live?
    ensures UsageSoFar(t.(token := token)) == UsageSoFar(t)
    ensures t.token.Idle? && (token.InNumber? || token.InWord?) ==>
      TerminalSoFar(t.(token := token)) == if FillsType(t) then NotTerminal else TerminalSoFar(t)
    ensures t.token.Idle? && !token.InNumber? && !token.InWord? ==>
      TerminalSoFar(t.(token := token)) == TerminalSoFar(t)
  {
  }

  lemma EnterReads(s: State, kind: Kind)
    requires Inv(s) && s.Live? && s.token.Idle? && Enter(s, kind).Live?
    ensures var t := StartValue(s);
      && UsageSoFar(Enter(s, kind)) == UsageSoFar(t)
      && TerminalSoFar(Enter(s, kind)) == if FillsType(t) then NotTerminal else TerminalSoFar(t)
  {
    hide RootSoFar;
    var t := StartValue(s);
    var f := Frame(kind, ValuePlace(t), [], Between);
    StartValueSound(s);
    NothingLookedUp();
    if t.stack == [] {
      assert [] + [f] == [f];
      RootFrameReads(f);
    } else {
      PushReads(t.stack, f);
    }
  }

  lemma RootFrameReads(f: Frame)
    requires f.entries == [] && f.slot.Between?
    ensures RootSoFar([f]) == NO_USAGE
  {
    NothingLookedUp();
  }

  lemma PlugReads(s: State, v: Json)
    requires Inv(s) && Awaiting(s) && !v.Node? && PlugScalar(s, v).Live?
    ensures UsageSoFar(PlugScalar(s, v)) ==
      if ValuePlace(s) == Counter then Recorded(UsageSoFar(s), Top(s).slot.head.key, Decimal(v.number.whole))
        else UsageSoFar(s)
    ensures TerminalSoFar(PlugScalar(s, v)) ==
      if !FillsType(s) then TerminalSoFar(s) else if v.Str? then TerminalOfString(v.text) else NotTerminal
  {
    hide RootSoFar, PlaceUnder, TerminalIn, Recorded, Spells;
    if s.stack != [] {
      var f := Top(s);
      PlugScalarReads(s.stack, v);
      UpperLookups(f.entries, Entry(f.slot.gap, f.slot.head, f.slot.lead, v));
    }
  }

  lemma LeaveReads(s: State, kind: Kind)
    requires Inv(s) && s.Live? && s.token.Idle? && Leave(s, kind).Live?
    ensures UsageSoFar(Leave(s, kind)) == UsageSoFar(s) && TerminalSoFar(Leave(s, kind)) == TerminalSoFar(s)
  {
    var n := |s.stack| - 2;
    if n < 0 {
    } else {
      hide RootSoFar, PlaceUnder, TerminalIn, Spells;
      PopReads(s.stack, s.token.ws);
      assert Rest(s)[..n] == s.stack[..n] && Rest(s)[n] == s.stack[n];
      var f := s.stack[n];
      UpperLookups(f.entries, Entry(f.slot.gap, f.slot.head, f.slot.lead, Node(kind, Top(s).entries, s.token.ws)));
    }
  }
}
