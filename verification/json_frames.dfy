/**
 The streaming parser's frame stack and how it stands for the machine's stack of partial containers:
 a frame keeps two keys and two states where the machine keeps the whole partial container.
 */
module JsonFrames {
  import opened Wrappers
  import opened Bytes
  import opened JsonText
  import opened JsonMachine
  import opened JsonSoundness
  import opened JsonReadout

  datatype UsageKey =
    | NoKey | KeyResponse | KeyUsage | KeyInputTokens | KeyOutputTokens
    | KeyTotalTokens | KeyInputTokensDetails | KeyCachedTokens | KeyType

  function KeyFor(value: bytes): UsageKey {
    if value == RESPONSE then KeyResponse
    else if value == USAGE then KeyUsage
    else if value == INPUT_TOKENS then KeyInputTokens
    else if value == OUTPUT_TOKENS then KeyOutputTokens
    else if value == TOTAL_TOKENS then KeyTotalTokens
    else if value == INPUT_TOKENS_DETAILS then KeyInputTokensDetails
    else if value == CACHED_TOKENS then KeyCachedTokens
    else if value == TYPE then KeyType
    else NoKey
  }

  datatype ObjectState = KeyOrEnd | KeyNext | ColonNext | ValueNext | CommaOrEnd

  datatype ArrayState = ItemOrEnd | ItemNext | ItemCommaOrEnd

  datatype JsonFrame = JsonFrame(
    container: Kind,
    pathKey: UsageKey,
    currentKey: UsageKey,
    objectState: ObjectState,
    arrayState: ArrayState)

  const ZERO_FRAME: JsonFrame := JsonFrame(Object, NoKey, NoKey, KeyOrEnd, ItemOrEnd)

  /** The open frames, outermost first. */
  type Path = seq<JsonFrame>

  predicate CanClose(f: JsonFrame) {
    if f.container == Object then f.objectState == KeyOrEnd || f.objectState == CommaOrEnd
    else f.arrayState == ItemOrEnd || f.arrayState == ItemCommaOrEnd
  }

  predicate ExpectsKeyIn(p: Path) {
    && p != [] && p[|p| - 1].container == Object
    && (p[|p| - 1].objectState == KeyOrEnd || p[|p| - 1].objectState == KeyNext)
  }

  predicate IsObjectAt(f: JsonFrame, key: UsageKey) {
    f.container == Object && f.pathKey == key
  }

  predicate InUsageObject(p: Path) {
    |p| >= 3 && IsObjectAt(p[0], NoKey) && IsObjectAt(p[1], KeyResponse) && IsObjectAt(p[2], KeyUsage)
  }

  predicate IsRootType(p: Path) {
    |p| == 1 && p[0].container == Object && p[0].currentKey == KeyType
  }

  predicate IsResponseValue(p: Path) {
    |p| == 1 && IsObjectAt(p[0], NoKey) && p[0].currentKey == KeyResponse
  }

  predicate IsUsageValue(p: Path) {
    |p| == 2 && IsObjectAt(p[0], NoKey) && IsObjectAt(p[1], KeyResponse) && p[1].currentKey == KeyUsage
  }

  predicate IsDetailsValue(p: Path) {
    |p| == 3 && InUsageObject(p) && p[2].currentKey == KeyInputTokensDetails
  }

  predicate IsCounterValue(p: Path) {
    || (|p| == 3 && InUsageObject(p)
        && (p[2].currentKey == KeyInputTokens || p[2].currentKey == KeyOutputTokens
          || p[2].currentKey == KeyTotalTokens))
    || (|p| == 4 && InUsageObject(p) && IsObjectAt(p[3], KeyInputTokensDetails) && p[3].currentKey == KeyCachedTokens)
  }

  /** The innermost frame once a value has started in it, if one may start there. */
  function Started(f: JsonFrame): Option<JsonFrame> {
    if f.container == Object && f.objectState == ValueNext then Some(f.(objectState := CommaOrEnd))
    else if f.container == Array && (f.arrayState == ItemOrEnd || f.arrayState == ItemNext) then
      Some(f.(arrayState := ItemCommaOrEnd))
    else None
  }

  // ---- What the frames stand for ----

  function KeyOf(ps: seq<Piece>): UsageKey {
    if HasEscape(ps) then NoKey else KeyFor(PlainBytes(ps))
  }

  function ObjectStateOf(f: Frame): ObjectState {
    match f.slot
    case Between => if f.entries == [] then KeyOrEnd else CommaOrEnd
    case AfterComma(_) => KeyNext
    case AfterKey(_, _, _) => ColonNext
    case AfterColon(_, _, _, _) => ValueNext
    case Filling(_, _, _) => CommaOrEnd
  }

  function ArrayStateOf(f: Frame): ArrayState {
    match f.slot
    case Between => if f.entries == [] then ItemOrEnd else ItemCommaOrEnd
    case AfterComma(_) => ItemNext
    case _ => ItemCommaOrEnd
  }

  function FillingKey(f: Frame): UsageKey {
    if f.slot.Filling? && f.slot.head.Keyed? then KeyOf(f.slot.head.key) else NoKey
  }

  /** The key whose value comes next or is in progress; `covered` says the value is an open container. */
  function CurrentKeyOf(f: Frame, covered: bool): UsageKey {
    match f.slot
    case AfterKey(_, _, key) => KeyOf(key)
    case AfterColon(_, _, key, _) => KeyOf(key)
    case Filling(_, _, _) => if covered then NoKey else FillingKey(f)
    case _ => NoKey
  }

  predicate FrameMatches(c: JsonFrame, f: Frame, covered: bool, pathKey: UsageKey) {
    && c.container == f.kind
    && (f.kind == Object ==> c.objectState == ObjectStateOf(f))
    && (f.kind == Array ==> c.arrayState == ArrayStateOf(f))
    && c.currentKey == CurrentKeyOf(f, covered)
    && c.pathKey == pathKey
  }

  function PathKeyAt(stack: seq<Frame>, i: nat): UsageKey
    requires i < |stack|
  {
    if i == 0 then NoKey else FillingKey(stack[i - 1])
  }

  predicate PathMatches(p: Path, stack: seq<Frame>) {
    |p| == |stack| && forall i :: 0 <= i < |p| ==> FrameMatches(p[i], stack[i], i < |p| - 1, PathKeyAt(stack, i))
  }

  // ---- Keys, places and positions ----

  lemma KeyForName(value: bytes)
    ensures KeyFor(value) == KeyResponse <==> value == RESPONSE
    ensures KeyFor(value) == KeyUsage <==> value == USAGE
    ensures KeyFor(value) == KeyInputTokens <==> value == INPUT_TOKENS
    ensures KeyFor(value) == KeyOutputTokens <==> value == OUTPUT_TOKENS
    ensures KeyFor(value) == KeyTotalTokens <==> value == TOTAL_TOKENS
    ensures KeyFor(value) == KeyInputTokensDetails <==> value == INPUT_TOKENS_DETAILS
    ensures KeyFor(value) == KeyCachedTokens <==> value == CACHED_TOKENS
    ensures KeyFor(value) == KeyType <==> value == TYPE
    ensures |value| > 64 ==> KeyFor(value) == NoKey
  {
    NamesDiffer();
  }

  lemma KeyOfSpells(ps: seq<Piece>)
    ensures KeyOf(ps) == KeyResponse <==> Spells(ps, RESPONSE)
    ensures KeyOf(ps) == KeyUsage <==> Spells(ps, USAGE)
    ensures KeyOf(ps) == KeyInputTokens <==> Spells(ps, INPUT_TOKENS)
    ensures KeyOf(ps) == KeyOutputTokens <==> Spells(ps, OUTPUT_TOKENS)
    ensures KeyOf(ps) == KeyTotalTokens <==> Spells(ps, TOTAL_TOKENS)
    ensures KeyOf(ps) == KeyInputTokensDetails <==> Spells(ps, INPUT_TOKENS_DETAILS)
    ensures KeyOf(ps) == KeyCachedTokens <==> Spells(ps, CACHED_TOKENS)
    ensures KeyOf(ps) == KeyType <==> Spells(ps, TYPE)
  {
    hide KeyFor, HasEscape, PlainBytes;
    KeyForName(PlainBytes(ps));
  }

  lemma FillingHolds(f: Frame)
    ensures FillingKey(f) == KeyResponse <==> Holds(f, RESPONSE)
    ensures FillingKey(f) == KeyUsage <==> Holds(f, USAGE)
    ensures FillingKey(f) == KeyInputTokensDetails <==> Holds(f, INPUT_TOKENS_DETAILS)
  {
    hide KeyOf, Spells;
    if f.slot.Filling? && f.slot.head.Keyed? { KeyOfSpells(f.slot.head.key); }
  }

  /** A frame with a key in hand is an object's. */
  predicate HasInHand(f: Frame, head: Head) {
    match f.slot
    case AfterColon(_, pre, key, mid) => head == Keyed(pre, key, mid)
    case Filling(_, h, _) => head == h
    case _ => head == Bare
  }

  lemma OuterFrames(p: Path, stack: seq<Frame>)
    requires PathMatches(p, stack) && StackOk(stack)
    ensures |p| == |stack|
    ensures |p| > 0 ==> p[0].pathKey == NoKey && p[0].container == stack[0].kind
    ensures |p| > 1 ==> p[0].container == Object || FillingKey(stack[0]) == NoKey
    ensures |p| > 1 ==> p[1].container == stack[1].kind && (p[1].pathKey == KeyResponse <==> Holds(stack[0], RESPONSE))
    ensures |p| > 2 ==> p[1].container == Object || FillingKey(stack[1]) == NoKey
    ensures |p| > 2 ==> p[2].container == stack[2].kind && (p[2].pathKey == KeyUsage <==> Holds(stack[1], USAGE))
    ensures |p| > 3 ==> p[2].container == Object || FillingKey(stack[2]) == NoKey
    ensures |p| > 3 ==>
      p[3].container == stack[3].kind
      && (p[3].pathKey == KeyInputTokensDetails <==> Holds(stack[2], INPUT_TOKENS_DETAILS))
  {
    hide Spells, KeyOf;
    if |p| > 0 {
      assert FrameMatches(p[0], stack[0], 0 < |p| - 1, NoKey) && FrameOk(stack[0], 1);
      FillingHolds(stack[0]);
    }
    if |p| > 1 {
      assert FrameMatches(p[1], stack[1], 1 < |p| - 1, FillingKey(stack[0])) && FrameOk(stack[1], 2);
      FillingHolds(stack[1]);
    }
    if |p| > 2 {
      assert FrameMatches(p[2], stack[2], 2 < |p| - 1, FillingKey(stack[1])) && FrameOk(stack[2], 3);
      FillingHolds(stack[2]);
    }
    if |p| > 3 { assert FrameMatches(p[3], stack[3], 3 < |p| - 1, FillingKey(stack[2])) && FrameOk(stack[3], 4); }
  }

  lemma HoldsKey(f: Frame)
    ensures Holds(f, RESPONSE) || Holds(f, USAGE) || Holds(f, INPUT_TOKENS_DETAILS) ==> FillingKey(f) != NoKey
  {
    FillingHolds(f);
  }

  /** The key in hand is the innermost frame's current key. */
  lemma CurrentKeyInHand(p: Path, stack: seq<Frame>, head: Head)
    requires PathMatches(p, stack) && StackOk(stack) && stack != [] && HasInHand(stack[|stack| - 1], head)
    requires !stack[|stack| - 1].slot.AfterKey?
    ensures var n := |stack| - 1;
      && p[n].container == stack[n].kind
      && p[n].currentKey == (if head.Keyed? then KeyOf(head.key) else NoKey)
      && (head.Keyed? ==> p[n].container == Object)
  {
    var n := |stack| - 1;
    assert FrameMatches(p[n], stack[n], false, PathKeyAt(stack, n)) && FrameOk(stack[n], n + 1);
  }

  /** The frame tests of the parser recognise exactly the places of the grammar. */
  lemma PathPlaces(p: Path, stack: seq<Frame>, head: Head)
    requires PathMatches(p, stack) && StackOk(stack) && stack != [] && HasInHand(stack[|stack| - 1], head)
    requires !stack[|stack| - 1].slot.AfterKey?
    ensures var place := PlaceUnder(stack[|stack| - 1].place, head);
      && (IsResponseValue(p) <==> place == Response)
      && (IsUsageValue(p) <==> place == UsageObject)
      && (IsDetailsValue(p) <==> place == Details)
      && (IsCounterValue(p) <==> place == Counter)
    ensures IsRootType(p) <==> |stack| == 1 && stack[0].kind == Object && head.Keyed? && Spells(head.key, TYPE)
  {
    hide Spells, KeyOf, Holds, FillingKey, PathMatches, StackOk, HasInHand;
    PlacesByLevel(stack);
    OuterFrames(p, stack);
    CurrentKeyInHand(p, stack, head);
    if head.Keyed? { KeyOfSpells(head.key); ExclusiveKeys(head); }
    if |stack| > 0 { HoldsKey(stack[0]); }
    if |stack| > 1 { HoldsKey(stack[1]); }
    if |stack| > 2 { HoldsKey(stack[2]); }
  }

  // ---- Operations ----

  lemma TopMatches(p: Path, stack: seq<Frame>)
    requires PathMatches(p, stack) && StackOk(stack) && stack != []
    ensures |p| == |stack|
    ensures var n := |p| - 1;
      FrameMatches(p[n], stack[n], false, PathKeyAt(stack, n)) && SlotOk(stack[n])
  {
    assert FrameOk(stack[|stack| - 1], |stack|);
  }

  lemma ReplaceTop(p: Path, stack: seq<Frame>, c: JsonFrame, f: Frame)
    requires PathMatches(p, stack) && stack != []
    requires FrameMatches(c, f, false, PathKeyAt(stack, |stack| - 1))
    ensures PathMatches(p[|p| - 1 := c], stack[..|stack| - 1] + [f])
  {
    hide FrameMatches;
    var n := |p| - 1;
    var b := stack[..n] + [f];
    forall i | 0 <= i < |p|
      ensures FrameMatches(p[n := c][i], b[i], i < |p| - 1, PathKeyAt(b, i))
    {
      assert FrameMatches(p[i], stack[i], i < |p| - 1, PathKeyAt(stack, i));
      assert PathKeyAt(b, i) == PathKeyAt(stack, i);
    }
  }

  lemma StartMatches(p: Path, s: State)
    requires Inv(s) && s.Live? && s.token.Idle? && s.stack != [] && PathMatches(p, s.stack)
    ensures var n := |p| - 1;
      && n >= 0 && (StartValue(s).Live? <==> Started(p[n]).Some?)
      && (StartValue(s).Live? ==> PathMatches(p[n := Started(p[n]).value], StartValue(s).stack))
  {
    hide KeyOf, PathMatches;
    TopMatches(p, s.stack);
    if StartValue(s).Live? {
      ReplaceTop(p, s.stack, Started(p[|p| - 1]).value, Top(StartValue(s)));
    }
  }

  lemma EnterMatches(p: Path, t: State, kind: Kind, place: Place)
    requires t.Live? && Awaiting(t) && StackOk(t.stack) && PathMatches(p, t.stack)
    ensures var n := |p| - 1;
      var pathKey := if p == [] then NoKey else p[n].currentKey;
      var under := if p == [] then p else p[n := p[n].(currentKey := NoKey)];
      PathMatches(under + [JsonFrame(kind, pathKey, NoKey, KeyOrEnd, ItemOrEnd)],
        t.stack + [Frame(kind, place, [], Between)])
  {
    hide KeyOf;
    var n := |p| - 1;
    if p != [] {
      assert FrameMatches(p[n], t.stack[n], false, PathKeyAt(t.stack, n)) && FrameOk(t.stack[n], n + 1);
    }
  }

  lemma PlugMatches(p: Path, s: State, v: Json)
    requires Awaiting(s) && StackOk(s.stack) && s.stack != [] && PathMatches(p, s.stack)
    ensures var n := |p| - 1;
      n >= 0 && Plug(s, v).Live? && PathMatches(p[n := p[n].(currentKey := NoKey)], Plug(s, v).stack)
  {
    hide KeyOf, PathMatches;
    TopMatches(p, s.stack);
    ReplaceTop(p, s.stack, p[|p| - 1].(currentKey := NoKey), Top(Plug(s, v)));
  }

  /** Closing uncovers the frame below, whose value is complete. */
  lemma UncoverMatches(p: Path, stack: seq<Frame>, f: Frame)
    requires PathMatches(p, stack) && |stack| > 1 && stack[|stack| - 2].slot.Filling?
    requires var g := stack[|stack| - 2]; f.kind == g.kind && f.slot.Between? && f.entries != []
    ensures PathMatches(p[..|p| - 1], stack[..|stack| - 2] + [f])
  {
    hide KeyOf;
    var n := |p| - 2;
    assert FrameMatches(p[n], stack[n], true, PathKeyAt(stack, n));
  }

  lemma LeaveStack(s: State, kind: Kind)
    requires Inv(s) && s.Live? && s.token.Idle? && Leave(s, kind).Live?
    ensures var n := |s.stack| - 2;
      if n < 0 then Leave(s, kind).stack == []
      else
        && s.stack[n].slot.Filling?
        && Leave(s, kind).stack == s.stack[..n] + [Plugged(s.stack[n], Node(kind, Top(s).entries, s.token.ws))]
  {
    var n := |s.stack| - 2;
    if n >= 0 { assert Rest(s)[..n] == s.stack[..n] && Rest(s)[n] == s.stack[n]; }
  }

  lemma LeaveGuard(p: Path, s: State, kind: Kind)
    requires Inv(s) && s.Live? && s.token.Idle? && PathMatches(p, s.stack)
    ensures Leave(s, kind).Live? <==> p != [] && p[|p| - 1].container == kind && CanClose(p[|p| - 1])
  {
    hide KeyOf;
    if p != [] {
      UnderTop(s);
      TopMatches(p, s.stack);
    }
  }

  lemma LeaveMatches(p: Path, s: State, kind: Kind)
    requires Inv(s) && s.Live? && s.token.Idle? && PathMatches(p, s.stack) && Leave(s, kind).Live?
    ensures p != [] && PathMatches(p[..|p| - 1], Leave(s, kind).stack)
  {
    LeaveStack(s, kind);
    assert |p| == |s.stack|;
    if |p| > 1 {
      hide Leave, PathMatches, Inv;
      UncoverMatches(p, s.stack, Plugged(s.stack[|p| - 2], Node(kind, Top(s).entries, s.token.ws)));
    }
  }

  lemma CommaMatches(p: Path, s: State)
    requires Inv(s) && s.Live? && s.token.Idle? && s.stack != [] && PathMatches(p, s.stack)
    ensures |p| > 0
    ensures var n := |p| - 1; var f := p[n];
      && (Comma(s).Live? <==> if f.container == Object then f.objectState == CommaOrEnd
        else f.arrayState == ItemCommaOrEnd)
      && (Comma(s).Live? ==> PathMatches(p[n := if f.container == Object then f.(objectState := KeyNext)
        else f.(arrayState := ItemNext)], Comma(s).stack))
  {
    hide KeyOf, PathMatches;
    TopMatches(p, s.stack);
    var f := p[|p| - 1];
    if Comma(s).Live? {
      ReplaceTop(p, s.stack, if f.container == Object then f.(objectState := KeyNext)
        else f.(arrayState := ItemNext), Top(Comma(s)));
    }
  }

  lemma ColonMatches(p: Path, s: State)
    requires Inv(s) && s.Live? && s.token.Idle? && s.stack != [] && PathMatches(p, s.stack)
    ensures |p| > 0
    ensures var n := |p| - 1; var f := p[n];
      && (Colon(s).Live? <==> f.container == Object && f.objectState == ColonNext)
      && (Colon(s).Live? ==> PathMatches(p[n := f.(objectState := ValueNext)], Colon(s).stack))
  {
    hide KeyOf, PathMatches;
    TopMatches(p, s.stack);
    if Colon(s).Live? {
      ReplaceTop(p, s.stack, p[|p| - 1].(objectState := ValueNext), Top(Colon(s)));
    }
  }

  lemma ExpectsKeyMatches(p: Path, s: State)
    requires Inv(s) && s.Live? && PathMatches(p, s.stack)
    ensures ExpectsKeyIn(p) <==> ExpectsKey(s)
  {
    if p != [] { TopMatches(p, s.stack); }
  }

  lemma KeyMatches(p: Path, s: State)
    requires Inv(s) && s.Live? && s.token.InString? && s.token.isKey && PathMatches(p, s.stack)
    ensures var n := |p| - 1;
      && n >= 0 && FinishString(s).Live?
      && PathMatches(p[n := p[n].(currentKey := KeyOf(s.token.pieces), objectState := ColonNext)],
        FinishString(s).stack)
  {
    hide KeyOf, PathMatches;
    TopMatches(p, s.stack);
    ReplaceTop(p, s.stack, p[|p| - 1].(currentKey := KeyOf(s.token.pieces), objectState := ColonNext),
      Top(FinishString(s)));
  }

  // ---- Usage ----

  /** The usage once a value has started at the current position. */
  function ClearedAt(u: Usage, p: Path): Usage {
    if IsResponseValue(p) || IsUsageValue(p) then NO_USAGE
    else if IsDetailsValue(p) then u.(promptTokensDetails := None)
    else u
  }

  /** The usage once an integer has been read at the current position. */
  function RecordedAt(u: Usage, p: Path, n: int): Usage {
    if !IsCounterValue(p) then u
    else if |p| == 4 then u.(promptTokensDetails := Some(TokensDetails(n)))
    else if p[2].currentKey == KeyInputTokens then u.(inputTokens := n, promptTokens := n)
    else if p[2].currentKey == KeyOutputTokens then u.(outputTokens := n, completionTokens := n)
    else u.(totalTokens := n)
  }

  /** Starting a value: the frame tests made before it say what it is. */
  lemma StartShape(p: Path, s: State)
    requires Inv(s) && s.Live? && s.token.Idle? && PathMatches(p, s.stack) && StartValue(s).Live?
    ensures var t := StartValue(s);
      && ClearedAt(UsageSoFar(s), p) == UsageSoFar(t) && TerminalSoFar(t) == TerminalSoFar(s)
      && (IsRootType(p) <==> FillsType(t))
      && (IsCounterValue(p) <==> ValuePlace(t) == Counter)
  {
    var t := StartValue(s);
    StartReads(s);
    if p != [] {
      var head := Top(t).slot.head;
      assert HasInHand(Top(s), head) && ValuePlace(t) == PlaceUnder(Top(s).place, head) && |t.stack| == |s.stack|;
      assert Top(t).kind == Top(s).kind;
      hide PlaceUnder, IsResponseValue, IsUsageValue, IsDetailsValue, IsCounterValue, IsRootType, Spells, StartValue,
        HasInHand;
      PathPlaces(p, s.stack, head);
    }
  }

  /** Completing a scalar: the frame tests say where it sits. */
  lemma PlugShape(p: Path, s: State)
    requires Inv(s) && Awaiting(s) && PathMatches(p, s.stack)
    ensures IsRootType(p) <==> FillsType(s)
    ensures IsCounterValue(p) <==> ValuePlace(s) == Counter
  {
    if p != [] {
      var head := Top(s).slot.head;
      hide PlaceUnder, IsResponseValue, IsUsageValue, IsDetailsValue, IsCounterValue, IsRootType, Spells;
      PathPlaces(p, s.stack, head);
    }
  }

  lemma RecordShape(p: Path, s: State, u: Usage, n: int)
    requires Inv(s) && Awaiting(s) && PathMatches(p, s.stack)
    ensures RecordedAt(u, p, n) == if ValuePlace(s) == Counter then Recorded(u, Top(s).slot.head.key, n) else u
  {
    hide StackOk, PathMatches, PlaceUnder, Spells, KeyOf;
    PlugShape(p, s);
    if IsCounterValue(p) {
      var head := Top(s).slot.head;
      TopMatches(p, s.stack);
      CurrentKeyInHand(p, s.stack, head);
      KeyOfSpells(head.key);
    }
  }
}
