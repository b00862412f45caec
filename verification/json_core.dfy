/**
 The part of the streaming parser's state that outlives a token, and what each of its operations
 does to it. `None` stands for the text turning invalid. Each operation is shown to follow the
 machine's.
 */
module JsonCore {
  import opened Wrappers
  import opened Bytes
  import opened JsonText
  import opened JsonMachine
  import opened JsonSoundness
  import opened JsonReadout
  import opened JsonFrames

  datatype RootState = RootValue | RootComplete

  datatype Core = Core(path: Path, root: RootState, usage: Usage, terminal: Terminal)

  const FRESH: Core := Core([], RootValue, NO_USAGE, NotTerminal)

  predicate CoreMatches(c: Core, s: State) {
    && s.Live?
    && PathMatches(c.path, s.stack)
    && (c.root == RootComplete <==> !s.base.Empty?)
    && c.usage == UsageSoFar(s)
    && c.terminal == TerminalSoFar(s)
  }

  // ---- Operations ----

  /** A value starts. */
  function Begun(c: Core): Option<Core> {
    if c.path == [] then
      if c.root == RootValue then Some(c.(root := RootComplete)) else None
    else
      var n := |c.path| - 1;
      var f := Started(c.path[n]);
      if f.None? then None else Some(c.(path := c.path[n := f.value], usage := ClearedAt(c.usage, c.path)))
  }

  /** A value that is neither a string nor a key starts: a root `type` is no terminal kind. */
  function BegunUntyped(c: Core): Option<Core> {
    Begun(if IsRootType(c.path) then c.(terminal := NotTerminal) else c)
  }

  lemma BegunKeepsDepth(c: Core)
    ensures Begun(c).Some? ==> |Begun(c).value.path| == |c.path|
  {
  }

  function EnteredPath(p: Path, kind: Kind): Path {
    var n := |p| - 1;
    if n >= 0 && p[n].container == Object then
      p[n := p[n].(currentKey := NoKey)] + [JsonFrame(kind, p[n].currentKey, NoKey, KeyOrEnd, ItemOrEnd)]
    else p + [JsonFrame(kind, NoKey, NoKey, KeyOrEnd, ItemOrEnd)]
  }

  function Entered(c: Core, kind: Kind): Option<Core> {
    var d := BegunUntyped(c);
    if d.None? || IsCounterValue(c.path) || |c.path| >= MAX_DEPTH then None
    else Some(d.value.(path := EnteredPath(d.value.path, kind)))
  }

  function Left(c: Core, kind: Kind): Option<Core> {
    var n := |c.path| - 1;
    if n < 0 || c.path[n].container != kind || !CanClose(c.path[n]) then None
    else Some(c.(path := c.path[..n]))
  }

  function Separated(c: Core): Option<Core> {
    var n := |c.path| - 1;
    if n < 0 then None
    else
      var f := c.path[n];
      if f.container == Object then
        if f.objectState == CommaOrEnd then Some(c.(path := c.path[n := f.(objectState := KeyNext)])) else None
      else
        if f.arrayState == ItemCommaOrEnd then Some(c.(path := c.path[n := f.(arrayState := ItemNext)])) else None
  }

  function Coloned(c: Core): Option<Core> {
    var n := |c.path| - 1;
    if n < 0 || c.path[n].container != Object || c.path[n].objectState != ColonNext then None
    else Some(c.(path := c.path[n := c.path[n].(objectState := ValueNext)]))
  }

  function KeyTaken(c: Core, key: UsageKey): Option<Core> {
    var n := |c.path| - 1;
    if !ExpectsKeyIn(c.path) then None
    else Some(c.(path := c.path[n := c.path[n].(currentKey := key, objectState := ColonNext)]))
  }

  /** A finished scalar, as far as the parser distinguishes them. */
  datatype Scalar = AString(terminal: Terminal) | AnInteger(n: int) | Another

  function CompletedPath(p: Path): Path {
    if p == [] || p[|p| - 1].container != Object then p
    else p[|p| - 1 := p[|p| - 1].(currentKey := NoKey)]
  }

  function ScalarTaken(c: Core, v: Scalar): Option<Core> {
    if IsCounterValue(c.path) && !v.AnInteger? then None
    else Some(Core(CompletedPath(c.path), c.root,
                   if v.AnInteger? then RecordedAt(c.usage, c.path, v.n) else c.usage,
                   if v.AString? && IsRootType(c.path) then v.terminal else c.terminal))
  }

  // ---- Each follows the machine ----

  /** Both fail, or both succeed and still match. */
  ghost predicate Follows(c: Option<Core>, s: State) {
    (c.Some? <==> s.Live?) && (c.Some? ==> CoreMatches(c.value, s) && Inv(s))
  }

  lemma StartKeepsBase(s: State)
    requires s.Live? && s.token.Idle? && s.stack != [] && StartValue(s).Live?
    ensures StartValue(s).base == s.base && |StartValue(s).stack| == |s.stack|
  {
  }

  lemma BegunAtRoot(c: Core, s: State)
    requires CoreMatches(c, s) && s.token.Idle? && c.path == []
    ensures Begun(c).Some? <==> StartValue(s).Live?
    ensures Begun(c).Some? ==>
      Begun(c).value.path == [] && StartValue(s).stack == [] && Begun(c).value.root == RootComplete
        && StartValue(s).base.Open?
    ensures Begun(c).Some? ==>
      Begun(c).value.usage == ClearedAt(c.usage, c.path) && Begun(c).value.terminal == c.terminal
  {
    NothingCleared(c.usage);
  }

  lemma BegunInside(c: Core, s: State)
    requires CoreMatches(c, s) && Inv(s) && s.token.Idle? && c.path != []
    ensures Begun(c).Some? <==> StartValue(s).Live?
    ensures Begun(c).Some? ==>
      && PathMatches(Begun(c).value.path, StartValue(s).stack)
      && Begun(c).value.root == c.root && StartValue(s).base == s.base
      && Begun(c).value.usage == ClearedAt(c.usage, c.path) && Begun(c).value.terminal == c.terminal
  {
    assert s.stack != [];
    hide UsageSoFar, TerminalSoFar, ClearedAt, Started, Inv, PathMatches, StartValue;
    StartMatches(c.path, s);
    if StartValue(s).Live? { StartKeepsBase(s); }
  }

  lemma BegunFollows(c: Core, s: State)
    requires CoreMatches(c, s) && Inv(s) && s.token.Idle?
    ensures Begun(c).Some? <==> StartValue(s).Live?
    ensures Begun(c).Some? ==> CoreMatches(Begun(c).value, StartValue(s))
    ensures Begun(c).Some? ==> (IsRootType(c.path) <==> FillsType(StartValue(s)))
    ensures Begun(c).Some? ==> (IsCounterValue(c.path) <==> ValuePlace(StartValue(s)) == Counter)
  {
    hide UsageSoFar, TerminalSoFar, FillsType, IsRootType, IsCounterValue, ClearedAt, Inv, StartValue, Begun,
      ValuePlace;
    if c.path == [] { BegunAtRoot(c, s); } else { BegunInside(c, s); }
    if StartValue(s).Live? { StartShape(c.path, s); }
  }

  lemma NothingCleared(u: Usage)
    ensures ClearedAt(u, []) == u
  {
  }

  lemma BegunUntypedFollows(c: Core, s: State)
    requires CoreMatches(c, s) && Inv(s) && s.token.Idle?
    ensures BegunUntyped(c).Some? <==> StartValue(s).Live?
    ensures BegunUntyped(c).Some? ==>
      var t := StartValue(s); var d := BegunUntyped(c).value;
      && PathMatches(d.path, t.stack) && (d.root == RootComplete <==> !t.base.Empty?)
      && d.usage == UsageSoFar(t) && d.terminal == (if FillsType(t) then NotTerminal else TerminalSoFar(t))
      && (IsCounterValue(c.path) <==> ValuePlace(t) == Counter)
  {
    hide StartValue, UsageSoFar, TerminalSoFar, FillsType, IsRootType, IsCounterValue, PathMatches, Inv, ValuePlace;
    BegunFollows(c, s);
  }

  lemma EnteredGuard(c: Core, s: State, kind: Kind)
    requires CoreMatches(c, s) && Inv(s) && s.token.Idle?
    ensures Entered(c, kind).Some? <==> Enter(s, kind).Live?
  {
    assert |c.path| == |s.stack|;
    hide PathMatches, StartValue, Inv, UsageSoFar, TerminalSoFar, FillsType, BegunUntyped, IsCounterValue, ValuePlace,
      EnteredPath;
    BegunUntypedFollows(c, s);
    if StartValue(s).Live? { StartKeepsDepth(s); }
  }

  lemma EnteredMatches(c: Core, s: State, kind: Kind)
    requires CoreMatches(c, s) && Inv(s) && s.token.Idle? && Entered(c, kind).Some? && Enter(s, kind).Live?
    ensures CoreMatches(Entered(c, kind).value, Enter(s, kind))
  {
    hide PathMatches, StartValue, Inv, UsageSoFar, TerminalSoFar, FillsType, BegunUntyped, IsCounterValue, ValuePlace,
      EnteredPath, StackOk, BaseOk;
    BegunUntypedFollows(c, s);
    StartValueSound(s);
    EnterReads(s, kind);
    EnteredPathMatches(BegunUntyped(c).value.path, StartValue(s), kind);
  }

  lemma EnteredFollows(c: Core, s: State, kind: Kind)
    requires CoreMatches(c, s) && Inv(s) && s.token.Idle?
    ensures Follows(Entered(c, kind), Enter(s, kind))
  {
    assert s.Live?;
    hide CoreMatches, Inv, Enter, Entered;
    EnteredGuard(c, s, kind);
    EnterSound(s, kind);
    if Enter(s, kind).Live? { EnteredMatches(c, s, kind); }
  }

  lemma StartKeepsDepth(s: State)
    requires s.Live? && s.token.Idle? && StartValue(s).Live?
    ensures |StartValue(s).stack| == |s.stack|
  {
  }

  lemma EnteredPathMatches(p: Path, t: State, kind: Kind)
    requires t.Live? && Awaiting(t) && StackOk(t.stack) && PathMatches(p, t.stack)
    ensures PathMatches(EnteredPath(p, kind), t.stack + [Frame(kind, ValuePlace(t), [], Between)])
  {
    EnterMatches(p, t, kind, ValuePlace(t));
    if p != [] {
      CurrentKeyInHand(p, t.stack, Top(t).slot.head);
      if p[|p| - 1].container != Object { assert p[|p| - 1 := p[|p| - 1].(currentKey := NoKey)] == p; }
    }
  }

  lemma LeftFollows(c: Core, s: State, kind: Kind)
    requires CoreMatches(c, s) && Inv(s) && s.token.Idle?
    ensures Follows(Left(c, kind), Leave(s, kind))
  {
    LeaveGuard(c.path, s, kind);
    if Leave(s, kind).Live? {
      LeaveSound(s, kind);
      LeaveMatches(c.path, s, kind);
      LeaveReads(s, kind);
    }
  }

  lemma SeparatedFollows(c: Core, s: State)
    requires CoreMatches(c, s) && Inv(s) && s.token.Idle?
    ensures Follows(Separated(c), Comma(s))
  {
    if c.path != [] {
      CommaMatches(c.path, s);
      CommaSound(s);
      if Comma(s).Live? { MoveReads(s, AfterComma(s.token.ws), Idle([])); }
    }
  }

  lemma ColonedFollows(c: Core, s: State)
    requires CoreMatches(c, s) && Inv(s) && s.token.Idle?
    ensures Follows(Coloned(c), Colon(s))
  {
    if c.path != [] {
      ColonMatches(c.path, s);
      ColonSound(s);
      if Colon(s).Live? {
        var k := Top(s).slot;
        MoveReads(s, AfterColon(k.gap, k.pre, k.key, s.token.ws), Idle([]));
      }
    }
  }

  lemma KeyTakenFollows(c: Core, s: State)
    requires CoreMatches(c, s) && Inv(s) && s.token.InString? && s.token.isKey && s.token.pending.Settled?
    ensures Follows(KeyTaken(c, KeyOf(s.token.pieces)), FinishString(s))
  {
    ExpectsKeyMatches(c.path, s);
    KeyMatches(c.path, s);
    FinishKeySound(s);
    MoveReads(s, Top(FinishString(s)).slot, Idle([]));
  }

  /** What the parser knows of a finished scalar. */
  predicate Describes(v: Scalar, j: Json) {
    match v
    case AString(t) => j.Str? && t == TerminalOfString(j.text)
    case AnInteger(n) => IsCount(j) && n == Decimal(j.number.whole)
    case Another => !j.Str? && !j.Node? && !IsCount(j)
  }

  lemma CompletedPathMatches(p: Path, s: State, j: Json)
    requires Awaiting(s) && Inv(s) && PathMatches(p, s.stack)
    ensures Plug(s, j).Live? && PathMatches(CompletedPath(p), Plug(s, j).stack)
  {
    if p != [] {
      PlugMatches(p, s, j);
      CurrentKeyInHand(p, s.stack, Top(s).slot.head);
      if p[|p| - 1].container != Object { assert p[|p| - 1 := p[|p| - 1].(currentKey := NoKey)] == p; }
    }
  }

  lemma PlugKeepsBase(s: State, j: Json)
    requires Awaiting(s) && Inv(s)
    ensures Plug(s, j).Live? && !Plug(s, j).base.Empty? && !s.base.Empty?
  {
  }

  lemma ScalarTakenFollows(c: Core, s: State, v: Scalar, j: Json)
    requires CoreMatches(c, s) && Inv(s) && Awaiting(s) && WellFormed(j) && Describes(v, j)
    requires !v.AString? && FillsType(s) ==> c.terminal == NotTerminal
    ensures Follows(ScalarTaken(c, v), PlugScalar(s, j))
  {
    hide UsageSoFar, TerminalSoFar, FillsType, IsRootType, IsCounterValue, PathMatches, Inv, Awaiting, ValuePlace, Plug,
      CompletedPath, RecordedAt, Recorded;
    PlugShape(c.path, s);
    CompletedPathMatches(c.path, s, j);
    PlugKeepsBase(s, j);
    if v.AnInteger? { RecordShape(c.path, s, c.usage, v.n); }
    if PlugScalar(s, j).Live? {
      PlugScalarSound(s, j);
      PlugReads(s, j);
    }
  }

  lemma OperationsEndIdle(s: State, kind: Kind)
    requires s.Live? && s.token.Idle?
    ensures Enter(s, kind).Live? ==> Enter(s, kind).token.Idle?
    ensures Leave(s, kind).Live? ==> Leave(s, kind).token.Idle?
    ensures Comma(s).Live? ==> Comma(s).token.Idle?
    ensures Colon(s).Live? ==> Colon(s).token.Idle?
  {
  }

  /** The quote opens a key or a text. */
  lemma BeginStringFollows(c: Core, s: State)
    requires CoreMatches(c, s) && Inv(s) && s.token.Idle?
    ensures Follows(if ExpectsKeyIn(c.path) then Some(c) else Begun(c), BeginString(s))
    ensures BeginString(s).Live? ==>
      var t := BeginString(s).token;
      t.InString? && t.isKey == ExpectsKeyIn(c.path) && t.pieces == [] && t.pending == Settled
  {
    BeginStringSound(s);
    ExpectsKeyMatches(c.path, s);
    hide PathMatches, StartValue, Inv, UsageSoFar, TerminalSoFar, ExpectsKeyIn, ExpectsKey, Begun;
    if ExpectsKey(s) {
      TokenReads(s, InString(s.token.ws, true, [], Settled));
    } else {
      BegunFollows(c, s);
      if StartValue(s).Live? {
        StartIsIdle(s);
        TokenReads(StartValue(s), InString([], false, [], Settled));
      }
    }
  }

  lemma StartIsIdle(s: State)
    requires s.Live? && s.token.Idle?
    ensures StartValue(s).Live? ==> StartValue(s).token == Idle([])
  {
  }

  /** A number or a word starts. */
  lemma BeginUntypedFollows(c: Core, s: State, token: Token)
    requires CoreMatches(c, s) && Inv(s) && s.token.Idle? && (token.InNumber? || token.InWord?)
    ensures BegunUntyped(c).Some? <==> StartValue(s).Live?
    ensures StartValue(s).Live? ==> CoreMatches(BegunUntyped(c).value, StartValue(s).(token := token))
  {
    hide PathMatches, StartValue, Inv, UsageSoFar, TerminalSoFar, FillsType, BegunUntyped;
    BegunUntypedFollows(c, s);
    if StartValue(s).Live? {
      StartIsIdle(s);
      TokenReads(StartValue(s), token);
    }
  }

  lemma BeginNumberFollows(c: Core, s: State, b: byte)
    requires CoreMatches(c, s) && Inv(s) && s.token.Idle? && (b == MINUS || IsDigit(b))
    ensures Follows(BegunUntyped(c), BeginNumber(s, b))
  {
    assert s.Live?;
    hide CoreMatches, StartValue, Inv, BegunUntyped;
    BeginNumberSound(s, b);
    BeginUntypedFollows(c, s, InNumber(NumberText(b == MINUS, if b == MINUS then [] else [b], None, None)));
  }

  lemma BeginWordFollows(c: Core, s: State, b: byte)
    requires CoreMatches(c, s) && Inv(s) && s.token.Idle?
    ensures Follows(BegunUntyped(c), BeginWord(s, b))
  {
    assert s.Live?;
    hide CoreMatches, StartValue, Inv, BegunUntyped;
    BeginWordSound(s, b);
    BeginUntypedFollows(c, s, InWord([b]));
  }

  /** Inside a token of one kind, only the token changes. */
  lemma SameKindToken(c: Core, s: State, token: Token)
    requires CoreMatches(c, s)
    requires (token.InNumber? || token.InWord?) <==> (s.token.InNumber? || s.token.InWord?)
    ensures CoreMatches(c, s.(token := token))
  {
  }

  lemma UntypedTerminal(c: Core, s: State)
    requires CoreMatches(c, s) && (s.token.InNumber? || s.token.InWord?) && FillsType(s)
    ensures c.terminal == NotTerminal
  {
  }

  /** A number is settled. */
  lemma NumberTakenFollows(c: Core, s: State, v: Scalar)
    requires CoreMatches(c, s) && Inv(s) && s.token.InNumber? && PhaseIsComplete(PhaseOf(s.token.number))
    requires Describes(v, Num(s.token.number))
    ensures Follows(ScalarTaken(c, v), Settle(s))
  {
    assert NumberOk(s.token.number) && Awaiting(s);
    hide CoreMatches, Inv, PhaseOf, FillsType, Awaiting, Describes;
    if FillsType(s) { UntypedTerminal(c, s); }
    DescribedNumber(v, s.token.number);
    ScalarTakenFollows(c, s, v, Num(s.token.number));
  }

  lemma DescribedNumber(v: Scalar, n: NumberText)
    requires Describes(v, Num(n))
    ensures !v.AString?
  {
  }

  /** A word is settled. */
  lemma WordTakenFollows(c: Core, s: State)
    requires CoreMatches(c, s) && Inv(s) && s.token.InWord? && IsWord(s.token.word)
    ensures Follows(ScalarTaken(c, Another), Settle(s))
  {
    assert Awaiting(s) && WellFormed(Word(s.token.word));
    hide CoreMatches, Inv, FillsType, Awaiting, WellFormed, Follows, ScalarTaken, PlugScalar;
    if FillsType(s) { UntypedTerminal(c, s); }
    ScalarTakenFollows(c, s, Another, Word(s.token.word));
  }

  /** A text is finished. */
  lemma TextTakenFollows(c: Core, s: State)
    requires CoreMatches(c, s) && Inv(s) && s.token.InString? && !s.token.isKey
    ensures Follows(ScalarTaken(c, AString(TerminalOfString(s.token.pieces))), FinishString(s))
  {
    assert Awaiting(s) && PiecesOk(s.token.pieces);
    hide CoreMatches, Inv, FillsType, Awaiting, TerminalOfString;
    ScalarTakenFollows(c, s, AString(TerminalOfString(s.token.pieces)), Str(s.token.pieces));
  }

  /** The number automaton, on its states alone. */
  function Advance(p: Phase, b: byte): Option<Phase> {
    var isMark := b == LOWER_E || b == UPPER_E;
    match p
    case AtMinus => if b == ZERO then Some(AtZero) else if IsDigit(b) then Some(AtInteger) else None
    case AtZero => if b == DOT then Some(AtFractionStart) else if isMark then Some(AtExponentStart) else None
    case AtInteger =>
      if IsDigit(b) then Some(AtInteger)
      else if b == DOT then Some(AtFractionStart)
      else if isMark then Some(AtExponentStart)
      else None
    case AtFractionStart => if IsDigit(b) then Some(AtFraction) else None
    case AtFraction => if IsDigit(b) then Some(AtFraction) else if isMark then Some(AtExponentStart) else None
    case AtExponentStart =>
      if b == PLUS || b == MINUS then Some(AtExponentSign) else if IsDigit(b) then Some(AtExponent) else None
    case AtExponentSign => if IsDigit(b) then Some(AtExponent) else None
    case AtExponent => if IsDigit(b) then Some(AtExponent) else None
  }

  predicate TakesDigit(p: Phase, b: byte) {
    (p == AtMinus || p == AtInteger) && IsDigit(b)
  }

  /** The automaton's state is the phase of the text read. */
  lemma AdvanceFollows(n: NumberText, b: byte)
    requires PartialNumberOk(n)
    ensures Advance(PhaseOf(n), b).Some? <==> Extend(n, b).Some?
    ensures Extend(n, b).Some? ==>
      var m := Extend(n, b).value;
      && PhaseOf(m) == Advance(PhaseOf(n), b).value && m.minus == n.minus
      && m.whole == if TakesDigit(PhaseOf(n), b) then n.whole + [b] else n.whole
  {
    assert n.whole == [] ==> n.whole + [b] == [b];
  }

  // ---- Inside a string ----

  lemma PiecePushed(ps: seq<Piece>, p: Piece)
    ensures PlainBytes(ps + [p]) == PlainBytes(ps) + if p.Plain? then [p.b] else []
    ensures HasEscape(ps + [p]) <==> HasEscape(ps) || !p.Plain?
  {
    var qs := ps + [p];
    assert qs[..|ps|] == ps;
    if HasEscape(ps) {
      var i :| 0 <= i < |ps| && !ps[i].Plain?;
      assert !qs[i].Plain?;
    }
    if !p.Plain? { assert !qs[|ps|].Plain?; }
  }

  /** The parser's flags inside a string; `hexDue` counts the hexadecimal digits still to come. */
  datatype Flags = Flags(isKey: bool, escaped: bool, escape: bool, hexDue: int)

  predicate FlagsMatch(f: Flags, t: Token) {
    && t.InString? && f.isKey == t.isKey
    && f.escaped == (HasEscape(t.pieces) || !t.pending.Settled?)
    && f.escape == t.pending.Backslash?
    && f.hexDue == if t.pending.HexDigits? then 4 - |t.pending.digits| else 0
  }

  predicate EndsString(f: Flags, b: byte) {
    f.hexDue == 0 && !f.escape && b == QUOTE
  }

  predicate AppendsText(f: Flags, b: byte) {
    f.hexDue == 0 && !f.escape && b != BACKSLASH
  }

  /** The flags after one more byte that does not end the string. */
  function NextFlags(f: Flags, b: byte): Option<Flags> {
    if f.hexDue > 0 then
      if IsHex(b) then Some(f.(hexDue := f.hexDue - 1)) else None
    else if f.escape then
      if b == LOWER_U then Some(f.(escape := false, escaped := true, hexDue := 4))
      else if IsEscapeLetter(b) then Some(f.(escape := false, escaped := true))
      else None
    else if b == BACKSLASH then Some(f.(escape := true, escaped := true))
    else if b < SPACE then None
    else Some(f)
  }

  lemma NextFlagsFollow(f: Flags, s: State, b: byte)
    requires s.Live? && FlagsMatch(f, s.token) && PendingOk(s.token.pending) && !EndsString(f, b)
    ensures Step(s, b).Live? <==> NextFlags(f, b).Some?
    ensures Step(s, b).Live? ==>
      var t := Step(s, b).token;
      && Step(s, b) == s.(token := t) && FlagsMatch(NextFlags(f, b).value, t)
      && PlainBytes(t.pieces) == PlainBytes(s.token.pieces) + if AppendsText(f, b) then [b] else []
  {
    hide PlainBytes, HasEscape;
    var u := s.token;
    PiecePushed(u.pieces, Plain(b));
    PiecePushed(u.pieces, Escape(b));
    if u.pending.HexDigits? { PiecePushed(u.pieces, Unicode(u.pending.digits + [b])); }
  }

  lemma StringStepFollows(c: Core, f: Flags, s: State, b: byte)
    requires CoreMatches(c, s) && Inv(s) && FlagsMatch(f, s.token) && !EndsString(f, b)
    ensures Step(s, b).Live? <==> NextFlags(f, b).Some?
    ensures Step(s, b).Live? ==>
      var t := Step(s, b).token;
      && CoreMatches(c, Step(s, b)) && Inv(Step(s, b)) && FlagsMatch(NextFlags(f, b).value, t)
      && PlainBytes(t.pieces) == PlainBytes(s.token.pieces) + if AppendsText(f, b) then [b] else []
  {
    assert s.token.InString? && PendingOk(s.token.pending);
    NextFlagsFollow(f, s, b);
    StepSound(s, b);
    hide Step, CoreMatches, Inv, NextFlags, AppendsText, PlainBytes;
    if Step(s, b).Live? {
      assert FlagsMatch(NextFlags(f, b).value, Step(s, b).token);
      SameKindToken(c, s, Step(s, b).token);
    }
  }

  lemma InStringOk(s: State)
    requires Inv(s) && s.Live? && s.token.InString?
    ensures PendingOk(s.token.pending)
  {
  }

  lemma NumberStepFollows(c: Core, s: State, b: byte)
    requires CoreMatches(c, s) && Inv(s) && s.token.InNumber? && !IsDelimiter(b)
    ensures var n := s.token.number; var p := Advance(PhaseOf(n), b);
      && (Step(s, b).Live? <==> p.Some?)
      && (Step(s, b).Live? ==>
            && CoreMatches(c, Step(s, b)) && Inv(Step(s, b)) && Step(s, b).token.InNumber?
            && var m := Step(s, b).token.number;
               PhaseOf(m) == p.value && m.minus == n.minus && m.whole == if TakesDigit(PhaseOf(n), b) then
                 n.whole + [b] else n.whole)
  {
    assert s.Live? && PartialNumberOk(s.token.number);
    AdvanceFollows(s.token.number, b);
    StepSound(s, b);
    hide CoreMatches, Inv, PhaseOf, Advance, Extend;
    if Step(s, b).Live? { SameKindToken(c, s, Step(s, b).token); }
  }

  lemma WordStepFollows(c: Core, s: State, b: byte)
    requires CoreMatches(c, s) && Inv(s) && s.token.InWord? && !IsDelimiter(b)
    ensures Step(s, b) == if |s.token.word| < MAX_WORD then s.(token := InWord(s.token.word + [b])) else Failed
    ensures Step(s, b).Live? ==> CoreMatches(c, Step(s, b)) && Inv(Step(s, b))
  {
    assert s.Live?;
    StepSound(s, b);
    hide CoreMatches, Inv;
    if Step(s, b).Live? { SameKindToken(c, s, Step(s, b).token); }
  }

  lemma FreshMatches()
    ensures CoreMatches(FRESH, START) && Inv(START) && Run(START, []) == START
  {
  }
}
