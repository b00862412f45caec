/**
 Everything the machine reads is kept: a live state renders to exactly the bytes read so far, and
 each part of it obeys the grammar and the parser's limits. An accepted text is therefore a payload.
 */
module JsonSoundness {
  import opened Wrappers
  import opened Sequences
  import opened Bytes
  import opened JsonText
  import opened JsonMachine

  // ---- The bytes a state stands for ----

  function RenderSlot(index: nat, slot: Slot): bytes {
    match slot
    case Between => []
    case AfterComma(gap) => Separator(index, gap)
    case AfterKey(gap, pre, key) => Separator(index, gap) + pre + RenderString(key)
    case AfterColon(gap, pre, key, mid) => Separator(index, gap) + pre + RenderString(key) + mid + [COLON]
    case Filling(gap, head, lead) => Separator(index, gap) + RenderHead(head) + lead
  }

  function RenderFrame(f: Frame): bytes {
    [OpenByte(f.kind)] + RenderEntries(f.entries) + RenderSlot(|f.entries|, f.slot)
  }

  function RenderStack(stack: seq<Frame>): bytes {
    if stack == [] then [] else RenderStack(stack[..|stack| - 1]) + RenderFrame(stack[|stack| - 1])
  }

  function RenderBase(b: Base): bytes {
    match b
    case Empty => []
    case Open(lead) => lead
    case Done(lead, v) => lead + Render(v)
  }

  function RenderPending(p: Pending): bytes {
    match p
    case Settled => []
    case Backslash => [BACKSLASH]
    case HexDigits(ds) => [BACKSLASH, LOWER_U] + ds
  }

  function RenderToken(t: Token): bytes {
    match t
    case Idle(ws) => ws
    case InString(pre, _, ps, pending) => pre + [QUOTE] + RenderPieces(ps) + RenderPending(pending)
    case InNumber(n) => RenderNumber(n)
    case InWord(w) => w
  }

  function RenderState(s: State): bytes
    requires s.Live?
  {
    RenderBase(s.base) + RenderStack(s.stack) + RenderToken(s.token)
  }

  // ---- The invariant ----

  ghost predicate EntriesOk(kind: Kind, place: Place, es: seq<Entry>, room: int) {
    && (es != [] ==> es[0].gap == [])
    && forall i :: 0 <= i < |es| ==>
         EntryShape(kind, es[i]) && Acceptable(es[i].value, PlaceUnder(place, es[i].head), room)
  }

  predicate GapOk(f: Frame, gap: bytes) {
    AllSpace(gap) && (f.entries == [] ==> gap == [])
  }

  predicate SlotOk(f: Frame) {
    match f.slot
    case Between => true
    case AfterComma(gap) => GapOk(f, gap) && f.entries != []
    case AfterKey(gap, pre, key) => GapOk(f, gap) && HeadOk(f.kind, Keyed(pre, key, []))
    case AfterColon(gap, pre, key, mid) => GapOk(f, gap) && HeadOk(f.kind, Keyed(pre, key, mid))
    case Filling(gap, head, lead) => GapOk(f, gap) && HeadOk(f.kind, head) && AllSpace(lead)
  }

  ghost predicate FrameOk(f: Frame, depth: int) {
    f.place != Counter && SlotOk(f) && EntriesOk(f.kind, f.place, f.entries, MAX_DEPTH - depth)
  }

  /** Frame `i` holds open the place of frame `i + 1`. */
  ghost predicate StackOk(stack: seq<Frame>) {
    && |stack| <= MAX_DEPTH
    && (stack != [] ==> stack[0].place == Root)
    && (forall i :: 0 <= i < |stack| ==> FrameOk(stack[i], i + 1))
    && (forall i :: 0 <= i < |stack| - 1 ==>
          stack[i].slot.Filling? && stack[i + 1].place == PlaceUnder(stack[i].place, stack[i].slot.head))
  }

  ghost predicate BaseOk(b: Base) {
    match b
    case Empty => true
    case Open(lead) => AllSpace(lead)
    case Done(lead, v) => AllSpace(lead) && Acceptable(v, Root, MAX_DEPTH)
  }

  predicate PartialNumberOk(n: NumberText) {
    && AllDigits(n.whole) && (|n.whole| > 1 ==> n.whole[0] != ZERO)
    && (n.whole == [] ==> n.frac.None? && n.exp.None?)
    && (n.frac.Some? ==> AllDigits(n.frac.value))
    && (n.exp.Some? ==> ExponentHeadOk(n.exp.value) && AllDigits(n.exp.value.digits) && n.frac != Some([]))
  }

  predicate PendingOk(p: Pending) {
    p.HexDigits? ==> |p.digits| < 4 && AllHex(p.digits)
  }

  /** A value has started and its position is held open. */
  predicate Awaiting(s: State) {
    s.Live? && if s.stack == [] then s.base.Open? else Top(s).slot.Filling?
  }

  predicate TokenOk(s: State)
    requires s.Live?
  {
    match s.token
    case Idle(ws) => AllSpace(ws) && !Awaiting(s)
    case InString(pre, isKey, ps, pending) =>
      PiecesOk(ps) && PendingOk(pending) && AllSpace(pre) && if isKey then ExpectsKey(s) else Awaiting(s) && pre == []
    case InNumber(n) => PartialNumberOk(n) && Awaiting(s)
    case InWord(_) => Awaiting(s)
  }

  ghost predicate Inv(s: State) {
    s.Live? ==> BaseOk(s.base) && (s.stack != [] ==> s.base.Open?) && StackOk(s.stack) && TokenOk(s)
  }

  /** What a step must do: keep the invariant and account for the byte. */
  ghost predicate Reads(s: State, t: State, read: bytes) {
    s.Live? && t.Live? ==> Inv(t) && RenderState(t) == RenderState(s) + read
  }

  // ---- Steps ----

  lemma StackPush(rest: seq<Frame>, f: Frame)
    ensures RenderStack(rest + [f]) == RenderStack(rest) + RenderFrame(f)
  {
    assert (rest + [f])[..|rest|] == rest;
  }

  lemma EntriesPush(es: seq<Entry>, e: Entry)
    ensures RenderEntries(es + [e]) == RenderEntries(es) + Separator(|es|, e.gap) + RenderHead(e.head)
      + e.lead + Render(e.value)
  {
    assert (es + [e])[..|es|] == es;
  }

  /** All that a state with an open container stands for, up to the slot of its innermost frame. */
  function Before(s: State): bytes
    requires s.Live? && s.stack != []
  {
    RenderBase(s.base) + RenderStack(Rest(s)) + [OpenByte(Top(s).kind)] + RenderEntries(Top(s).entries)
  }

  function AtCursor(s: State): bytes
    requires s.Live? && s.stack != []
  {
    RenderSlot(|Top(s).entries|, Top(s).slot) + RenderToken(s.token)
  }

  lemma RegroupTop(b: bytes, r: bytes, o: bytes, e: bytes, c: bytes, t: bytes)
    ensures b + (r + (o + e + c)) + t == (b + r + o + e) + (c + t)
  {
  }

  lemma RenderSplit(s: State)
    requires s.Live? && s.stack != []
    ensures RenderState(s) == Before(s) + AtCursor(s)
  {
    var f := Top(s);
    RegroupTop(RenderBase(s.base), RenderStack(Rest(s)), [OpenByte(f.kind)], RenderEntries(f.entries),
            RenderSlot(|f.entries|, f.slot), RenderToken(s.token));
  }

  lemma MoveToKeepsStack(s: State, slot: Slot, token: Token)
    requires s.Live? && s.stack != [] && StackOk(s.stack)
    requires SlotOk(Top(s).(slot := slot))
    ensures StackOk(MoveTo(s, slot, token).stack)
  {
  }

  lemma MoveToRenders(s: State, slot: Slot, token: Token, read: bytes)
    requires s.Live? && s.stack != []
    requires RenderSlot(|Top(s).entries|, slot) + RenderToken(token) == AtCursor(s) + read
    ensures RenderState(MoveTo(s, slot, token)) == RenderState(s) + read
  {
    var t := MoveTo(s, slot, token);
    assert Rest(t) == Rest(s);
    RenderSplit(s);
    RenderSplit(t);
    Regroup(Before(s), AtCursor(s), read);
  }

  lemma RegroupKey(a: bytes, p: bytes, k: bytes, m: bytes, c: bytes, w: bytes)
    ensures a + (p + k + m + c) + w == (a + p + k + m + c) + w
  {
  }

  /** StartValue opens the position of a value without consuming a byte. */
  lemma StartValueRenders(s: State)
    requires Inv(s) && s.Live? && s.token.Idle? && StartValue(s).Live?
    ensures RenderState(StartValue(s)) == RenderState(s)
  {
    var t := StartValue(s);
    var ws := s.token.ws;
    if s.stack == [] {
      assert RenderStack([]) == [];
    } else {
      var n := |Top(s).entries|;
      var o := Top(s).slot;
      var slot := Top(t).slot;
      assert t == MoveTo(s, slot, Idle([]));
      if o.AfterColon? {
        RegroupKey(Separator(n, o.gap), o.pre, RenderString(o.key), o.mid, [COLON], ws);
      }
      assert RenderSlot(n, slot) + [] == RenderSlot(n, o) + ws + [];
      MoveToRenders(s, slot, Idle([]), []);
    }
  }

  lemma StartValueSound(s: State)
    requires Inv(s) && s.Live? && s.token.Idle? && StartValue(s).Live?
    ensures var t := StartValue(s);
      BaseOk(t.base) && (t.stack != [] ==> t.base.Open?) && StackOk(t.stack) && Awaiting(t) && t.token == Idle([])
  {
    var t := StartValue(s);
    if s.stack != [] {
      MoveToKeepsStack(s, Top(t).slot, Idle([]));
    }
  }

  function RenderOpen(s: State): bytes
    requires s.Live?
  {
    RenderBase(s.base) + RenderStack(s.stack)
  }

  lemma RegroupEntry(r: bytes, o: bytes, e: bytes, g: bytes, h: bytes, l: bytes, v: bytes)
    ensures r + (o + e + (g + h + l)) + v == r + (o + (e + g + h + l + v) + [])
  {
  }

  lemma PlugFrameRenders(rest: seq<Frame>, f: Frame, v: Json)
    requires f.slot.Filling?
    ensures var e := Entry(f.slot.gap, f.slot.head, f.slot.lead, v);
      RenderStack(rest + [Frame(f.kind, f.place, f.entries + [e], Between)]) == RenderStack(rest + [f]) + Render(v)
  {
    var e := Entry(f.slot.gap, f.slot.head, f.slot.lead, v);
    EntriesPush(f.entries, e);
    StackPush(rest, f);
    StackPush(rest, Frame(f.kind, f.place, f.entries + [e], Between));
    RegroupEntry(RenderStack(rest), [OpenByte(f.kind)], RenderEntries(f.entries),
                 Separator(|f.entries|, e.gap), RenderHead(e.head), e.lead, Render(v));
  }

  lemma EmptyTail(a: bytes)
    ensures a + [] == a
  {
  }

  lemma PlugRenders(s: State, v: Json)
    requires Awaiting(s)
    ensures Plug(s, v).Live? && RenderState(Plug(s, v)) == RenderOpen(s) + Render(v)
  {
    var t := Plug(s, v);
    if s.stack == [] {
      assert RenderStack([]) == [];
      EmptyTail(RenderBase(s.base));
      EmptyTail(RenderBase(t.base));
    } else {
      assert s.stack == Rest(s) + [Top(s)];
      PlugFrameRenders(Rest(s), Top(s), v);
      Regroup(RenderBase(s.base), RenderStack(s.stack), Render(v));
      EmptyTail(RenderOpen(t));
    }
  }

  lemma PlugSound(s: State, v: Json)
    requires Awaiting(s) && BaseOk(s.base) && (s.stack != [] ==> s.base.Open?) && StackOk(s.stack)
    requires Acceptable(v, ValuePlace(s), MAX_DEPTH - |s.stack|)
    ensures Plug(s, v).Live? && Inv(Plug(s, v))
  {
    var t := Plug(s, v);
    if s.stack != [] {
      var f, g := Top(s), Top(t);
      assert FrameOk(f, |s.stack|);
      assert FrameOk(g, |s.stack|);
    }
  }

  lemma PlugScalarSound(s: State, v: Json)
    requires Inv(s) && Awaiting(s) && WellFormed(v) && !v.Node? && PlugScalar(s, v).Live?
    ensures Inv(PlugScalar(s, v)) && RenderState(PlugScalar(s, v)) == RenderOpen(s) + Render(v)
  {
    PlugRenders(s, v);
    PlugSound(s, v);
  }

  lemma EnterRenders(t: State, f: Frame)
    requires t.Live? && t.token == Idle([]) && f.entries == [] && f.slot == Between
    ensures RenderState(t.(stack := t.stack + [f])) == RenderState(t) + [OpenByte(f.kind)]
  {
    StackPush(t.stack, f);
    EmptyTail([OpenByte(f.kind)]);
    Regroup(RenderBase(t.base), RenderStack(t.stack), [OpenByte(f.kind)]);
    EmptyTail(RenderOpen(t));
    EmptyTail(RenderOpen(t) + [OpenByte(f.kind)]);
  }

  lemma EnterKeepsStack(t: State, kind: Kind)
    requires t.Live? && Awaiting(t) && StackOk(t.stack) && ValuePlace(t) != Counter && |t.stack| < MAX_DEPTH
    ensures StackOk(t.stack + [Frame(kind, ValuePlace(t), [], Between)])
  {
    var f := Frame(kind, ValuePlace(t), [], Between);
    assert FrameOk(f, |t.stack| + 1);
  }

  lemma EnterSound(s: State, kind: Kind)
    requires Inv(s) && s.Live? && s.token.Idle?
    ensures Reads(s, Enter(s, kind), [OpenByte(kind)])
  {
    if Enter(s, kind).Live? {
      StartValueSound(s);
      StartValueRenders(s);
      var t := StartValue(s);
      EnterKeepsStack(t, kind);
      EnterRenders(t, Frame(kind, ValuePlace(t), [], Between));
    }
  }

  lemma NodeAcceptable(f: Frame, depth: int, close: bytes)
    requires FrameOk(f, depth) && depth <= MAX_DEPTH && AllSpace(close)
    ensures Acceptable(Node(f.kind, f.entries, close), f.place, MAX_DEPTH - depth + 1)
  {
  }

  lemma RegroupLeave(b: bytes, r: bytes, o: bytes, e: bytes, w: bytes, c: bytes)
    ensures b + (r + (o + e + [])) + w + c == b + r + (o + e + w + c)
  {
  }

  lemma LeaveRenders(s: State, kind: Kind)
    requires s.Live? && s.token.Idle? && Leave(s, kind).Live? && Awaiting(s.(stack := Rest(s)))
    ensures RenderState(Leave(s, kind)) == RenderState(s) + [CloseByte(kind)]
  {
    PlugRenders(s.(stack := Rest(s)), Node(kind, Top(s).entries, s.token.ws));
    RegroupLeave(RenderBase(s.base), RenderStack(Rest(s)), [OpenByte(kind)], RenderEntries(Top(s).entries),
      s.token.ws, [CloseByte(kind)]);
  }

  /** The frame under the innermost one holds its place open. */
  lemma UnderTop(s: State)
    requires Inv(s) && s.Live? && s.stack != []
    ensures var under := s.(stack := Rest(s));
      Awaiting(under) && StackOk(under.stack) && ValuePlace(under) == Top(s).place && FrameOk(Top(s), |s.stack|)
  {
    var n := |s.stack| - 1;
    assert FrameOk(s.stack[n], n + 1);
    assert n > 0 ==> s.stack[n].place == PlaceUnder(s.stack[n - 1].place, s.stack[n - 1].slot.head);
  }

  lemma LeaveSound(s: State, kind: Kind)
    requires Inv(s) && s.Live? && s.token.Idle?
    ensures Reads(s, Leave(s, kind), [CloseByte(kind)])
  {
    if Leave(s, kind).Live? {
      UnderTop(s);
      NodeAcceptable(Top(s), |s.stack|, s.token.ws);
      PlugSound(s.(stack := Rest(s)), Node(kind, Top(s).entries, s.token.ws));
      LeaveRenders(s, kind);
    }
  }

  lemma CommaSound(s: State)
    requires Inv(s) && s.Live? && s.token.Idle?
    ensures Reads(s, Comma(s), [COMMA])
  {
    if Comma(s).Live? {
      var slot := AfterComma(s.token.ws);
      MoveToKeepsStack(s, slot, Idle([]));
      assert RenderSlot(|Top(s).entries|, slot) + [] == [] + s.token.ws + [COMMA];
      MoveToRenders(s, slot, Idle([]), [COMMA]);
    }
  }

  lemma ColonSound(s: State)
    requires Inv(s) && s.Live? && s.token.Idle?
    ensures Reads(s, Colon(s), [COLON])
  {
    if Colon(s).Live? {
      var k := Top(s).slot;
      var slot := AfterColon(k.gap, k.pre, k.key, s.token.ws);
      MoveToKeepsStack(s, slot, Idle([]));
      assert RenderSlot(|Top(s).entries|, slot) + [] == RenderSlot(|Top(s).entries|, k) + s.token.ws + [COLON];
      MoveToRenders(s, slot, Idle([]), [COLON]);
    }
  }

  /** Only the token changes. */
  lemma TokenRenders(s: State, token: Token, read: bytes)
    requires s.Live? && RenderToken(token) == RenderToken(s.token) + read
    ensures RenderState(s.(token := token)) == RenderState(s) + read
  {
    Regroup(RenderOpen(s), RenderToken(s.token), read);
  }

  lemma BeginKeySound(s: State)
    requires Inv(s) && s.Live? && s.token.Idle? && ExpectsKey(s)
    ensures Reads(s, BeginString(s), [QUOTE])
  {
    var token := InString(s.token.ws, true, [], Settled);
    EmptyTail(s.token.ws + [QUOTE]);
    TokenRenders(s, token, [QUOTE]);
  }

  /** A scalar starts: the position opens and the token holds its first byte. */
  lemma BeginScalarSound(s: State, token: Token, b: byte)
    requires Inv(s) && s.Live? && s.token.Idle? && StartValue(s).Live? && RenderToken(token) == [b]
    requires TokenOk(StartValue(s).(token := token))
    ensures Reads(s, StartValue(s).(token := token), [b])
  {
    StartValueSound(s);
    StartValueRenders(s);
    TokenRenders(StartValue(s), token, [b]);
  }

  lemma BeginStringSound(s: State)
    requires Inv(s) && s.Live? && s.token.Idle?
    ensures Reads(s, BeginString(s), [QUOTE])
  {
    if ExpectsKey(s) {
      BeginKeySound(s);
    } else if StartValue(s).Live? {
      StartValueSound(s);
      BeginScalarSound(s, InString([], false, [], Settled), QUOTE);
    }
  }

  lemma BeginNumberSound(s: State, b: byte)
    requires Inv(s) && s.Live? && s.token.Idle? && (b == MINUS || IsDigit(b))
    ensures Reads(s, BeginNumber(s, b), [b])
  {
    if StartValue(s).Live? {
      StartValueSound(s);
      BeginScalarSound(s, InNumber(NumberText(b == MINUS, if b == MINUS then [] else [b], None, None)), b);
    }
  }

  lemma BeginWordSound(s: State, b: byte)
    requires Inv(s) && s.Live? && s.token.Idle?
    ensures Reads(s, BeginWord(s, b), [b])
  {
    if StartValue(s).Live? {
      StartValueSound(s);
      BeginScalarSound(s, InWord([b]), b);
    }
  }

  lemma StepIdleSound(s: State, b: byte)
    requires Inv(s) && s.Live? && s.token.Idle?
    ensures Reads(s, StepIdle(s, b), [b])
  {
    if IsSpace(b) {
      TokenRenders(s, Idle(s.token.ws + [b]), [b]);
    } else if b == LBRACE {
      EnterSound(s, Object);
    } else if b == LBRACKET {
      EnterSound(s, Array);
    } else if b == RBRACE {
      LeaveSound(s, Object);
    } else if b == RBRACKET {
      LeaveSound(s, Array);
    } else if b == COMMA {
      CommaSound(s);
    } else if b == COLON {
      ColonSound(s);
    } else if b == QUOTE {
      BeginStringSound(s);
    } else if b == MINUS || IsDigit(b) {
      BeginNumberSound(s, b);
    } else {
      BeginWordSound(s, b);
    }
  }

  lemma PiecesPush(ps: seq<Piece>, p: Piece)
    ensures RenderPieces(ps + [p]) == RenderPieces(ps) + RenderPiece(p)
  {
    assert (ps + [p])[..|ps|] == ps;
  }

  lemma RegroupKeyEnd(c: bytes, p: bytes, q: bytes, k: bytes)
    ensures c + p + (q + k + q) + [] == c + (p + q + k + []) + q
  {
  }

  lemma FinishKeySound(s: State)
    requires Inv(s) && s.Live? && s.token.InString? && s.token.isKey && s.token.pending.Settled?
    ensures Reads(s, FinishString(s), [QUOTE])
  {
    var t := s.token;
    var gap := if Top(s).slot.AfterComma? then Top(s).slot.gap else [];
    var slot := AfterKey(gap, t.pre, t.pieces);
    MoveToKeepsStack(s, slot, Idle([]));
    RegroupKeyEnd(RenderSlot(|Top(s).entries|, Top(s).slot), t.pre, [QUOTE], RenderPieces(t.pieces));
    MoveToRenders(s, slot, Idle([]), [QUOTE]);
  }

  lemma RegroupString(q: bytes, k: bytes)
    ensures [] + q + k + [] + q == q + k + q
  {
  }

  lemma FinishTextSound(s: State)
    requires Inv(s) && s.Live? && s.token.InString? && s.token.pending.Settled? && !s.token.isKey
    ensures Reads(s, FinishString(s), [QUOTE])
  {
    var v := Str(s.token.pieces);
    if PlugScalar(s, v).Live? {
      PlugScalarSound(s, v);
      RegroupString([QUOTE], RenderPieces(s.token.pieces));
      Regroup(RenderOpen(s), RenderToken(s.token), [QUOTE]);
    }
  }

  lemma RegroupPiece(p: bytes, q: bytes, r: bytes, x: bytes, y: bytes, z: bytes)
    requires x + z == y
    ensures p + q + (r + y) + [] == p + q + r + x + z
  {
  }

  lemma AddPieceSound(s: State, p: Piece, b: byte)
    requires Inv(s) && s.Live? && s.token.InString? && PieceOk(p)
    requires RenderPending(s.token.pending) + [b] == RenderPiece(p)
    ensures Reads(s, s.(token := s.token.(pieces := s.token.pieces + [p], pending := Settled)), [b])
  {
    var t := s.token;
    PiecesPush(t.pieces, p);
    RegroupPiece(t.pre, [QUOTE], RenderPieces(t.pieces), RenderPending(t.pending), RenderPiece(p), [b]);
    TokenRenders(s, t.(pieces := t.pieces + [p], pending := Settled), [b]);
  }

  lemma SetPendingSound(s: State, p: Pending, b: byte)
    requires Inv(s) && s.Live? && s.token.InString? && PendingOk(p)
    requires RenderPending(s.token.pending) + [b] == RenderPending(p)
    ensures Reads(s, s.(token := s.token.(pending := p)), [b])
  {
    var t := s.token;
    Regroup(t.pre + [QUOTE] + RenderPieces(t.pieces), RenderPending(t.pending), [b]);
    TokenRenders(s, t.(pending := p), [b]);
  }

  lemma StepStringSound(s: State, b: byte)
    requires Inv(s) && s.Live? && s.token.InString?
    ensures Reads(s, StepString(s, b), [b])
  {
    match s.token.pending
    case HexDigits(ds) =>
      if IsHex(b) {
        if |ds| == 3 {
          Regroup([BACKSLASH, LOWER_U], ds, [b]);
          AddPieceSound(s, Unicode(ds + [b]), b);
        } else {
          Regroup([BACKSLASH, LOWER_U], ds, [b]);
          SetPendingSound(s, HexDigits(ds + [b]), b);
        }
      }
    case Backslash =>
      if b == LOWER_U {
        assert [BACKSLASH] + [b] == [BACKSLASH, LOWER_U] + [];
        SetPendingSound(s, HexDigits([]), b);
      } else if IsEscapeLetter(b) {
        AddPieceSound(s, Escape(b), b);
      }
    case Settled =>
      if b == BACKSLASH {
        SetPendingSound(s, Backslash, b);
      } else if b == QUOTE {
        if s.token.isKey { FinishKeySound(s); } else { FinishTextSound(s); }
      } else if b >= SPACE {
        AddPieceSound(s, Plain(b), b);
      }
  }

  lemma ExtendKeepsShape(n: NumberText, b: byte)
    requires PartialNumberOk(n) && Extend(n, b).Some?
    ensures PartialNumberOk(Extend(n, b).value)
  {
  }

  lemma RegroupNumber(m: bytes, i: bytes, f: bytes, e: bytes, x: bytes)
    ensures m + (i + x) == m + i + x
    ensures m + i + (f + x) == m + i + f + x
    ensures m + i + f + (e + x) == m + i + f + e + x
  {
  }

  lemma ExtendRenders(n: NumberText, b: byte)
    requires PartialNumberOk(n) && Extend(n, b).Some?
    ensures RenderNumber(Extend(n, b).value) == RenderNumber(n) + [b]
  {
    var m := Extend(n, b).value;
    var sign := if n.minus then [MINUS] else [];
    var frac := if n.frac.Some? then [DOT] + n.frac.value else [];
    if n.exp.Some? {
      assert RenderExponent(m.exp.value) == RenderExponent(n.exp.value) + [b];
      RegroupNumber(sign, n.whole, frac, RenderExponent(n.exp.value), [b]);
    } else if m.exp.Some? {
      assert RenderExponent(m.exp.value) == [b];
      EmptyTail(sign + n.whole + frac);
    } else if m.frac.Some? {
      assert [DOT] + m.frac.value == frac + [b];
      RegroupNumber(sign, n.whole, frac, [], [b]);
      EmptyTail(sign + n.whole + frac);
      EmptyTail(sign + n.whole + (frac + [b]));
    } else {
      RegroupNumber(sign, n.whole, [], [], [b]);
      EmptyTail(sign + n.whole);
      EmptyTail(sign + n.whole + [b]);
    }
  }

  lemma SettleSound(s: State)
    requires Inv(s) && s.Live? && !s.token.InString? && Settle(s).Live?
    ensures Inv(Settle(s)) && RenderState(Settle(s)) == RenderState(s) && Settle(s).token.Idle?
  {
    match s.token
    case InNumber(n) => PlugScalarSound(s, Num(n));
    case InWord(w) => PlugScalarSound(s, Word(w));
    case _ =>
  }

  lemma StepSound(s: State, b: byte)
    requires Inv(s)
    ensures Inv(Step(s, b)) && Reads(s, Step(s, b), [b])
  {
    if s.Live? {
      match s.token
      case Idle(_) => StepIdleSound(s, b);
      case InString(_, _, _, _) => StepStringSound(s, b);
      case InNumber(n) =>
        if IsDelimiter(b) {
          if Settle(s).Live? { SettleSound(s); StepIdleSound(Settle(s), b); }
        } else if Extend(n, b).Some? {
          ExtendKeepsShape(n, b);
          ExtendRenders(n, b);
          TokenRenders(s, InNumber(Extend(n, b).value), [b]);
        }
      case InWord(w) =>
        if IsDelimiter(b) {
          if Settle(s).Live? { SettleSound(s); StepIdleSound(Settle(s), b); }
        } else {
          TokenRenders(s, InWord(w + [b]), [b]);
        }
    }
  }

  /** A live run has kept every byte it read. */
  lemma {:induction false} RunSound(bs: bytes)
    ensures Inv(Run(START, bs))
    ensures Run(START, bs).Live? ==> RenderState(Run(START, bs)) == bs
  {
    if bs != [] {
      var n := |bs| - 1;
      RunSound(bs[..n]);
      StepSound(Run(START, bs[..n]), bs[n]);
      assert bs[..n] + [bs[n]] == bs;
    }
  }

  /** An accepted text is a payload, and its tree is the one the machine built. */
  lemma AcceptedIsPayload(bs: bytes)
    requires Accepts(Finish(Run(START, bs)))
    ensures IsPayload(bs, DocumentOf(Finish(Run(START, bs))))
  {
    var s := Run(START, bs);
    RunSound(bs);
    SettleSound(s);
    EmptyTail(RenderBase(Settle(s).base));
  }
}
