/**
 The machine accepts every payload: run on the rendering of a well-formed tree within the limits,
 it rebuilds that very tree. Together with soundness this makes it a decision procedure for the
 grammar, and shows that a byte string has at most one tree.
 */
module JsonCompleteness {
  import opened Wrappers
  import opened Bytes
  import opened JsonText
  import opened JsonMachine
  import JsonSoundness

  // ---- Running ----

  lemma RunCons(s: State, b: byte, bs: bytes)
    ensures Run(s, [b] + bs) == Run(Step(s, b), bs)
  {
    RunConcat(s, [b], bs);
    RunOne(s, [], b);
    assert [] + [b] == [b];
  }

  lemma {:induction false} SpaceRuns(s: State, ws: bytes)
    requires s.Live? && s.token.Idle? && AllSpace(ws)
    ensures Run(s, ws) == s.(token := Idle(s.token.ws + ws))
  {
    if ws == [] {
      assert s.token.ws + ws == s.token.ws;
    } else {
      var n := |ws| - 1;
      SpaceRuns(s, ws[..n]);
      assert s.token.ws + ws[..n] + [ws[n]] == s.token.ws + ws;
    }
  }

  /** A delimiter settles an unfinished number or word before it is read itself. */
  lemma DelimiterSettles(s: State, bs: bytes)
    requires s.Live? && !s.token.InString? && Settle(s).Live?
    requires bs != [] && IsDelimiter(bs[0])
    ensures Run(s, bs) == Run(Settle(s), bs)
  {
    assert bs == [bs[0]] + bs[1..];
    RunCons(s, bs[0], bs[1..]);
    RunCons(Settle(s), bs[0], bs[1..]);
  }

  // ---- Strings ----

  function StringState(s: State, pre: bytes, isKey: bool, ps: seq<Piece>, pending: Pending): State
    requires s.Live?
  {
    s.(token := InString(pre, isKey, ps, pending))
  }

  lemma HexRuns(s: State, pre: bytes, isKey: bool, ps: seq<Piece>, hex: bytes)
    requires s.Live? && |hex| == 4 && AllHex(hex)
    ensures Run(StringState(s, pre, isKey, ps, HexDigits([])), hex) ==
      StringState(s, pre, isKey, ps + [Unicode(hex)], Settled)
  {
    var s0 := StringState(s, pre, isKey, ps, HexDigits([]));
    assert hex == [hex[0]] + ([hex[1]] + ([hex[2]] + ([hex[3]] + [])));
    RunCons(s0, hex[0], [hex[1]] + ([hex[2]] + ([hex[3]] + [])));
    assert [] + [hex[0]] == [hex[0]];
    var s1 := StringState(s, pre, isKey, ps, HexDigits([hex[0]]));
    RunCons(s1, hex[1], [hex[2]] + ([hex[3]] + []));
    assert [hex[0]] + [hex[1]] == [hex[0], hex[1]];
    var s2 := StringState(s, pre, isKey, ps, HexDigits([hex[0], hex[1]]));
    RunCons(s2, hex[2], [hex[3]] + []);
    assert [hex[0], hex[1]] + [hex[2]] == [hex[0], hex[1], hex[2]];
    var s3 := StringState(s, pre, isKey, ps, HexDigits([hex[0], hex[1], hex[2]]));
    RunCons(s3, hex[3], []);
    assert [hex[0], hex[1], hex[2]] + [hex[3]] == hex;
  }

  lemma EscapeRuns(s: State, pre: bytes, isKey: bool, ps: seq<Piece>, b: byte, bs: bytes)
    requires s.Live?
    ensures Run(StringState(s, pre, isKey, ps, Settled), [BACKSLASH] + ([b] + bs))
         == Run(Step(StringState(s, pre, isKey, ps, Backslash), b), bs)
  {
    RunCons(StringState(s, pre, isKey, ps, Settled), BACKSLASH, [b] + bs);
    RunCons(StringState(s, pre, isKey, ps, Backslash), b, bs);
  }

  lemma PieceRuns(s: State, pre: bytes, isKey: bool, ps: seq<Piece>, p: Piece)
    requires s.Live? && PieceOk(p)
    ensures Run(StringState(s, pre, isKey, ps, Settled), RenderPiece(p)) ==
      StringState(s, pre, isKey, ps + [p], Settled)
  {
    match p
    case Plain(b) =>
      RunCons(StringState(s, pre, isKey, ps, Settled), b, []);
      assert [b] + [] == [b];
    case Escape(b) =>
      EscapeRuns(s, pre, isKey, ps, b, []);
      assert [BACKSLASH] + ([b] + []) == RenderPiece(p);
    case Unicode(hex) =>
      EscapeRuns(s, pre, isKey, ps, LOWER_U, hex);
      assert [BACKSLASH] + ([LOWER_U] + hex) == RenderPiece(p);
      HexRuns(s, pre, isKey, ps, hex);
  }

  lemma {:induction false} PiecesRun(s: State, pre: bytes, isKey: bool, ps: seq<Piece>)
    requires s.Live? && PiecesOk(ps)
    ensures Run(StringState(s, pre, isKey, [], Settled), RenderPieces(ps)) == StringState(s, pre, isKey, ps, Settled)
  {
    hide Step;
    if ps != [] {
      var n := |ps| - 1;
      PiecesRun(s, pre, isKey, ps[..n]);
      RunConcat(StringState(s, pre, isKey, [], Settled), RenderPieces(ps[..n]), RenderPiece(ps[n]));
      PieceRuns(s, pre, isKey, ps[..n], ps[n]);
      assert ps[..n] + [ps[n]] == ps;
    }
  }

  /** From just inside the opening quote to just past the closing one. */
  lemma StringRuns(s: State, t: State, pre: bytes, isKey: bool, ps: seq<Piece>)
    requires s.Live? && s.token.Idle? && t.Live? && PiecesOk(ps)
    requires Step(s, QUOTE) == StringState(t, pre, isKey, [], Settled)
    ensures Run(s, RenderString(ps)) == FinishString(StringState(t, pre, isKey, ps, Settled))
  {
    assert RenderString(ps) == [QUOTE] + (RenderPieces(ps) + [QUOTE]);
    RunCons(s, QUOTE, RenderPieces(ps) + [QUOTE]);
    PiecesRun(t, pre, isKey, ps);
    RunOne(StringState(t, pre, isKey, [], Settled), RenderPieces(ps), QUOTE);
  }

  // ---- Numbers and words ----

  function NumberState(s: State, n: NumberText): State
    requires s.Live?
  {
    s.(token := InNumber(n))
  }

  lemma WholeStep(s: State, minus: bool, w: bytes, b: byte)
    requires s.Live? && IsDigit(b) && w != [ZERO] && AllDigits(w)
    ensures Step(NumberState(s, NumberText(minus, w, None, None)), b) ==
      NumberState(s, NumberText(minus, w + [b], None, None))
  {
  }

  lemma {:induction false} WholeRuns(s: State, minus: bool, w: bytes, ds: bytes)
    requires s.Live? && IntegerPartOk(w + ds)
    ensures Run(NumberState(s, NumberText(minus, w, None, None)), ds) ==
      NumberState(s, NumberText(minus, w + ds, None, None))
    decreases |ds|
  {
    hide Step;
    if ds == [] {
      assert w + ds == w;
    } else {
      var n := |ds| - 1;
      var front := w + ds[..n];
      assert w + ds == front + [ds[n]] && ds[n] == (w + ds)[|w| + n];
      assert forall i :: 0 <= i < |front| ==> front[i] == (w + ds)[i];
      if front == [] {
        assert ds[..n] == [] && w == [];
      } else {
        WholeRuns(s, minus, w, ds[..n]);
      }
      WholeStep(s, minus, front, ds[n]);
    }
  }

  lemma {:induction false} FractionRuns(s: State, n: NumberText, f: bytes, ds: bytes)
    requires s.Live? && n.exp.None? && AllDigits(ds)
    ensures Run(NumberState(s, n.(frac := Some(f))), ds) == NumberState(s, n.(frac := Some(f + ds)))
    decreases |ds|
  {
    if ds == [] {
      assert f + ds == f;
    } else {
      var k := |ds| - 1;
      FractionRuns(s, n, f, ds[..k]);
      assert f + ds == f + ds[..k] + [ds[k]];
      assert f + ds[..k] == [] ==> f + ds == [ds[k]];
    }
  }

  lemma {:induction false} ExponentRuns(s: State, n: NumberText, e: Exponent, ds: bytes)
    requires s.Live? && AllDigits(ds)
    ensures Run(NumberState(s, n.(exp := Some(e))), ds) == NumberState(s, n.(exp := Some(e.(digits := e.digits + ds))))
    decreases |ds|
  {
    if ds == [] {
      assert e.digits + ds == e.digits;
    } else {
      var k := |ds| - 1;
      ExponentRuns(s, n, e, ds[..k]);
      assert e.digits + ds == e.digits + ds[..k] + [ds[k]];
    }
  }

  lemma FractionPartRuns(s: State, n: NumberText, ds: bytes)
    requires s.Live? && IntegerPartOk(n.whole) && n.frac.None? && n.exp.None? && AllDigits(ds)
    ensures Run(NumberState(s, n), [DOT] + ds) == NumberState(s, n.(frac := Some(ds)))
  {
    RunCons(NumberState(s, n), DOT, ds);
    FractionRuns(s, n, [], ds);
    assert [] + ds == ds;
  }

  lemma ExponentSignRuns(s: State, n: NumberText, mark: byte, sign: bytes)
    requires s.Live? && (sign == [] || sign == [PLUS] || sign == [MINUS])
    ensures Run(NumberState(s, n.(exp := Some(Exponent(mark, [], [])))), sign)
         == NumberState(s, n.(exp := Some(Exponent(mark, sign, []))))
  {
    if sign != [] {
      assert sign == [sign[0]] + [];
      RunCons(NumberState(s, n.(exp := Some(Exponent(mark, [], [])))), sign[0], []);
    }
  }

  lemma ExponentMarkStep(s: State, n: NumberText, mark: byte)
    requires s.Live? && NumberOk(n) && n.exp.None? && (mark == LOWER_E || mark == UPPER_E)
    ensures Step(NumberState(s, n), mark) == NumberState(s, n.(exp := Some(Exponent(mark, [], []))))
  {
  }

  lemma ExponentPartRuns(s: State, n: NumberText, e: Exponent)
    requires s.Live? && NumberOk(n) && n.exp.None? && ExponentHeadOk(e) && AllDigits(e.digits) && e.digits != []
    ensures Run(NumberState(s, n), RenderExponent(e)) == NumberState(s, n.(exp := Some(e)))
  {
    var s1 := NumberState(s, n.(exp := Some(Exponent(e.mark, [], []))));
    assert RenderExponent(e) == [e.mark] + (e.sign + e.digits);
    RunCons(NumberState(s, n), e.mark, e.sign + e.digits);
    ExponentMarkStep(s, n, e.mark);
    RunConcat(s1, e.sign, e.digits);
    ExponentSignRuns(s, n, e.mark, e.sign);
    ExponentRuns(s, n, Exponent(e.mark, e.sign, []), e.digits);
    assert [] + e.digits == e.digits;
  }

  lemma FirstNumberByte(s: State, b: byte)
    requires s.Live? && s.token.Idle? && StartValue(s).Live? && (b == MINUS || IsDigit(b))
    ensures Step(s, b) == NumberState(StartValue(s), NumberText(b == MINUS, if b == MINUS then [] else [b], None, None))
  {
  }

  lemma IntegerRuns(s: State, t: State, minus: bool, whole: bytes)
    requires s.Live? && s.token.Idle? && StartValue(s) == t && t.Live? && IntegerPartOk(whole)
    ensures Run(s, (if minus then [MINUS] else []) + whole) == NumberState(t, NumberText(minus, whole, None, None))
  {
    if minus {
      RunCons(s, MINUS, whole);
      FirstNumberByte(s, MINUS);
      assert [] + whole == whole;
      WholeRuns(t, true, [], whole);
    } else {
      assert [whole[0]] + whole[1..] == whole;
      assert [] + whole == whole;
      RunCons(s, whole[0], whole[1..]);
      FirstNumberByte(s, whole[0]);
      WholeRuns(t, false, [whole[0]], whole[1..]);
    }
  }

  lemma NumberRuns(s: State, n: NumberText)
    requires s.Live? && s.token.Idle? && StartValue(s).Live? && NumberOk(n)
    ensures Run(s, RenderNumber(n)) == NumberState(StartValue(s), n)
  {
    var t := StartValue(s);
    var n0 := n.(frac := None, exp := None);
    var n1 := n.(exp := None);
    var a := (if n.minus then [MINUS] else []) + n.whole;
    var f := if n.frac.Some? then [DOT] + n.frac.value else [];
    var e := if n.exp.Some? then RenderExponent(n.exp.value) else [];
    IntegerRuns(s, t, n.minus, n.whole);
    RunConcat(s, a + f, e);
    RunConcat(s, a, f);
    if n.frac.Some? { FractionPartRuns(t, n0, n.frac.value); }
    assert Run(s, a + f) == NumberState(t, n1);
    if n.exp.Some? { ExponentPartRuns(t, n1, n.exp.value); }
  }

  lemma {:induction false} WordTailRuns(s: State, w: bytes, bs: bytes)
    requires s.Live? && |w| + |bs| <= MAX_WORD && forall i :: 0 <= i < |bs| ==> !IsDelimiter(bs[i])
    ensures Run(s.(token := InWord(w)), bs) == s.(token := InWord(w + bs))
  {
    if bs == [] {
      assert w + bs == w;
    } else {
      var n := |bs| - 1;
      WordTailRuns(s, w, bs[..n]);
      assert w + bs == w + bs[..n] + [bs[n]];
    }
  }

  lemma WordBytes(w: bytes)
    requires IsWord(w)
    ensures 0 < |w| <= MAX_WORD && forall i :: 0 <= i < |w| ==> 0x61 <= w[i] <= 0x7A
  {
  }

  lemma FirstWordByte(s: State, b: byte)
    requires s.Live? && s.token.Idle? && StartValue(s).Live? && 0x61 <= b <= 0x7A
    ensures Step(s, b) == StartValue(s).(token := InWord([b]))
  {
  }

  lemma WordRuns(s: State, w: bytes)
    requires s.Live? && s.token.Idle? && StartValue(s).Live? && IsWord(w)
    ensures Run(s, w) == StartValue(s).(token := InWord(w))
  {
    hide Step, IsWord;
    WordBytes(w);
    assert w == [w[0]] + w[1..];
    RunCons(s, w[0], w[1..]);
    FirstWordByte(s, w[0]);
    WordTailRuns(StartValue(s), [w[0]], w[1..]);
  }

  // ---- Containers ----

  /** A state between tokens with `f` as its innermost frame. */
  function Within(base: Base, rest: seq<Frame>, f: Frame, ws: bytes): (s: State)
    ensures s.Live? && s.stack != [] && Top(s) == f && Rest(s) == rest && s.token == Idle(ws)
  {
    Live(base, rest + [f], Idle(ws))
  }

  lemma CommaStep(base: Base, rest: seq<Frame>, f: Frame, gap: bytes)
    requires f.slot == Between && f.entries != []
    ensures Step(Within(base, rest, f, gap), COMMA) == Within(base, rest, f.(slot := AfterComma(gap)), [])
  {
  }

  lemma SeparatorRuns(base: Base, rest: seq<Frame>, f: Frame, gap: bytes)
    requires f.slot == Between && AllSpace(gap) && (f.entries == [] ==> gap == [])
    ensures Run(Within(base, rest, f, []), Separator(|f.entries|, gap))
         == Within(base, rest, if f.entries == [] then f else f.(slot := AfterComma(gap)), [])
  {
    hide Step;
    if f.entries != [] {
      var s := Within(base, rest, f, []);
      CommaStep(base, rest, f, gap);
      SpaceRuns(s, gap);
      assert [] + gap == gap;
      RunOne(s, gap, COMMA);
    }
  }

  /** The slot of the separator's end, where a key may start. */
  predicate KeyMayStart(f: Frame, gap: bytes) {
    f.kind == Object && ((f.slot == Between && f.entries == [] && gap == []) || f.slot == AfterComma(gap))
  }

  lemma KeySteps(s: State, gap: bytes, key: seq<Piece>)
    requires s.Live? && s.token.Idle? && s.stack != [] && KeyMayStart(Top(s), gap)
    ensures Step(s, QUOTE) == StringState(s, s.token.ws, true, [], Settled)
    ensures FinishString(StringState(s, s.token.ws, true, key, Settled))
         == Live(s.base, Rest(s) + [Top(s).(slot := AfterKey(gap, s.token.ws, key))], Idle([]))
  {
  }

  lemma KeyRuns(base: Base, rest: seq<Frame>, f: Frame, gap: bytes, pre: bytes, key: seq<Piece>)
    requires KeyMayStart(f, gap) && AllSpace(pre) && PiecesOk(key)
    ensures Run(Within(base, rest, f, []), pre + RenderString(key)) ==
      Within(base, rest, f.(slot := AfterKey(gap, pre, key)), [])
  {
    hide Step, FinishString, Run;
    var s := Within(base, rest, f, []);
    var t := Within(base, rest, f, pre);
    RunConcat(s, pre, RenderString(key));
    SpaceRuns(s, pre);
    assert [] + pre == pre;
    KeySteps(t, gap, key);
    StringRuns(t, t, pre, true, key);
  }

  lemma ColonStep(base: Base, rest: seq<Frame>, f: Frame, mid: bytes)
    requires f.kind == Object && f.slot.AfterKey?
    ensures Step(Within(base, rest, f, mid), COLON)
         == Within(base, rest, f.(slot := AfterColon(f.slot.gap, f.slot.pre, f.slot.key, mid)), [])
  {
  }

  lemma ColonRuns(base: Base, rest: seq<Frame>, f: Frame, gap: bytes, pre: bytes, key: seq<Piece>, mid: bytes)
    requires f.kind == Object && f.slot == AfterKey(gap, pre, key) && AllSpace(mid)
    ensures Run(Within(base, rest, f, []), mid + [COLON]) ==
      Within(base, rest, f.(slot := AfterColon(gap, pre, key, mid)), [])
  {
    hide Step;
    var s := Within(base, rest, f, []);
    ColonStep(base, rest, f, mid);
    SpaceRuns(s, mid);
    assert [] + mid == mid;
    RunOne(s, mid, COLON);
  }

  lemma HeadRuns(base: Base, rest: seq<Frame>, f: Frame, gap: bytes, pre: bytes, key: seq<Piece>, mid: bytes)
    requires KeyMayStart(f, gap) && AllSpace(pre) && PiecesOk(key) && AllSpace(mid)
    ensures Run(Within(base, rest, f, []), RenderHead(Keyed(pre, key, mid)))
         == Within(base, rest, f.(slot := AfterColon(gap, pre, key, mid)), [])
  {
    var s := Within(base, rest, f, []);
    assert RenderHead(Keyed(pre, key, mid)) == (pre + RenderString(key)) + (mid + [COLON]);
    RunConcat(s, pre + RenderString(key), mid + [COLON]);
    KeyRuns(base, rest, f, gap, pre, key);
    ColonRuns(base, rest, f.(slot := AfterKey(gap, pre, key)), gap, pre, key, mid);
  }

  /** The state just before the value of an element. */
  function BeforeValue(base: Base, rest: seq<Frame>, f: Frame, e: Entry): State {
    var slot :=
      if e.head.Keyed? then AfterColon(e.gap, e.head.pre, e.head.key, e.head.mid)
      else if f.entries == [] then Between
      else AfterComma(e.gap);
    Within(base, rest, f.(slot := slot), e.lead)
  }

  lemma EntryStartRuns(base: Base, rest: seq<Frame>, f: Frame, e: Entry)
    requires f.slot == Between && EntryShape(f.kind, e) && (f.entries == [] ==> e.gap == [])
    ensures Run(Within(base, rest, f, []), Separator(|f.entries|, e.gap) + RenderHead(e.head) + e.lead)
         == BeforeValue(base, rest, f, e)
  {
    var s := Within(base, rest, f, []);
    var sep := Separator(|f.entries|, e.gap);
    var g := if f.entries == [] then f else f.(slot := AfterComma(e.gap));
    RunConcat(s, sep + RenderHead(e.head), e.lead);
    RunConcat(s, sep, RenderHead(e.head));
    SeparatorRuns(base, rest, f, e.gap);
    if e.head.Keyed? {
      HeadRuns(base, rest, g, e.gap, e.head.pre, e.head.key, e.head.mid);
    }
    SpaceRuns(BeforeValue(base, rest, f, e.(lead := [])), e.lead);
    assert [] + e.lead == e.lead;
  }

  lemma EntryStarts(base: Base, rest: seq<Frame>, f: Frame, e: Entry)
    requires f.slot == Between && EntryShape(f.kind, e) && (f.entries == [] ==> e.gap == [])
    ensures StartValue(BeforeValue(base, rest, f, e))
         == Within(base, rest, f.(slot := Filling(e.gap, e.head, e.lead)), [])
  {
  }

  // ---- Values ----

  /** What running a value must lead to: the value in place, at the latest when it is settled. */
  ghost predicate Places(s: State, t: State, v: Json) {
    && s.Live? && !s.token.InString? && t.Live? && Plug(t, v).Live? && Settle(s) == Plug(t, v)
    && (v.Node? ==> s == Plug(t, v))
  }

  lemma PlugScalarPlaces(s: State, t: State, v: Json)
    requires s.Live? && t.Live? && JsonSoundness.Awaiting(t) && CountersOk(v, ValuePlace(t))
    ensures PlugScalar(t, v) == Plug(t, v) && Plug(t, v).Live? && Plug(t, v).token.Idle?
  {
  }

  lemma StartValueAwaits(s: State)
    requires s.Live? && s.token.Idle? && StartValue(s).Live?
    ensures JsonSoundness.Awaiting(StartValue(s))
    ensures |StartValue(s).stack| == |s.stack| && StartValue(s).token == Idle([])
  {
  }

  lemma TextRuns(s: State, ps: seq<Piece>)
    requires s.Live? && s.token.Idle? && StartValue(s).Live? && PiecesOk(ps)
    ensures Run(s, RenderString(ps)) == PlugScalar(StartValue(s), Str(ps))
  {
    var t := StartValue(s);
    assert Step(s, QUOTE) == StringState(t, [], false, [], Settled) by { assert !ExpectsKey(s); }
    assert FinishString(StringState(t, [], false, ps, Settled)) == PlugScalar(t, Str(ps));
    hide Step, FinishString, PlugScalar, Run;
    StringRuns(s, t, [], false, ps);
  }

  lemma ScalarRuns(s: State, v: Json)
    requires s.Live? && s.token.Idle? && StartValue(s).Live? && !v.Node?
    requires WellFormed(v) && CountersOk(v, ValuePlace(StartValue(s)))
    ensures Places(Run(s, Render(v)), StartValue(s), v)
  {
    var t := StartValue(s);
    StartValueAwaits(s);
    PlugScalarPlaces(s, t, v);
    match v
    case Word(w) => WordRuns(s, w);
    case Num(n) => NumberRuns(s, n);
    case Str(ps) => TextRuns(s, ps);
  }

  /** The first byte of what separates an element from the one before it ends that one. */
  lemma SeparatorDelimits(index: nat, gap: bytes, more: bytes)
    requires index > 0 && AllSpace(gap)
    ensures var sep := Separator(index, gap) + more; sep != [] && IsDelimiter(sep[0])
  {
  }

  lemma AddEntry(base: Base, rest: seq<Frame>, f: Frame, e: Entry)
    requires f.slot == Between
    ensures Plug(Within(base, rest, f.(slot := Filling(e.gap, e.head, e.lead)), []), e.value)
         == Within(base, rest, f.(entries := f.entries + [e]), [])
  {
  }

  lemma RegroupEntry(r: bytes, g: bytes, h: bytes, l: bytes, v: bytes)
    ensures r + g + h + l + v == r + (g + h + l + v)
    ensures g + h + l + v == g + (h + l + v)
  {
  }

  /** From the end of the elements so far to just before the value of the next one. */
  lemma NextEntryRuns(base: Base, rest: seq<Frame>, f: Frame, r: State, e: Entry)
    requires f.slot == Between && EntryShape(f.kind, e) && (f.entries == [] ==> e.gap == [])
    requires r.Live? && !r.token.InString? && Settle(r) == Within(base, rest, f, [])
    requires (f.entries == [] ==> r.token.Idle?)
    ensures Run(r, Separator(|f.entries|, e.gap) + RenderHead(e.head) + e.lead + Render(e.value))
         == Run(BeforeValue(base, rest, f, e), Render(e.value))
  {
    var start := Separator(|f.entries|, e.gap) + RenderHead(e.head) + e.lead;
    var t := Within(base, rest, f, []);
    if f.entries != [] {
      RegroupEntry([], Separator(|f.entries|, e.gap), RenderHead(e.head), e.lead, Render(e.value));
      SeparatorDelimits(|f.entries|, e.gap, RenderHead(e.head) + e.lead + Render(e.value));
      DelimiterSettles(r, start + Render(e.value));
    }
    RunConcat(t, start, Render(e.value));
    EntryStartRuns(base, rest, f, e);
  }

  /** The elements of a container end up in its frame. */
  ghost predicate Collects(base: Base, rest: seq<Frame>, f: Frame, r: State) {
    && r.Live? && !r.token.InString? && Settle(r) == Within(base, rest, f, [])
    && (f.entries == [] ==> r.token.Idle?)
  }

  lemma EntryRuns(base: Base, rest: seq<Frame>, f: Frame, r: State, e: Entry)
    requires f.slot == Between && Collects(base, rest, f, r)
    requires EntryShape(f.kind, e) && (f.entries == [] ==> e.gap == [])
    requires Acceptable(e.value, PlaceUnder(f.place, e.head), MAX_DEPTH - |rest| - 1)
    ensures Collects(base, rest, f.(entries := f.entries + [e]),
                     Run(r, Separator(|f.entries|, e.gap) + RenderHead(e.head) + e.lead + Render(e.value)))
    decreases e
  {
    NextEntryRuns(base, rest, f, r, e);
    EntryStarts(base, rest, f, e);
    ValueRuns(BeforeValue(base, rest, f, e), e.value);
    AddEntry(base, rest, f, e);
  }

  lemma LastEntryOk(kind: Kind, place: Place, es: seq<Entry>, room: int)
    requires es != [] && JsonSoundness.EntriesOk(kind, place, es, room)
    ensures var n := |es| - 1;
      && JsonSoundness.EntriesOk(kind, place, es[..n], room) && EntryShape(kind, es[n]) && (n == 0 ==> es[n].gap == [])
      && Acceptable(es[n].value, PlaceUnder(place, es[n].head), room)
  {
  }

  lemma NodeEntriesOk(v: Json, p: Place, room: int)
    requires v.Node? && Acceptable(v, p, room)
    ensures JsonSoundness.EntriesOk(v.kind, p, v.entries, room - 1) && AllSpace(v.close) && p != Counter && room > 0
  {
  }

  lemma NothingCollected(base: Base, rest: seq<Frame>, f: Frame)
    requires f.slot == Between && f.entries == []
    ensures Collects(base, rest, f, Run(Within(base, rest, f, []), RenderEntries([])))
  {
  }

  lemma RunLastEntry(s: State, es: seq<Entry>)
    requires es != []
    ensures var n := |es| - 1;
      var last := Separator(n, es[n].gap) + RenderHead(es[n].head) + es[n].lead + Render(es[n].value);
      Run(s, RenderEntries(es)) == Run(Run(s, RenderEntries(es[..n])), last)
  {
    hide Step;
    var n := |es| - 1;
    var e := es[n];
    RegroupEntry(RenderEntries(es[..n]), Separator(n, e.gap), RenderHead(e.head), e.lead, Render(e.value));
    RunConcat(s, RenderEntries(es[..n]), Separator(n, e.gap) + RenderHead(e.head) + e.lead + Render(e.value));
  }

  lemma {:induction false} EntriesRun(base: Base, rest: seq<Frame>, f: Frame)
    requires f.slot == Between && JsonSoundness.EntriesOk(f.kind, f.place, f.entries, MAX_DEPTH - |rest| - 1)
    ensures Collects(base, rest, f, Run(Within(base, rest, f.(entries := []), []), RenderEntries(f.entries)))
    decreases f.entries, 0
  {
    hide Step, Run, Settle, Collects, EntryShape, Acceptable, RenderEntries, JsonSoundness.EntriesOk;
    var es := f.entries;
    var s := Within(base, rest, f.(entries := []), []);
    if es == [] {
      NothingCollected(base, rest, f);
    } else {
      var n := |es| - 1;
      var e := es[n];
      var g := f.(entries := es[..n]);
      LastEntryOk(f.kind, f.place, es, MAX_DEPTH - |rest| - 1);
      EntriesRun(base, rest, g);
      RunLastEntry(s, es);
      EntryRuns(base, rest, g, Run(s, RenderEntries(es[..n])), e);
      assert es[..n] + [e] == es;
    }
  }

  lemma CloseStep(base: Base, rest: seq<Frame>, f: Frame, close: bytes)
    ensures Step(Within(base, rest, f, close), CloseByte(f.kind)) == Leave(Within(base, rest, f, close), f.kind)
  {
  }

  lemma CloseRuns(base: Base, rest: seq<Frame>, f: Frame, r: State, close: bytes)
    requires f.slot == Between && AllSpace(close) && Collects(base, rest, f, r)
    ensures Run(r, close + [CloseByte(f.kind)]) == Leave(Within(base, rest, f, close), f.kind)
  {
    hide Step, Leave;
    var t := Within(base, rest, f, []);
    DelimiterSettles(r, close + [CloseByte(f.kind)]);
    CloseStep(base, rest, f, close);
    SpaceRuns(t, close);
    assert [] + close == close;
    RunOne(t, close, CloseByte(f.kind));
  }

  lemma RegroupNode(o: bytes, e: bytes, w: bytes, c: bytes)
    ensures o + e + w + c == o + (e + (w + c))
  {
  }

  lemma OpenStep(s: State, kind: Kind)
    requires s.Live? && s.token.Idle? && StartValue(s).Live?
    requires ValuePlace(StartValue(s)) != Counter && |s.stack| < MAX_DEPTH
    ensures var t := StartValue(s);
      Step(s, OpenByte(kind)) == Within(t.base, t.stack, Frame(kind, ValuePlace(t), [], Between), [])
  {
    StartValueAwaits(s);
  }

  lemma LeaveStep(t: State, f: Frame, close: bytes)
    requires t.Live? && JsonSoundness.Awaiting(t) && f.slot == Between
    ensures Leave(Within(t.base, t.stack, f, close), f.kind) == Plug(t, Node(f.kind, f.entries, close))
    ensures Plug(t, Node(f.kind, f.entries, close)).Live? && Plug(t, Node(f.kind, f.entries, close)).token.Idle?
  {
  }

  lemma NodeRuns(s: State, kind: Kind, entries: seq<Entry>, close: bytes)
    requires s.Live? && s.token.Idle? && StartValue(s).Live?
    requires Acceptable(Node(kind, entries, close), ValuePlace(StartValue(s)), MAX_DEPTH - |s.stack|)
    ensures Places(Run(s, Render(Node(kind, entries, close))), StartValue(s), Node(kind, entries, close))
    decreases entries, 1
  {
    hide Step, Run, StartValue, EntryShape;
    var t := StartValue(s);
    StartValueAwaits(s);
    NodeEntriesOk(Node(kind, entries, close), ValuePlace(t), MAX_DEPTH - |s.stack|);
    OpenStep(s, kind);
    var f := Frame(kind, ValuePlace(t), entries, Between);
    var entered := Within(t.base, t.stack, f.(entries := []), []);
    RegroupNode([OpenByte(kind)], RenderEntries(entries), close, [CloseByte(kind)]);
    RunCons(s, OpenByte(kind), RenderEntries(entries) + (close + [CloseByte(kind)]));
    RunConcat(entered, RenderEntries(entries), close + [CloseByte(kind)]);
    EntriesRun(t.base, t.stack, f);
    CloseRuns(t.base, t.stack, f, Run(entered, RenderEntries(entries)), close);
    LeaveStep(t, f, close);
  }

  /** Run on a value, the machine puts that value in place. */
  lemma {:induction false} ValueRuns(s: State, v: Json)
    requires s.Live? && s.token.Idle? && StartValue(s).Live?
    requires Acceptable(v, ValuePlace(StartValue(s)), MAX_DEPTH - |s.stack|)
    ensures Places(Run(s, Render(v)), StartValue(s), v)
    decreases v
  {
    match v
    case Node(kind, entries, close) => NodeRuns(s, kind, entries, close);
    case _ => ScalarRuns(s, v);
  }

  lemma LeadingSpaceRuns(lead: bytes, value: bytes, trail: bytes)
    requires AllSpace(lead)
    ensures Run(START, lead + value + trail) == Run(Run(START.(token := Idle(lead)), value), trail)
  {
    hide Step;
    RunConcat(START, lead + value, trail);
    RunConcat(START, lead, value);
    SpaceRuns(START, lead);
    assert [] + lead == lead;
  }

  lemma TrailingSpaceRuns(r: State, trail: bytes)
    requires r.Live? && !r.token.InString? && Settle(r).Live? && Settle(r).token == Idle([]) && AllSpace(trail)
    ensures Finish(Run(r, trail)) == Settle(r).(token := Idle(trail))
  {
    hide Step;
    if trail != [] { DelimiterSettles(r, trail); }
    SpaceRuns(Settle(r), trail);
    assert [] + trail == trail;
  }

  /** Every payload is accepted, with the tree it was rendered from. */
  lemma PayloadIsAccepted(bs: bytes, d: Document)
    requires IsPayload(bs, d)
    ensures Accepts(Finish(Run(START, bs))) && DocumentOf(Finish(Run(START, bs))) == d
  {
    var s := START.(token := Idle(d.lead));
    var r := Run(s, Render(d.value));
    LeadingSpaceRuns(d.lead, Render(d.value), d.trail);
    ValueRuns(s, d.value);
    TrailingSpaceRuns(r, d.trail);
  }

  /** The parser's language, decided: acceptance is being a payload, and the tree is unique. */
  lemma AcceptsIffPayload(bs: bytes)
    ensures Accepts(Finish(Run(START, bs))) <==> exists d :: IsPayload(bs, d)
    ensures forall d :: IsPayload(bs, d) ==> Accepts(Finish(Run(START, bs))) && DocumentOf(Finish(Run(START, bs))) == d
  {
    if Accepts(Finish(Run(START, bs))) {
      JsonSoundness.AcceptedIsPayload(bs);
    }
    forall d | IsPayload(bs, d)
      ensures Accepts(Finish(Run(START, bs))) && DocumentOf(Finish(Run(START, bs))) == d
    {
      PayloadIsAccepted(bs, d);
    }
  }
}
