/**
 A push-down machine that reads a JSON text byte by byte and builds its tree as it goes.

 It is the unbounded reference for the streaming parser: it keeps every byte it has read inside a
 partial tree, stops in `Failed` at the first byte the parser objects to, and knows nothing of
 buffers, flags or overflow counters.
 */
module JsonMachine {
  import opened Wrappers
  import opened Bytes
  import opened JsonText

  /** How far the innermost container has come. */
  datatype Slot =
    | Between
    | AfterComma(gap: bytes)
    | AfterKey(gap: bytes, pre: bytes, key: seq<Piece>)
    | AfterColon(gap: bytes, pre: bytes, key: seq<Piece>, mid: bytes)
    | Filling(gap: bytes, head: Head, lead: bytes)

  datatype Frame = Frame(kind: Kind, place: Place, entries: seq<Entry>, slot: Slot)

  datatype Pending = Settled | Backslash | HexDigits(digits: bytes)

  datatype Token =
    | Idle(ws: bytes)
    | InString(pre: bytes, isKey: bool, pieces: seq<Piece>, pending: Pending)
    | InNumber(number: NumberText)
    | InWord(word: bytes)

  datatype Base = Empty | Open(lead: bytes) | Done(lead: bytes, value: Json)

  datatype State = Failed | Live(base: Base, stack: seq<Frame>, token: Token)

  const START: State := Live(Empty, [], Idle([]))

  // ---- The stack ----

  function Top(s: State): Frame
    requires s.Live? && s.stack != []
  {
    s.stack[|s.stack| - 1]
  }

  function Rest(s: State): seq<Frame>
    requires s.Live? && s.stack != []
  {
    s.stack[..|s.stack| - 1]
  }

  /** The state with the innermost frame at another slot, reading another token. */
  function MoveTo(s: State, slot: Slot, token: Token): State
    requires s.Live? && s.stack != []
  {
    Live(s.base, Rest(s) + [Top(s).(slot := slot)], token)
  }

  /** The place of the value being filled in. */
  function ValuePlace(s: State): Place
    requires s.Live?
  {
    if s.stack == [] then Root
    else if Top(s).slot.Filling? then PlaceUnder(Top(s).place, Top(s).slot.head)
    else Elsewhere
  }

  // ---- Values ----

  /** Opens the position for a value, if one may start here. */
  function StartValue(s: State): State
    requires s.Live? && s.token.Idle?
  {
    var ws := s.token.ws;
    if s.stack == [] then
      if s.base.Empty? then Live(Open(ws), [], Idle([])) else Failed
    else
      var f := Top(s);
      if f.kind == Object && f.slot.AfterColon? then
        MoveTo(s, Filling(f.slot.gap, Keyed(f.slot.pre, f.slot.key, f.slot.mid), ws), Idle([]))
      else if f.kind == Array && f.slot.Between? && f.entries == [] then
        MoveTo(s, Filling([], Bare, ws), Idle([]))
      else if f.kind == Array && f.slot.AfterComma? then
        MoveTo(s, Filling(f.slot.gap, Bare, ws), Idle([]))
      else Failed
  }

  /** Puts a finished value into the open position. */
  function Plug(s: State, v: Json): State
    requires s.Live?
  {
    if s.stack == [] then
      if s.base.Open? then Live(Done(s.base.lead, v), [], Idle([])) else Failed
    else
      var f := Top(s);
      if f.slot.Filling? then
        var e := Entry(f.slot.gap, f.slot.head, f.slot.lead, v);
        Live(s.base, Rest(s) + [Frame(f.kind, f.place, f.entries + [e], Between)], Idle([]))
      else Failed
  }

  /** Puts a finished scalar into the open position, unless that is a counter and the scalar is none. */
  function PlugScalar(s: State, v: Json): State
    requires s.Live?
  {
    if ValuePlace(s) == Counter && !IsCount(v) then Failed else Plug(s, v)
  }

  // ---- Structural bytes ----

  function Enter(s: State, kind: Kind): State
    requires s.Live? && s.token.Idle?
  {
    var t := StartValue(s);
    if t.Failed? || ValuePlace(t) == Counter || |t.stack| >= MAX_DEPTH then Failed
    else t.(stack := t.stack + [Frame(kind, ValuePlace(t), [], Between)])
  }

  function Leave(s: State, kind: Kind): State
    requires s.Live? && s.token.Idle?
  {
    if s.stack == [] || Top(s).kind != kind || !Top(s).slot.Between? then Failed
    else Plug(s.(stack := Rest(s)), Node(kind, Top(s).entries, s.token.ws))
  }

  function Comma(s: State): State
    requires s.Live? && s.token.Idle?
  {
    if s.stack == [] || !Top(s).slot.Between? || Top(s).entries == [] then Failed
    else MoveTo(s, AfterComma(s.token.ws), Idle([]))
  }

  function Colon(s: State): State
    requires s.Live? && s.token.Idle?
  {
    if s.stack == [] || Top(s).kind != Object || !Top(s).slot.AfterKey? then Failed
    else
      var k := Top(s).slot;
      MoveTo(s, AfterColon(k.gap, k.pre, k.key, s.token.ws), Idle([]))
  }

  predicate ExpectsKey(s: State) {
    && s.Live? && s.stack != [] && Top(s).kind == Object
    && ((Top(s).slot.Between? && Top(s).entries == []) || Top(s).slot.AfterComma?)
  }

  function BeginString(s: State): State
    requires s.Live? && s.token.Idle?
  {
    if ExpectsKey(s) then s.(token := InString(s.token.ws, true, [], Settled))
    else
      var t := StartValue(s);
      if t.Failed? then Failed else t.(token := InString([], false, [], Settled))
  }

  function BeginNumber(s: State, b: byte): State
    requires s.Live? && s.token.Idle?
  {
    var t := StartValue(s);
    if t.Failed? then Failed
    else t.(token := InNumber(NumberText(b == MINUS, if b == MINUS then [] else [b], None, None)))
  }

  function BeginWord(s: State, b: byte): State
    requires s.Live? && s.token.Idle?
  {
    var t := StartValue(s);
    if t.Failed? then Failed else t.(token := InWord([b]))
  }

  function StepIdle(s: State, b: byte): State
    requires s.Live? && s.token.Idle?
  {
    if IsSpace(b) then s.(token := Idle(s.token.ws + [b]))
    else if b == LBRACE then Enter(s, Object)
    else if b == LBRACKET then Enter(s, Array)
    else if b == RBRACE then Leave(s, Object)
    else if b == RBRACKET then Leave(s, Array)
    else if b == COMMA then Comma(s)
    else if b == COLON then Colon(s)
    else if b == QUOTE then BeginString(s)
    else if b == MINUS || IsDigit(b) then BeginNumber(s, b)
    else BeginWord(s, b)
  }

  // ---- Strings ----

  function FinishString(s: State): State
    requires s.Live? && s.token.InString?
  {
    var t := s.token;
    if !t.isKey then PlugScalar(s, Str(t.pieces))
    else if !ExpectsKey(s) then Failed
    else
      var gap := if Top(s).slot.AfterComma? then Top(s).slot.gap else [];
      MoveTo(s, AfterKey(gap, t.pre, t.pieces), Idle([]))
  }

  function StepString(s: State, b: byte): State
    requires s.Live? && s.token.InString?
  {
    var t := s.token;
    match t.pending
    case HexDigits(ds) =>
      if !IsHex(b) then Failed
      else if |ds| == 3 then s.(token := t.(pieces := t.pieces + [Unicode(ds + [b])], pending := Settled))
      else s.(token := t.(pending := HexDigits(ds + [b])))
    case Backslash =>
      if b == LOWER_U then s.(token := t.(pending := HexDigits([])))
      else if IsEscapeLetter(b) then s.(token := t.(pieces := t.pieces + [Escape(b)], pending := Settled))
      else Failed
    case Settled =>
      if b == BACKSLASH then s.(token := t.(pending := Backslash))
      else if b == QUOTE then FinishString(s)
      else if b < SPACE then Failed
      else s.(token := t.(pieces := t.pieces + [Plain(b)]))
  }

  // ---- Numbers ----

  datatype Phase =
    | AtMinus | AtZero | AtInteger | AtFractionStart | AtFraction
    | AtExponentStart | AtExponentSign | AtExponent

  /** The state of the number automaton, read off the text so far. */
  function PhaseOf(n: NumberText): Phase {
    if n.exp.Some? then
      if n.exp.value.digits != [] then AtExponent
      else if n.exp.value.sign != [] then AtExponentSign
      else AtExponentStart
    else if n.frac.Some? then
      if n.frac.value != [] then AtFraction else AtFractionStart
    else if n.whole == [] then AtMinus
    else if n.whole == [ZERO] then AtZero
    else AtInteger
  }

  /** The number text with one more byte, or nothing if no number continues that way. */
  function Extend(n: NumberText, b: byte): Option<NumberText> {
    var withDigit := if IsDigit(b) then Some(n.(whole := n.whole + [b])) else None;
    var withDot := Some(n.(frac := Some([])));
    var withMark := Some(n.(exp := Some(Exponent(b, [], []))));
    var isMark := b == LOWER_E || b == UPPER_E;
    match PhaseOf(n)
    case AtMinus => withDigit
    case AtZero => if b == DOT then withDot else if isMark then withMark else None
    case AtInteger => if b == DOT then withDot else if isMark then withMark else withDigit
    case AtFractionStart => if IsDigit(b) then Some(n.(frac := Some([b]))) else None
    case AtFraction =>
      if isMark then withMark
      else if IsDigit(b) && n.frac.Some? then Some(n.(frac := Some(n.frac.value + [b])))
      else None
    case _ =>
      if n.exp.None? then None
      else if n.exp.value.digits == [] && n.exp.value.sign == [] && (b == PLUS || b == MINUS) then
        Some(n.(exp := Some(n.exp.value.(sign := [b]))))
      else if IsDigit(b) then Some(n.(exp := Some(n.exp.value.(digits := n.exp.value.digits + [b]))))
      else None
  }

  predicate PhaseIsComplete(p: Phase) {
    p == AtZero || p == AtInteger || p == AtFraction || p == AtExponent
  }

  // ---- The machine ----

  const MAX_WORD: nat := 5

  /** Completes a number or word that the next byte, or the end of the text, cuts off. */
  function Settle(s: State): State
    requires s.Live?
  {
    match s.token
    case InNumber(n) => if PhaseIsComplete(PhaseOf(n)) then PlugScalar(s, Num(n)) else Failed
    case InWord(w) => if IsWord(w) then PlugScalar(s, Word(w)) else Failed
    case _ => s
  }

  function SettleThen(s: State, b: byte): State
    requires s.Live? && (s.token.InNumber? || s.token.InWord?)
  {
    var t := Settle(s);
    if t.Failed? then Failed else StepIdle(t, b)
  }

  function Step(s: State, b: byte): State {
    if s.Failed? then Failed
    else match s.token
      case Idle(_) => StepIdle(s, b)
      case InString(_, _, _, _) => StepString(s, b)
      case InNumber(n) =>
        if IsDelimiter(b) then SettleThen(s, b)
        else (match Extend(n, b)
              case None => Failed
              case Some(m) => s.(token := InNumber(m)))
      case InWord(w) =>
        if IsDelimiter(b) then SettleThen(s, b)
        else if |w| < MAX_WORD then s.(token := InWord(w + [b]))
        else Failed
  }

  function Run(s: State, bs: bytes): State {
    if bs == [] then s else Step(Run(s, bs[..|bs| - 1]), bs[|bs| - 1])
  }

  /** The state after the end of the text. */
  function Finish(s: State): State {
    if s.Failed? || s.token.InString? then Failed else Settle(s)
  }

  predicate Accepts(s: State) {
    s.Live? && s.stack == [] && s.base.Done? && s.token.Idle?
  }

  function DocumentOf(s: State): Document
    requires Accepts(s)
  {
    Document(s.base.lead, s.base.value, s.token.ws)
  }

  lemma {:induction false} RunConcat(s: State, a: bytes, b: bytes)
    ensures Run(s, a + b) == Run(Run(s, a), b)
    decreases |b|
  {
    if b == [] {
      assert a + b == a;
    } else {
      var n := |b| - 1;
      assert (a + b)[..|a + b| - 1] == a + b[..n];
      RunConcat(s, a, b[..n]);
    }
  }

  lemma RunOne(s: State, bs: bytes, b: byte)
    ensures Run(s, bs + [b]) == Step(Run(s, bs), b)
  {
    assert (bs + [b])[..|bs + [b]| - 1] == bs;
  }
}
