/**
 The streaming JSON parser that picks token counters out of a payload: fixed buffers, a bounded
 frame stack and a handful of flags, updated in place by every byte. It is proved against the
 reference machine; what it accepts and reads is then stated on the bytes alone.
 */
module UsageJson {
  import opened Wrappers
  import opened Bytes
  import opened JsonText
  import opened JsonMachine
  import opened JsonSoundness
  import opened JsonFrames
  import opened JsonCore
  import JsonCompleteness

  datatype Mode = NormalMode | StringMode | NumberMode | LiteralMode

  const MAX_STRING: nat := 64

  predicate IsInteger(p: Phase) {
    p == AtZero || p == AtInteger
  }

  /** The accumulator of a number's integer part: exact while the value fits, and never past the limit. */
  predicate Accumulates(digits: bytes, number: int, fits: bool) {
    && 0 <= number <= MAX_INT && AllDigits(digits)
    && (fits <==> Decimal(digits) <= MAX_INT)
    && (fits ==> number == Decimal(digits))
  }

  /** One more digit, with the overflow test made before the multiplication. */
  function Accumulate(number: int, fits: bool, digit: byte): (int, bool)
    requires IsDigit(digit)
  {
    var d := (digit - ZERO) as int;
    if number > (MAX_INT - d) / 10 then (number, false) else (number * 10 + d, fits)
  }

  lemma AccumulateStep(digits: bytes, number: int, fits: bool, digit: byte)
    requires Accumulates(digits, number, fits) && IsDigit(digit)
    ensures var (n, f) := Accumulate(number, fits, digit); Accumulates(digits + [digit], n, f)
  {
    assert (digits + [digit])[..|digits|] == digits;
  }

  function AccumulateAll(digits: bytes): (int, bool)
    requires AllDigits(digits)
  {
    if digits == [] then (0, true) else
      var n := |digits| - 1;
      var (number, fits) := AccumulateAll(digits[..n]);
      Accumulate(number, fits, digits[n])
  }

  /** For every run of digits: the flag tells whether the value fits, and then the number is the value. */
  lemma {:induction false} AccumulateAllCorrect(digits: bytes)
    requires AllDigits(digits)
    ensures var (n, f) := AccumulateAll(digits); Accumulates(digits, n, f)
  {
    if digits != [] {
      var n := |digits| - 1;
      AccumulateAllCorrect(digits[..n]);
      var (number, fits) := AccumulateAll(digits[..n]);
      AccumulateStep(digits[..n], number, fits, digits[n]);
      assert digits[..n] + [digits[n]] == digits;
    }
  }

  lemma NoPieces()
    ensures PlainBytes([]) == [] && !HasEscape([])
  {
  }

  lemma FirstDigit(b: byte)
    ensures IsDigit(b) ==> var (n, f) := Accumulate(0, true, b); Accumulates([b], n, f)
    ensures Accumulates([], 0, true)
  {
    if IsDigit(b) {
      AccumulateStep([], 0, true, b);
      assert [] + [b] == [b];
    }
  }

  lemma NumberTokenStarts(s: State, b: byte)
    requires s.Live? && s.token.Idle? && (b == MINUS || IsDigit(b))
    ensures BeginNumber(s, b).Live? ==>
      var t := BeginNumber(s, b).token;
      && t.InNumber? && t.number.minus == (b == MINUS) && t.number.whole == (if b == MINUS then [] else [b])
      && PhaseOf(t.number) == (if b == MINUS then AtMinus else if b == ZERO then AtZero else AtInteger)
  {
  }

  lemma WordTokenStarts(s: State, b: byte)
    requires s.Live? && s.token.Idle?
    ensures BeginWord(s, b).Live? ==> BeginWord(s, b).token == InWord([b])
  {
  }

  lemma LongNames(name: bytes)
    ensures |name| > MAX_STRING ==> TerminalForName(name) == NotTerminal
  {
    assert |RESPONSE_COMPLETED| == 18 && |RESPONSE_INCOMPLETE| == 19;
  }

  lemma FinishIsIdle(s: State)
    requires s.Live? && s.token.InString?
    ensures FinishString(s).Live? ==> FinishString(s).token.Idle?
  {
  }

  /** What the fields know of a settled number describes it. */
  lemma NumberDescribed(n: NumberText, number: int, fits: bool)
    requires PartialNumberOk(n) && PhaseIsComplete(PhaseOf(n)) && Accumulates(n.whole, number, fits)
    ensures Describes(if IsInteger(PhaseOf(n)) && fits && !n.minus then AnInteger(number) else Another, Num(n))
  {
  }

  lemma FailureStays(b: byte)
    ensures Step(Failed, b) == Failed
  {
  }

  lemma IdleIsSettled(s: State)
    requires s.Live? && s.token.Idle?
    ensures Settle(s) == s
  {
  }

  lemma FinishIsSettled(s: State)
    ensures Finish(s).Live? ==> Finish(s).token.Idle?
  {
  }

  lemma SettleIsIdle(s: State)
    requires s.Live? && !s.token.InString?
    ensures Settle(s).Live? ==> Settle(s).token.Idle?
  {
  }

  class UsageJsonParser {
    const frames: array<JsonFrame>
    var depth: int
    var overflowDepth: int
    var mode: Mode
    var rootState: RootState
    var numberState: Phase
    var number: int
    var numberFits: bool
    var numberNegative: bool
    const stringBuffer: array<byte>
    var stringLength: int
    var stringTooLong: bool
    var stringEscaped: bool
    var stringEscape: bool
    var stringUnicodeDigits: int
    var stringIsKey: bool
    const literalBuffer: array<byte>
    var literalLength: int
    var invalid: bool
    var terminal: Terminal
    var usage: Usage
    var contentSeen: bool

    /** The bytes consumed since the last reset. */
    ghost var fed: bytes

    // ---- Invariants ----

    ghost predicate InRange()
      reads this
    {
      && frames.Length == MAX_DEPTH && stringBuffer.Length == MAX_STRING && literalBuffer.Length == MAX_WORD
      && 0 <= depth <= MAX_DEPTH && 0 <= overflowDepth
    }

    /** What holds after every byte, of a valid text or not. */
    ghost predicate Safe()
      reads this, frames
    {
      && InRange()
      && (overflowDepth > 0 ==> depth == MAX_DEPTH && invalid)
      && 0 <= stringLength && (stringTooLong <==> stringLength > MAX_STRING)
      && 0 <= stringUnicodeDigits <= 4
      && (mode == StringMode && stringIsKey ==> ExpectsObjectKey())
      && 0 <= literalLength && (mode == LiteralMode && literalLength > MAX_WORD ==> invalid)
      && 0 <= number <= MAX_INT
    }

    ghost function CoreNow(): Core
      requires InRange()
      reads this, frames
    {
      Core(frames[..depth], rootState, usage, terminal)
    }

    /** The parser took an operation of the core, from a text that was or was not valid before. */
    ghost predicate Took(wasInvalid: bool, next: Option<Core>)
      reads this, frames
    {
      && Safe()
      && (wasInvalid ==> invalid)
      && (!wasInvalid ==> (invalid <==> next.None?) && (next.Some? ==> CoreNow() == next.value))
    }

    ghost function FlagsNow(): Flags
      reads this
    {
      Flags(stringIsKey, stringEscaped, stringEscape, stringUnicodeDigits)
    }

    ghost predicate TextMatches(ps: seq<Piece>)
      requires InRange()
      reads this, stringBuffer
    {
      && stringLength == |PlainBytes(ps)|
      && (stringLength <= MAX_STRING ==> stringBuffer[..stringLength] == PlainBytes(ps))
    }

    ghost predicate TokenMatches(t: Token)
      requires InRange()
      reads this, stringBuffer, literalBuffer
    {
      match t
      case Idle(_) => mode == NormalMode
      case InString(_, _, ps, _) =>
        mode == StringMode && FlagsMatch(FlagsNow(), t) && TextMatches(ps)
      case InNumber(n) =>
        && mode == NumberMode && numberState == PhaseOf(n) && numberNegative == n.minus
        && Accumulates(n.whole, number, numberFits)
      case InWord(w) =>
        mode == LiteralMode && literalLength == |w| && |w| <= MAX_WORD && literalBuffer[..literalLength] == w
    }

    /** The fields stand for a state of the machine. */
    ghost predicate Matches(s: State)
      reads this, frames, stringBuffer, literalBuffer
    {
      && Safe()
      && (invalid <==> s.Failed?)
      && (s.Live? ==> Inv(s) && CoreMatches(CoreNow(), s) && TokenMatches(s.token))
    }

    // ---- Tests on the open frames ----

    predicate ExpectsObjectKey()
      requires InRange()
      reads this, frames
    {
      overflowDepth == 0 && ExpectsKeyIn(frames[..depth])
    }

    predicate CurrentValueIsRootType()
      requires InRange()
      reads this, frames
    {
      overflowDepth == 0 && IsRootType(frames[..depth])
    }

    predicate IsRootUsageCounter()
      requires InRange()
      reads this, frames
    {
      overflowDepth == 0 && IsCounterValue(frames[..depth])
    }

    // ---- Values ----

    method ClearSupersededStructuralUsage()
      requires Safe()
      modifies this`usage
      ensures usage == if overflowDepth == 0 then ClearedAt(old(usage), frames[..depth]) else old(usage)
    {
      if overflowDepth == 0 {
        var path := frames[..depth];
        if IsResponseValue(path) || IsUsageValue(path) {
          usage := NO_USAGE;
        } else if IsDetailsValue(path) {
          usage := usage.(promptTokensDetails := None);
        }
      }
    }

    method BeginValue() returns (ok: bool)
      requires Safe() && mode == NormalMode
      modifies this`rootState, frames
      ensures Safe()
      ensures depth == 0 ==>
        (ok <==> old(rootState) == RootValue) && rootState == RootComplete && frames[..] == old(frames[..])
      ensures depth > 0 ==> rootState == old(rootState)
      ensures depth > 0 && overflowDepth > 0 ==> ok && frames[..] == old(frames[..])
      ensures depth > 0 && overflowDepth == 0 ==>
        && (ok <==> Started(old(frames[depth - 1])).Some?)
        && frames[..] == if ok then old(frames[..])[depth - 1 := Started(old(frames[depth - 1])).value]
          else old(frames[..])
    {
      if depth == 0 {
        if rootState != RootValue {
          return false;
        }
        rootState := RootComplete;
        return true;
      }
      if overflowDepth > 0 {
        return true;
      }
      var frame := frames[depth - 1];
      if frame.container == Object && frame.objectState == ValueNext {
        frames[depth - 1] := frame.(objectState := CommaOrEnd);
        return true;
      }
      if frame.container == Array && (frame.arrayState == ItemOrEnd || frame.arrayState == ItemNext) {
        frames[depth - 1] := frame.(arrayState := ItemCommaOrEnd);
        return true;
      }
      return false;
    }

    /** Starts a value of any kind at the current position. */
    method StartNext()
      requires Safe() && mode == NormalMode
      modifies this`usage, this`rootState, this`invalid, frames
      ensures Took(old(invalid), Begun(old(CoreNow())))
    {
      hide Started, IsResponseValue, IsUsageValue, IsDetailsValue, ExpectsKeyIn;
      ghost var path := frames[..depth];
      ClearSupersededStructuralUsage();
      var ok := BeginValue();
      if !ok {
        invalid := true;
      }
      if path == [] { NothingCleared(old(usage)); }
      else if overflowDepth == 0 && ok { assert frames[..depth] == path[depth - 1 := Started(path[depth - 1]).value]; }
    }

    method CompleteScalar()
      requires Safe()
      modifies frames
      ensures Safe()
      ensures overflowDepth == 0 ==> frames[..depth] == CompletedPath(old(frames[..depth]))
    {
      if depth == 0 || overflowDepth > 0 {
        return;
      }
      if frames[depth - 1].container == Object {
        frames[depth - 1] := frames[depth - 1].(currentKey := NoKey);
      }
    }

    method RecordUsageNumber(value: int)
      requires Safe()
      modifies this`usage
      ensures usage == if overflowDepth == 0 then RecordedAt(old(usage), frames[..depth], value) else old(usage)
    {
      if overflowDepth > 0 {
        return;
      }
      var path := frames[..depth];
      if depth == 3 && InUsageObject(path) {
        match path[2].currentKey
        case KeyInputTokens => usage := usage.(inputTokens := value, promptTokens := value);
        case KeyOutputTokens => usage := usage.(outputTokens := value, completionTokens := value);
        case KeyTotalTokens => usage := usage.(totalTokens := value);
        case _ =>
      }
      if depth == 4 && InUsageObject(path) && IsObjectAt(path[3], KeyInputTokensDetails)
         && path[3].currentKey == KeyCachedTokens {
        usage := usage.(promptTokensDetails := Some(TokensDetails(value)));
      }
    }

    // ---- Structural bytes ----

    method PushFrame(container: Kind)
      requires Safe() && mode == NormalMode
      modifies this`depth, this`overflowDepth, this`invalid, frames
      ensures Safe() && (old(invalid) ==> invalid)
      ensures !old(invalid) ==> (invalid <==> old(depth) == MAX_DEPTH)
      ensures !invalid ==> frames[..depth] == EnteredPath(old(frames[..depth]), container)
    {
      if overflowDepth > 0 {
        overflowDepth := overflowDepth + 1;
        return;
      }
      ghost var path := frames[..depth];
      var pathKey := NoKey;
      if depth > 0 {
        var parent := frames[depth - 1];
        if parent.container == Object {
          pathKey := parent.currentKey;
          frames[depth - 1] := parent.(currentKey := NoKey);
        }
      }
      if depth == frames.Length {
        invalid := true;
        overflowDepth := 1;
        return;
      }
      frames[depth] := JsonFrame(container, pathKey, NoKey, KeyOrEnd, ItemOrEnd);
      depth := depth + 1;
      assert frames[..depth] == EnteredPath(path, container);
    }

    method EnterContainer(container: Kind)
      requires Safe() && mode == NormalMode
      modifies this`terminal, this`usage, this`rootState, this`invalid, this`depth, this`overflowDepth, frames
      ensures Took(old(invalid), Entered(old(CoreNow()), container))
    {
      hide Begun, IsRootType, IsCounterValue, EnteredPath;
      ghost var path := frames[..depth];
      if CurrentValueIsRootType() {
        terminal := NotTerminal;
      }
      if IsRootUsageCounter() {
        invalid := true;
      }
      BegunKeepsDepth(CoreNow());
      StartNext();
      PushFrame(container);
    }

    method LeaveContainer(container: Kind)
      requires Safe() && mode == NormalMode
      modifies this`invalid, this`depth, this`overflowDepth
      ensures Took(old(invalid), Left(old(CoreNow()), container))
    {
      if overflowDepth > 0 {
        overflowDepth := overflowDepth - 1;
        return;
      }
      if depth == 0 {
        invalid := true;
        return;
      }
      var frame := frames[depth - 1];
      if frame.container != container {
        invalid := true;
        return;
      }
      if !CanClose(frame) {
        invalid := true;
        return;
      }
      ghost var path := frames[..depth];
      depth := depth - 1;
      assert frames[..depth] == path[..|path| - 1];
    }

    method ConsumeComma()
      requires Safe() && mode == NormalMode
      modifies this`invalid, frames
      ensures Took(old(invalid), Separated(old(CoreNow())))
    {
      if depth == 0 || overflowDepth > 0 {
        invalid := true;
        return;
      }
      ghost var path := frames[..depth];
      var frame := frames[depth - 1];
      if frame.container == Object {
        if frame.objectState != CommaOrEnd {
          invalid := true;
          return;
        }
        frames[depth - 1] := frame.(objectState := KeyNext);
        assert frames[..depth] == path[depth - 1 := frames[depth - 1]];
        return;
      }
      if frame.arrayState != ItemCommaOrEnd {
        invalid := true;
        return;
      }
      frames[depth - 1] := frame.(arrayState := ItemNext);
      assert frames[..depth] == path[depth - 1 := frames[depth - 1]];
    }

    method ConsumeColon()
      requires Safe() && mode == NormalMode
      modifies this`invalid, frames
      ensures Took(old(invalid), Coloned(old(CoreNow())))
    {
      if depth == 0 || overflowDepth > 0 {
        invalid := true;
        return;
      }
      ghost var path := frames[..depth];
      var frame := frames[depth - 1];
      if frame.container != Object || frame.objectState != ColonNext {
        invalid := true;
        return;
      }
      frames[depth - 1] := frame.(objectState := ValueNext);
      assert frames[..depth] == path[depth - 1 := frames[depth - 1]];
    }

    // ---- Strings ----

    method ClearString()
      modifies this`stringLength, this`stringTooLong, this`stringEscaped, this`stringEscape, this`stringUnicodeDigits
      ensures stringLength == 0 && !stringTooLong && !stringEscaped && !stringEscape && stringUnicodeDigits == 0
    {
      stringLength := 0;
      stringTooLong := false;
      stringEscaped := false;
      stringEscape := false;
      stringUnicodeDigits := 0;
    }

    method BeginString()
      requires Safe() && mode == NormalMode
      modifies this`stringLength, this`stringTooLong, this`stringEscaped, this`stringEscape, this`stringUnicodeDigits,
        this`stringIsKey, this`usage, this`rootState, this`invalid, this`mode, frames
      ensures mode == StringMode && (!old(invalid) ==> stringIsKey == ExpectsKeyIn(old(frames[..depth])))
      ensures stringLength == 0 && !stringEscaped && !stringEscape && stringUnicodeDigits == 0
      ensures Took(old(invalid), if stringIsKey then Some(old(CoreNow())) else Begun(old(CoreNow())))
    {
      hide Begun, ExpectsKeyIn;
      ClearString();
      stringIsKey := ExpectsObjectKey();
      if !stringIsKey {
        StartNext();
      }
      mode := StringMode;
    }

    method AppendStringByte(current: byte)
      requires Safe()
      modifies this`stringLength, this`stringTooLong, stringBuffer
      ensures Safe() && stringLength == old(stringLength) + 1
      ensures stringLength <= MAX_STRING ==>
        stringBuffer[..stringLength] == old(stringBuffer[..stringLength]) + [current]
    {
      if stringLength < stringBuffer.Length {
        stringBuffer[stringLength] := current;
      } else {
        stringTooLong := true;
      }
      stringLength := stringLength + 1;
    }

    function CurrentStringKey(): UsageKey
      requires Safe()
      reads this, frames, stringBuffer
    {
      if stringEscaped || stringTooLong then NoKey else KeyFor(stringBuffer[..stringLength])
    }

    function CurrentStringTerminal(): Terminal
      requires Safe()
      reads this, frames, stringBuffer
    {
      if stringEscaped || stringTooLong then NotTerminal else TerminalForName(stringBuffer[..stringLength])
    }

    method SetObjectKey()
      requires Safe() && mode == NormalMode
      modifies this`invalid, frames
      ensures Took(old(invalid), KeyTaken(old(CoreNow()), old(CurrentStringKey())))
    {
      if !ExpectsObjectKey() {
        invalid := true;
        return;
      }
      ghost var path := frames[..depth];
      frames[depth - 1] := frames[depth - 1].(currentKey := CurrentStringKey(), objectState := ColonNext);
      assert frames[..depth] == path[depth - 1 := frames[depth - 1]];
    }

    method FinishString()
      requires Safe() && mode == StringMode && !stringEscape && stringUnicodeDigits == 0
      modifies this`mode, this`terminal, this`invalid, frames
      ensures mode == NormalMode
      ensures Took(old(invalid),
        if stringIsKey then KeyTaken(old(CoreNow()), old(CurrentStringKey()))
        else ScalarTaken(old(CoreNow()), AString(old(CurrentStringTerminal()))))
    {
      hide KeyFor, IsRootType, IsCounterValue, TerminalForName, CompletedPath, ExpectsKeyIn;
      mode := NormalMode;
      if stringIsKey {
        SetObjectKey();
        return;
      }
      if CurrentValueIsRootType() {
        terminal := CurrentStringTerminal();
      }
      if IsRootUsageCounter() {
        invalid := true;
      }
      CompleteScalar();
    }

    // ---- Numbers ----

    method AppendNumberDigit(current: byte)
      requires 0 <= number <= MAX_INT && IsDigit(current)
      modifies this`number, this`numberFits
      ensures (number, numberFits) == Accumulate(old(number), old(numberFits), current)
      ensures 0 <= number <= MAX_INT
    {
      var digit := (current - ZERO) as int;
      if number > (MAX_INT - digit) / 10 {
        numberFits := false;
        return;
      }
      number := number * 10 + digit;
    }

    method StartNumberText(current: byte)
      requires current == MINUS || IsDigit(current)
      modifies this`number, this`numberFits, this`numberNegative, this`numberState
      ensures numberNegative == (current == MINUS)
      ensures numberState == if current == MINUS then AtMinus else if current == ZERO then AtZero else AtInteger
      ensures (number, numberFits) == if current == MINUS then (0, true) else Accumulate(0, true, current)
      ensures 0 <= number <= MAX_INT
    {
      number, numberFits, numberNegative := 0, true, current == MINUS;
      if current == MINUS {
        numberState := AtMinus;
      } else if current == ZERO {
        numberState := AtZero;
        AppendNumberDigit(current);
      } else {
        numberState := AtInteger;
        AppendNumberDigit(current);
      }
    }

    method BeginNumber(current: byte)
      requires Safe() && mode == NormalMode && (current == MINUS || IsDigit(current))
      modifies this`terminal, this`usage, this`rootState, this`invalid, this`number, this`numberFits,
        this`numberNegative, this`numberState, this`mode, frames
      ensures mode == NumberMode && numberNegative == (current == MINUS)
      ensures numberState == if current == MINUS then AtMinus else if current == ZERO then AtZero else AtInteger
      ensures (number, numberFits) == if current == MINUS then (0, true) else Accumulate(0, true, current)
      ensures Took(old(invalid), BegunUntyped(old(CoreNow())))
    {
      hide Begun, IsRootType, ExpectsKeyIn, Accumulate;
      if CurrentValueIsRootType() {
        terminal := NotTerminal;
      }
      StartNext();
      StartNumberText(current);
      mode := NumberMode;
    }

    /** The scalar a finished number stands for. */
    ghost function NumberScalar(): Scalar
      reads this
    {
      if IsInteger(numberState) && numberFits && !numberNegative then AnInteger(number) else Another
    }

    method FinishNumber()
      requires Safe() && mode == NumberMode
      modifies this`mode, this`invalid, this`usage, frames
      ensures mode == NormalMode
      ensures Took(old(invalid),
        if PhaseIsComplete(numberState) then ScalarTaken(old(CoreNow()), old(NumberScalar())) else None)
    {
      hide IsCounterValue, CompletedPath, ExpectsKeyIn, RecordedAt;
      mode := NormalMode;
      if !PhaseIsComplete(numberState) {
        invalid := true;
      }
      if IsRootUsageCounter() && (!IsInteger(numberState) || !numberFits || numberNegative) {
        invalid := true;
      }
      if IsInteger(numberState) && numberFits && !numberNegative {
        RecordUsageNumber(number);
      }
      CompleteScalar();
    }

    // ---- Words ----

    method AppendLiteralByte(current: byte)
      requires Safe()
      modifies this`literalLength, this`invalid, literalBuffer
      ensures Safe() && literalLength == old(literalLength) + 1
      ensures invalid == (old(invalid) || literalLength > MAX_WORD)
      ensures literalLength <= MAX_WORD ==>
        literalBuffer[..literalLength] == old(literalBuffer[..literalLength]) + [current]
    {
      if literalLength < literalBuffer.Length {
        literalBuffer[literalLength] := current;
      } else {
        invalid := true;
      }
      literalLength := literalLength + 1;
    }

    method BeginLiteral(current: byte)
      requires Safe() && mode == NormalMode
      modifies this`terminal, this`usage, this`rootState, this`invalid, this`literalLength, this`mode, literalBuffer,
        frames
      ensures mode == LiteralMode && literalLength == 1 && literalBuffer[..1] == [current]
      ensures Took(old(invalid), BegunUntyped(old(CoreNow())))
    {
      hide Begun, IsRootType;
      if CurrentValueIsRootType() {
        terminal := NotTerminal;
      }
      StartNext();
      literalLength := 0;
      AppendLiteralByte(current);
      mode := LiteralMode;
    }

    method FinishLiteral()
      requires Safe() && mode == LiteralMode
      modifies this`mode, this`invalid, frames
      ensures mode == NormalMode
      ensures Took(old(invalid),
        if literalLength <= MAX_WORD && IsWord(literalBuffer[..literalLength]) then
          ScalarTaken(old(CoreNow()), Another) else None)
    {
      hide IsCounterValue, CompletedPath, ExpectsKeyIn;
      mode := NormalMode;
      if literalLength > literalBuffer.Length {
        invalid := true;
      } else {
        var literal := literalBuffer[..literalLength];
        if literal != TRUE && literal != FALSE && literal != NULL {
          invalid := true;
        }
      }
      if IsRootUsageCounter() {
        invalid := true;
      }
      CompleteScalar();
    }

    // ---- Bytes ----

    /** What an operation took, followed by the machine, is what the fields now stand for. */
    lemma Concludes(wasInvalid: bool, next: Option<Core>, s: State)
      requires Took(wasInvalid, next)
      requires if wasInvalid then s.Failed? else Follows(next, s)
      requires s.Live? ==> TokenMatches(s.token)
      ensures Matches(s)
    {
    }

    method ConsumeStructural(current: byte, ghost s: State)
      requires Matches(s) && mode == NormalMode && (s.Live? ==> s.token.Idle?)
      requires current in {LBRACE, LBRACKET, RBRACE, RBRACKET, COMMA, COLON}
      modifies this`terminal, this`usage, this`rootState, this`invalid, this`depth, this`overflowDepth, frames
      ensures Matches(Step(s, current))
    {
      hide Enter, Leave, JsonMachine.Comma, JsonMachine.Colon, Entered, Left, Separated, Coloned, CoreMatches, Inv,
        Took;
      ghost var c := CoreNow();
      if current == LBRACE {
        if s.Live? { EnteredFollows(c, s, Object); OperationsEndIdle(s, Object); }
        EnterContainer(Object);
        Concludes(s.Failed?, Entered(c, Object), Step(s, current));
      } else if current == LBRACKET {
        if s.Live? { EnteredFollows(c, s, Array); OperationsEndIdle(s, Array); }
        EnterContainer(Array);
        Concludes(s.Failed?, Entered(c, Array), Step(s, current));
      } else if current == RBRACE {
        if s.Live? { LeftFollows(c, s, Object); OperationsEndIdle(s, Object); }
        LeaveContainer(Object);
        Concludes(s.Failed?, Left(c, Object), Step(s, current));
      } else if current == RBRACKET {
        if s.Live? { LeftFollows(c, s, Array); OperationsEndIdle(s, Array); }
        LeaveContainer(Array);
        Concludes(s.Failed?, Left(c, Array), Step(s, current));
      } else if current == COMMA {
        if s.Live? { SeparatedFollows(c, s); OperationsEndIdle(s, Object); }
        ConsumeComma();
        Concludes(s.Failed?, Separated(c), Step(s, current));
      } else {
        if s.Live? { ColonedFollows(c, s); OperationsEndIdle(s, Object); }
        ConsumeColon();
        Concludes(s.Failed?, Coloned(c), Step(s, current));
      }
    }

    method ConsumeScalarStart(current: byte, ghost s: State)
      requires Matches(s) && mode == NormalMode && (s.Live? ==> s.token.Idle?)
      requires !IsSpace(current) && current !in {LBRACE, LBRACKET, RBRACE, RBRACKET, COMMA, COLON}
      modifies this, frames, literalBuffer
      ensures Matches(Step(s, current)) && fed == old(fed) && contentSeen == old(contentSeen)
    {
      hide JsonMachine.BeginString, JsonMachine.BeginNumber, BeginWord, Begun, BegunUntyped, CoreMatches, Inv, Took,
        Accumulate, ExpectsKeyIn;
      ghost var c := CoreNow();
      if current == QUOTE {
        if s.Live? { BeginStringFollows(c, s); }
        BeginString();
        NoPieces();
        Concludes(s.Failed?, if stringIsKey then Some(c) else Begun(c), Step(s, current));
      } else if current == MINUS || IsDigit(current) {
        if s.Live? { BeginNumberFollows(c, s, current); }
        BeginNumber(current);
        FirstDigit(current);
        if s.Live? { NumberTokenStarts(s, current); }
        Concludes(s.Failed?, BegunUntyped(c), Step(s, current));
      } else {
        if s.Live? { BeginWordFollows(c, s, current); WordTokenStarts(s, current); }
        BeginLiteral(current);
        Concludes(s.Failed?, BegunUntyped(c), Step(s, current));
      }
    }

    method ConsumeNormalByte(current: byte, ghost s: State)
      requires Matches(s) && mode == NormalMode && (s.Live? ==> s.token.Idle?)
      modifies this, frames, literalBuffer
      ensures Matches(Step(s, current)) && fed == old(fed) && contentSeen == old(contentSeen)
    {
      hide CoreMatches, Inv, Enter, Leave, JsonMachine.Comma, JsonMachine.Colon, JsonMachine.BeginString,
        JsonMachine.BeginNumber, BeginWord;
      if IsSpace(current) {
        if s.Live? {
          StepIdleSound(s, current);
          SameKindToken(CoreNow(), s, Idle(s.token.ws + [current]));
        }
        return;
      }
      if current in {LBRACE, LBRACKET, RBRACE, RBRACKET, COMMA, COLON} {
        ConsumeStructural(current, s);
      } else {
        ConsumeScalarStart(current, s);
      }
    }

    // The name a finished string spells, as far as the buffers can tell.
    lemma BufferedName(ps: seq<Piece>)
      requires Safe() && TextMatches(ps) && stringEscaped == HasEscape(ps)
      ensures CurrentStringKey() == KeyOf(ps) && CurrentStringTerminal() == TerminalOfString(ps)
    {
      hide KeyFor, HasEscape, PlainBytes, TerminalForName;
      KeyForName(PlainBytes(ps));
      LongNames(PlainBytes(ps));
    }

    method EndString(ghost s: State)
      requires Matches(s) && mode == StringMode && !stringEscape && stringUnicodeDigits == 0
      requires s.Live? ==> s.token.InString? && s.token.pending.Settled?
      modifies this`mode, this`terminal, this`invalid, frames
      ensures Matches(Step(s, QUOTE))
    {
      hide KeyTaken, ScalarTaken, JsonMachine.FinishString, CoreMatches, Inv, Took, KeyOf, TerminalOfString, HasEscape,
        PlainBytes, ExpectsKeyIn;
      ghost var c := CoreNow();
      if s.Live? {
        BufferedName(s.token.pieces);
        FinishIsIdle(s);
        if stringIsKey { KeyTakenFollows(c, s); } else { TextTakenFollows(c, s); }
      }
      ghost var next := if stringIsKey then KeyTaken(c, CurrentStringKey())
        else ScalarTaken(c, AString(CurrentStringTerminal()));
      FinishString();
      Concludes(s.Failed?, next, Step(s, QUOTE));
    }

    /** One more byte inside a string, other than the quote that ends it. */
    method ConsumeTextByte(current: byte)
      requires Safe() && mode == StringMode && !EndsString(FlagsNow(), current)
      modifies this`stringUnicodeDigits, this`stringEscape, this`stringEscaped, this`stringLength, this`stringTooLong,
        this`invalid, stringBuffer
      ensures Safe() && (old(invalid) ==> invalid)
      ensures !old(invalid) ==> (invalid <==> NextFlags(old(FlagsNow()), current).None?)
      ensures !invalid ==> FlagsNow() == NextFlags(old(FlagsNow()), current).value
      ensures !invalid ==> forall ps, qs ::
        old(TextMatches(ps)) && PlainBytes(qs) ==
          PlainBytes(ps) + (if AppendsText(old(FlagsNow()), current) then [current] else [])
        ==> TextMatches(qs)
    {
      hide ExpectsKeyIn, PlainBytes;
      if stringUnicodeDigits > 0 {
        if !IsHex(current) {
          invalid := true;
        }
        stringUnicodeDigits := stringUnicodeDigits - 1;
        return;
      }
      if stringEscape {
        stringEscape := false;
        stringEscaped := true;
        if current == LOWER_U {
          stringUnicodeDigits := 4;
          return;
        }
        if !IsEscapeLetter(current) {
          invalid := true;
        }
        return;
      }
      if current == BACKSLASH {
        stringEscape := true;
        stringEscaped := true;
        return;
      }
      if current < SPACE {
        invalid := true;
        return;
      }
      AppendStringByte(current);
    }

    method ConsumeStringByte(current: byte, ghost s: State)
      requires Matches(s) && mode == StringMode && (s.Live? ==> s.token.InString?)
      modifies this, frames, stringBuffer
      ensures Matches(Step(s, current)) && fed == old(fed) && contentSeen == old(contentSeen)
    {
      hide CoreMatches, Inv, PlainBytes, HasEscape, ExpectsKeyIn, Step, NextFlags, AppendsText, TextMatches;
      FailureStays(current);
      if stringUnicodeDigits == 0 && !stringEscape && current == QUOTE {
        if s.Live? { InStringOk(s); }
        EndString(s);
      } else {
        if s.Live? { StringStepFollows(CoreNow(), FlagsNow(), s, current); }
        ConsumeTextByte(current);
      }
    }

    // ---- Numbers and words, to their end ----

    method ConsumeNumberChar(current: byte)
      requires Safe() && mode == NumberMode
      modifies this`numberState, this`number, this`numberFits, this`invalid
      ensures Safe() && (old(invalid) ==> invalid)
      ensures !old(invalid) ==> (invalid <==> Advance(old(numberState), current).None?)
      ensures !invalid ==> numberState == Advance(old(numberState), current).value
      ensures !invalid ==>
        (number, numberFits) ==
        if TakesDigit(old(numberState), current) then Accumulate(old(number), old(numberFits), current)
        else (old(number), old(numberFits))
    {
      match numberState
      case AtMinus =>
        if current == ZERO {
          numberState := AtZero;
          AppendNumberDigit(current);
        } else if IsDigit(current) {
          numberState := AtInteger;
          AppendNumberDigit(current);
        } else {
          invalid := true;
        }
      case AtZero =>
        if current == DOT {
          numberState := AtFractionStart;
        } else if current == LOWER_E || current == UPPER_E {
          numberState := AtExponentStart;
        } else {
          invalid := true;
        }
      case AtInteger =>
        if IsDigit(current) {
          AppendNumberDigit(current);
        } else if current == DOT {
          numberState := AtFractionStart;
        } else if current == LOWER_E || current == UPPER_E {
          numberState := AtExponentStart;
        } else {
          invalid := true;
        }
      case AtFractionStart =>
        if IsDigit(current) {
          numberState := AtFraction;
        } else {
          invalid := true;
        }
      case AtFraction =>
        if IsDigit(current) {
        } else if current == LOWER_E || current == UPPER_E {
          numberState := AtExponentStart;
        } else {
          invalid := true;
        }
      case AtExponentStart =>
        if current == PLUS || current == MINUS {
          numberState := AtExponentSign;
        } else if IsDigit(current) {
          numberState := AtExponent;
        } else {
          invalid := true;
        }
      case AtExponentSign =>
        if IsDigit(current) {
          numberState := AtExponent;
        } else {
          invalid := true;
        }
      case AtExponent =>
        if !IsDigit(current) {
          invalid := true;
        }
    }

    method ContinueNumber(current: byte, ghost s: State)
      requires Matches(s) && mode == NumberMode && (s.Live? ==> s.token.InNumber?) && !IsDelimiter(current)
      modifies this`numberState, this`number, this`numberFits, this`invalid
      ensures Matches(Step(s, current))
    {
      hide CoreMatches, Inv, PhaseOf, Advance, Accumulate, ExpectsKeyIn, Step;
      FailureStays(current);
      if s.Live? {
        NumberStepFollows(CoreNow(), s, current);
        if TakesDigit(numberState, current) { AccumulateStep(s.token.number.whole, number, numberFits, current); }
      }
      hide Accumulates;
      ConsumeNumberChar(current);
    }

    method EndNumber(ghost s: State)
      requires Matches(s) && mode == NumberMode && (s.Live? ==> s.token.InNumber?)
      modifies this`mode, this`invalid, this`usage, frames
      ensures mode == NormalMode
      ensures Matches(if s.Live? then Settle(s) else Failed)
    {
      ghost var c, v := CoreNow(), NumberScalar();
      ghost var next := if PhaseIsComplete(numberState) then ScalarTaken(c, v) else None;
      if s.Live? {
        SettleIsIdle(s);
        if PhaseIsComplete(numberState) {
          NumberDescribed(s.token.number, number, numberFits);
          NumberTakenFollows(c, s, v);
        }
      }
      hide CoreMatches, Inv, PhaseOf, Accumulates, ExpectsKeyIn, ScalarTaken, Took, Describes, PlugScalar;
      FinishNumber();
      Concludes(s.Failed?, next, if s.Live? then Settle(s) else Failed);
    }

    method EndLiteral(ghost s: State)
      requires Matches(s) && mode == LiteralMode && (s.Live? ==> s.token.InWord?)
      modifies this`mode, this`invalid, frames
      ensures mode == NormalMode
      ensures Matches(if s.Live? then Settle(s) else Failed)
    {
      ghost var c := CoreNow();
      ghost var isWord := literalLength <= MAX_WORD && IsWord(literalBuffer[..literalLength]);
      if s.Live? {
        SettleIsIdle(s);
        if isWord { WordTakenFollows(c, s); }
      }
      hide CoreMatches, Inv, ExpectsKeyIn, ScalarTaken, Took, PlugScalar, IsWord;
      FinishLiteral();
      Concludes(s.Failed?, if isWord then ScalarTaken(c, Another) else None, if s.Live? then Settle(s) else Failed);
    }

    method ConsumeNumberByte(current: byte, ghost s: State)
      requires Matches(s) && mode == NumberMode && (s.Live? ==> s.token.InNumber?)
      modifies this, frames, literalBuffer
      ensures Matches(Step(s, current)) && fed == old(fed) && contentSeen == old(contentSeen)
    {
      if s.Live? { SettleIsIdle(s); }
      hide Settle, StepIdle;
      if IsDelimiter(current) {
        EndNumber(s);
        ConsumeNormalByte(current, if s.Live? then Settle(s) else Failed);
      } else {
        ContinueNumber(current, s);
      }
    }

    method ConsumeLiteralByte(current: byte, ghost s: State)
      requires Matches(s) && mode == LiteralMode && (s.Live? ==> s.token.InWord?)
      modifies this, frames, literalBuffer
      ensures Matches(Step(s, current)) && fed == old(fed) && contentSeen == old(contentSeen)
    {
      hide Settle, StepIdle, CoreMatches, Inv, ExpectsKeyIn;
      if s.Live? {
        SettleIsIdle(s);
        if !IsDelimiter(current) { WordStepFollows(CoreNow(), s, current); }
      }
      if IsDelimiter(current) {
        EndLiteral(s);
        ConsumeNormalByte(current, if s.Live? then Settle(s) else Failed);
      } else {
        AppendLiteralByte(current);
      }
    }

    // ---- The parser as its caller sees it ----

    ghost function Repr(): set<object> {
      {this, frames, stringBuffer, literalBuffer}
    }

    /** Between a reset and the end of the payload. */
    ghost predicate Reading()
      reads this, frames, stringBuffer, literalBuffer
    {
      Matches(Run(START, fed)) && (contentSeen <==> fed != [])
    }

    /** After the end of the payload. */
    ghost predicate Finished()
      reads this, frames, stringBuffer, literalBuffer
    {
      Matches(JsonMachine.Finish(Run(START, fed)))
    }

    constructor ()
      ensures Reading() && fed == [] && fresh(Repr())
    {
      frames := new JsonFrame[MAX_DEPTH](_ => ZERO_FRAME);
      stringBuffer := new byte[MAX_STRING](_ => 0);
      literalBuffer := new byte[MAX_WORD](_ => 0);
      depth, overflowDepth, mode, rootState := 0, 0, NormalMode, RootValue;
      numberState, number, numberFits, numberNegative := AtMinus, 0, false, false;
      stringLength, stringTooLong, stringEscaped, stringEscape, stringUnicodeDigits, stringIsKey :=
        0, false, false, false, 0, false;
      literalLength, invalid, terminal, usage, contentSeen := 0, false, NotTerminal, NO_USAGE, false;
      fed := [];
    }

    method ClearScalars()
      modifies this`numberState, this`number, this`numberFits, this`numberNegative, this`stringLength,
        this`stringTooLong, this`stringEscaped, this`stringEscape, this`stringUnicodeDigits, this`stringIsKey,
        this`literalLength
      ensures number == 0 && stringLength == 0 && !stringTooLong && stringUnicodeDigits == 0 && literalLength == 0
    {
      numberState, number, numberFits, numberNegative := AtMinus, 0, false, false;
      ClearString();
      stringIsKey := false;
      literalLength := 0;
    }

    method ClearFrames()
      modifies this`depth, this`overflowDepth, frames
      ensures depth == 0 && overflowDepth == 0
    {
      forall i | 0 <= i < frames.Length {
        frames[i] := ZERO_FRAME;
      }
      depth, overflowDepth := 0, 0;
    }

    lemma IdleStart()
      requires InRange() && mode == NormalMode
      ensures TokenMatches(START.token)
    {
    }

    method ResetFields()
      requires InRange()
      modifies Repr()
      ensures Matches(START) && fed == [] && !contentSeen
    {
      hide CoreMatches, Inv, Run, ExpectsKeyIn, TokenMatches;
      FreshMatches();
      ClearFrames();
      ClearScalars();
      mode, rootState, invalid, terminal, usage, contentSeen :=
        NormalMode, RootValue, false, NotTerminal, NO_USAGE, false;
      fed := [];
      IdleStart();
      Concludes(false, Some(FRESH), START);
    }

    lemma RangeKnown()
      requires Reading() || Finished()
      ensures InRange()
    {
    }

    method Reset()
      requires Reading() || Finished()
      modifies Repr()
      ensures Reading() && fed == []
    {
      hide Matches, Run, JsonMachine.Finish;
      RangeKnown();
      FreshMatches();
      ResetFields();
    }

    method Dispatch(current: byte, ghost s: State)
      requires Matches(s)
      modifies Repr()
      ensures Matches(Step(s, current)) && fed == old(fed) && contentSeen == old(contentSeen)
    {
      hide Step, Inv, CoreMatches, ExpectsKeyIn, FlagsMatch, Accumulates, PhaseOf;
      match mode
      case NormalMode => ConsumeNormalByte(current, s);
      case StringMode => ConsumeStringByte(current, s);
      case NumberMode => ConsumeNumberByte(current, s);
      case LiteralMode => ConsumeLiteralByte(current, s);
    }

    method ConsumeByte(current: byte)
      requires Reading()
      modifies Repr()
      ensures Reading() && fed == old(fed) + [current]
      ensures old(invalid) ==> invalid
    {
      RunOne(START, fed, current);
      FailureStays(current);
      hide Step, Run, Inv, CoreMatches, ExpectsKeyIn, FlagsMatch, Accumulates, PhaseOf, PlainBytes;
      Dispatch(current, Run(START, fed));
      contentSeen, fed := true, fed + [current];
    }

    method Finish()
      requires Reading()
      modifies Repr()
      ensures Finished() && fed == old(fed)
    {
      ghost var s := Run(START, fed);
      hide Run, Inv, CoreMatches, Settle;
      match mode
      case StringMode =>
        invalid := true;
        mode := NormalMode;
      case NumberMode => EndNumber(s);
      case LiteralMode => EndLiteral(s);
      case NormalMode => if s.Live? { IdleIsSettled(s); }
    }

    /** The verdict on the payload, and what was read from it, in terms of its bytes alone. */
    method Valid() returns (ok: bool)
      requires Finished()
      ensures ok <==> exists d :: IsPayload(fed, d)
      ensures forall d :: IsPayload(fed, d) ==> usage == UsageOf(d.value) && terminal == TerminalOf(d.value)
    {
      ok := !invalid && overflowDepth == 0 && depth == 0 && rootState == RootComplete;
      ghost var s := JsonMachine.Finish(Run(START, fed));
      FinishIsSettled(Run(START, fed));
      JsonCompleteness.AcceptsIffPayload(fed);
    }

    predicate HasContent()
      reads this
    {
      contentSeen
    }

    lemma ContentIsFed()
      requires Reading()
      ensures HasContent() <==> fed != []
    {
    }
  }
}
