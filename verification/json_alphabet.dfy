/**
 Which bytes JSON texts are made of, byte by byte: short texts with a free byte in them are accepted
 exactly for the bytes RFC 8259 lists, spelled out here as numbers. The nesting limit is 64.
 */
module JsonAlphabet {
  import opened Wrappers
  import opened Bytes
  import opened JsonText
  import opened JsonMachine
  import JsonCompleteness

  /** The bytes are a JSON text within the limits. */
  ghost predicate Accepted(s: bytes) {
    exists d :: IsPayload(s, d)
  }

  lemma Decides(s: bytes)
    ensures Accepted(s) <==> Accepts(Finish(Run(START, s)))
  {
    hide IsPayload, Run, Finish, Accepts;
    JsonCompleteness.AcceptsIffPayload(s);
  }

  /** One to four bytes, step by step. */
  lemma RunShort(s: State, a: byte, b: byte, c: byte, e: byte)
    ensures Run(s, [a]) == Step(s, a)
    ensures Run(s, [a, b]) == Step(Step(s, a), b)
    ensures Run(s, [a, b, c]) == Step(Step(Step(s, a), b), c)
    ensures Run(s, [a, b, c, e]) == Step(Step(Step(Step(s, a), b), c), e)
  {
    hide Step;
    RunOne(s, [], a);
    RunOne(s, [a], b);
    RunOne(s, [a, b], c);
    RunOne(s, [a, b, c], e);
    assert [] + [a] == [a] && [a] + [b] == [a, b] && [a, b] + [c] == [a, b, c] && [a, b, c] + [e] == [a, b, c, e];
  }

  // ---- White space ----

  lemma {:induction false} FailedStays(bs: bytes)
    ensures Run(Failed, bs) == Failed
  {
    if bs != [] {
      FailedStays(bs[..|bs| - 1]);
    }
  }

  /** A first byte that is no white space, before an empty string. */
  lemma NoSpaceBefore(b: byte)
    requires b !in {0x09, 0x0A, 0x0D, 0x20}
    ensures !Accepts(Finish(Step(Step(Step(START, b), 0x22), 0x22)))
  {
  }

  /** White space may precede a value: tab, line feed, carriage return and space. */
  lemma SpaceBefore(b: byte)
    ensures Accepted([b, 0x22, 0x22]) <==> b in {0x09, 0x0A, 0x0D, 0x20}
  {
    Decides([b, 0x22, 0x22]);
    RunShort(START, b, 0x22, 0x22, b);
    if b in {0x09, 0x0A, 0x0D, 0x20} {
      assert Step(START, b) == START.(token := Idle([b]));
    } else {
      hide Step, Accepts, Finish;
      NoSpaceBefore(b);
    }
  }

  /** The same bytes may follow one. */
  lemma SpaceAfter(b: byte)
    ensures Accepted([0x22, 0x22, b]) <==> b in {0x09, 0x0A, 0x0D, 0x20}
  {
    Decides([0x22, 0x22, b]);
    RunShort(START, 0x22, 0x22, b, b);
  }

  // ---- Strings ----

  /** Every byte from the space on stands for itself in a string, but for the quote and the backslash. */
  lemma PlainBytesOfStrings(b: byte)
    ensures Accepted([0x22, b, 0x22]) <==> 0x20 <= b && b != 0x22 && b != 0x5C
  {
    Decides([0x22, b, 0x22]);
    RunShort(START, 0x22, b, 0x22, b);
  }

  /** The escapes of one letter: quote, backslash, slash, b, f, n, r and t. */
  lemma EscapesOfStrings(b: byte)
    ensures Accepted([0x22, 0x5C, b, 0x22]) <==> b in {0x22, 0x5C, 0x2F, 0x62, 0x66, 0x6E, 0x72, 0x74}
  {
    Decides([0x22, 0x5C, b, 0x22]);
    RunShort(START, 0x22, 0x5C, b, 0x22);
  }

  predicate Hexadecimal(b: byte) {
    0x30 <= b <= 0x39 || 0x41 <= b <= 0x46 || 0x61 <= b <= 0x66
  }

  /** After backslash u come four hexadecimal digits of either case. */
  lemma HexDigitsOfStrings(a: byte, b: byte, c: byte, e: byte)
    ensures Accepted([0x22, 0x5C, 0x75, a, b, c, e, 0x22])
       <==> Hexadecimal(a) && Hexadecimal(b) && Hexadecimal(c) && Hexadecimal(e)
  {
    var text := [0x22, 0x5C, 0x75, a, b, c, e, 0x22];
    Decides(text);
    assert text == [0x22, 0x5C, 0x75] + ([a, b, c, e] + [0x22]);
    RunConcat(START, [0x22, 0x5C, 0x75], [a, b, c, e] + [0x22]);
    RunShort(START, 0x22, 0x5C, 0x75, a);
    var s := Live(Open([]), [], InString([], false, [], HexDigits([])));
    assert Run(START, [0x22, 0x5C, 0x75]) == s;
    FourHex(s, a, b, c, e);
  }

  lemma FourHex(s: State, a: byte, b: byte, c: byte, e: byte)
    requires s == Live(Open([]), [], InString([], false, [], HexDigits([])))
    ensures Accepts(Finish(Run(s, [a, b, c, e] + [0x22])))
       <==> Hexadecimal(a) && Hexadecimal(b) && Hexadecimal(c) && Hexadecimal(e)
  {
    RunShort(s, a, b, c, e);
    RunOne(s, [a, b, c, e], 0x22);
  }

  // ---- Numbers ----

  predicate Digit(b: byte) {
    0x30 <= b <= 0x39
  }

  lemma OneDigit(b: byte)
    ensures Accepted([b]) <==> Digit(b)
  {
    Decides([b]);
    RunShort(START, b, b, b, b);
  }

  function Whole(w: bytes): State {
    Live(Open([]), [], InNumber(NumberText(false, w, None, None)))
  }

  lemma FirstDigit(a: byte)
    requires Digit(a)
    ensures Step(START, a) == Whole([a])
  {
  }

  lemma NoNumberBefore(a: byte, b: byte)
    requires Digit(b) && a != 0x2D && a !in {0x09, 0x0A, 0x0D, 0x20} && !Digit(a)
    ensures !Accepts(Finish(Step(Step(START, a), b)))
  {
  }

  lemma DigitLast(a: byte, b: byte)
    requires Digit(b) && (Digit(a) || a in {0x09, 0x0A, 0x0D, 0x20, 0x2D})
    ensures Accepts(Finish(Step(Step(START, a), b))) <==> a != 0x30
  {
    if Digit(a) {
      FirstDigit(a);
      assert Step(Whole([a]), b) == if a == 0x30 then Failed else Whole([a] + [b]);
    } else if a != 0x2D {
      assert [] + [a] == [a];
      assert Step(START, a) == START.(token := Idle([a]));
    }
  }

  /** A minus sign needs a digit after it, and a zero takes no digit after it. */
  lemma TwoNumberBytes(a: byte, b: byte)
    requires Digit(b)
    ensures Accepted([a, b]) <==> a == 0x2D || a in {0x09, 0x0A, 0x0D, 0x20} || (Digit(a) && a != 0x30)
  {
    hide Step, Finish, Accepts;
    Decides([a, b]);
    RunShort(START, a, b, b, b);
    if Digit(a) || a in {0x09, 0x0A, 0x0D, 0x20, 0x2D} {
      DigitLast(a, b);
    } else {
      NoNumberBefore(a, b);
    }
  }

  /** What may follow a first digit when another digit comes after. */
  lemma AfterFirstDigit(a: byte, x: byte, b: byte)
    requires Digit(a) && Digit(b)
    ensures Accepts(Finish(Step(Step(Whole([a]), x), b)))
       <==> x == 0x2E || x == 0x65 || x == 0x45 || (Digit(x) && a != 0x30)
  {
    if x in {0x09, 0x0A, 0x0D, 0x20} {
      assert [] + [x] == [x];
      assert Step(Whole([a]), x) == Live(Done([], Num(NumberText(false, [a], None, None))), [], Idle([x]));
    }
  }

  /** Between two digits may stand a point or an exponent mark, or another digit unless a zero leads. */
  lemma ThreeNumberBytes(a: byte, x: byte, b: byte)
    requires Digit(a) && Digit(b)
    ensures Accepted([a, x, b]) <==> x == 0x2E || x == 0x65 || x == 0x45 || (Digit(x) && a != 0x30)
  {
    hide Step, Finish, Accepts;
    Decides([a, x, b]);
    RunShort(START, a, x, b, b);
    FirstDigit(a);
    AfterFirstDigit(a, x, b);
  }

  lemma AfterExponentMark(a: byte, x: byte, b: byte)
    requires Digit(a) && Digit(b)
    ensures
      var s := Live(Open([]), [], InNumber(NumberText(false, [a], None, Some(Exponent(0x65, [], [])))));
      && Step(Whole([a]), 0x65) == s
      && (Accepts(Finish(Step(Step(s, x), b))) <==> x == 0x2B || x == 0x2D || Digit(x))
  {
  }

  /** An exponent may have a sign. */
  lemma ExponentBytes(a: byte, x: byte, b: byte)
    requires Digit(a) && Digit(b)
    ensures Accepted([a, 0x65, x, b]) <==> x == 0x2B || x == 0x2D || Digit(x)
  {
    hide Step, Finish, Accepts;
    Decides([a, 0x65, x, b]);
    RunShort(START, a, 0x65, x, b);
    FirstDigit(a);
    AfterExponentMark(a, x, b);
  }

  // ---- Containers ----

  lemma EmptyArrays(b: byte)
    ensures Accepted([0x5B, b]) <==> b == 0x5D
  {
    Decides([0x5B, b]);
    RunShort(START, 0x5B, b, b, b);
  }

  lemma EmptyObjects(b: byte)
    ensures Accepted([0x7B, b]) <==> b == 0x7D
  {
    Decides([0x7B, b]);
    RunShort(START, 0x7B, b, b, b);
  }

  // ---- Words ----

  predicate Letters(w: bytes) {
    forall i :: 0 <= i < |w| ==> 0x61 <= w[i] <= 0x7A
  }

  lemma LetterStep(w: bytes, b: byte)
    requires 0x61 <= b <= 0x7A
    ensures Step(START, b) == Live(Open([]), [], InWord([b]))
    ensures Step(Live(Open([]), [], InWord(w)), b) == if |w| < 5 then Live(Open([]), [], InWord(w + [b])) else Failed
  {
  }

  lemma {:induction false} LettersRun(w: bytes)
    requires Letters(w) && w != []
    ensures Run(START, w) == if |w| <= 5 then Live(Open([]), [], InWord(w)) else Failed
  {
    var n := |w| - 1;
    LetterStep(w[..n], w[n]);
    hide Step;
    assert w[..n] + [w[n]] == w;
    if n > 0 {
      LettersRun(w[..n]);
    }
    RunOne(START, w[..n], w[n]);
  }

  /** A run of small letters is a JSON text exactly if it is one of three words. */
  lemma Words(w: bytes)
    requires Letters(w)
    ensures Accepted(w) <==>
      w == [0x74, 0x72, 0x75, 0x65] || w == [0x66, 0x61, 0x6C, 0x73, 0x65] || w == [0x6E, 0x75, 0x6C, 0x6C]
  {
    hide IsWord, Step, Letters;
    Decides(w);
    ThreeWords(w);
    if w != [] {
      LettersRun(w);
      WordEnds(w);
    }
  }

  lemma WordEnds(w: bytes)
    ensures Accepts(Finish(Live(Open([]), [], InWord(w)))) <==> IsWord(w)
  {
  }

  lemma ThreeWords(w: bytes)
    ensures IsWord(w) <==>
      w == [0x74, 0x72, 0x75, 0x65] || w == [0x66, 0x61, 0x6C, 0x73, 0x65] || w == [0x6E, 0x75, 0x6C, 0x6C]
  {
    assert TRUE == [0x74, 0x72, 0x75, 0x65] && FALSE == [0x66, 0x61, 0x6C, 0x73, 0x65];
    assert NULL == [0x6E, 0x75, 0x6C, 0x6C];
  }

  // ---- Nesting ----

  function Repeated(b: byte, n: nat): bytes {
    seq(n, _ => b)
  }

  lemma RepeatedPush(b: byte, n: nat)
    ensures Repeated(b, n + 1) == Repeated(b, n) + [b]
  {
  }

  /** n open arrays, the innermost empty. */
  predicate Opening(s: State, n: nat) {
    && s.Live? && |s.stack| == n && s.token == Idle([]) && s.base == (if n == 0 then Empty else Open([]))
    && (forall i :: 0 <= i < n ==> s.stack[i].kind == Array && s.stack[i].entries == [])
    && (forall i :: 0 <= i < n - 1 ==> s.stack[i].slot.Filling?) && (n > 0 ==> s.stack[n - 1].slot == Between)
  }

  lemma OpenOne(s: State, n: nat)
    requires Opening(s, n)
    ensures if n < 64 then Opening(Step(s, 0x5B), n + 1) else Step(s, 0x5B) == Failed
  {
  }

  lemma {:induction false} OpenArrays(n: nat)
    ensures var s := Run(START, Repeated(0x5B, n)); if n <= 64 then Opening(s, n) else s == Failed
  {
    if n > 0 {
      hide Step, Opening;
      OpenArrays(n - 1);
      RepeatedPush(0x5B, n - 1);
      RunOne(START, Repeated(0x5B, n - 1), 0x5B);
      if n <= 65 {
        OpenOne(Run(START, Repeated(0x5B, n - 1)), n - 1);
      } else {
        FailedStep(0x5B);
      }
    }
  }

  lemma FailedStep(b: byte)
    ensures Step(Failed, b) == Failed
  {
  }

  function Bracket(kind: Kind): byte {
    if kind == Array then 0x5D else 0x7D
  }

  /** As many open containers of one kind are left to close. */
  predicate Closing(s: State, kind: Kind, left: nat) {
    && s.Live? && |s.stack| == left && s.token == Idle([])
    && (left == 0 ==> s.base.Done?) && (left > 0 ==> s.base.Open?)
    && (forall i :: 0 <= i < left ==> s.stack[i].kind == kind)
    && (forall i :: 0 <= i < left - 1 ==> s.stack[i].slot.Filling?) && (left > 0 ==> s.stack[left - 1].slot == Between)
  }

  lemma CloseOne(s: State, kind: Kind, left: nat)
    requires Closing(s, kind, left + 1)
    ensures Closing(Step(s, Bracket(kind)), kind, left)
  {
  }

  lemma {:induction false} CloseAll(s: State, kind: Kind, left: nat, m: nat)
    requires Closing(s, kind, left) && m <= left
    ensures Closing(Run(s, Repeated(Bracket(kind), m)), kind, left - m)
  {
    hide Step, Closing, Bracket;
    if m > 0 {
      CloseAll(s, kind, left, m - 1);
      RepeatedPush(Bracket(kind), m - 1);
      RunOne(s, Repeated(Bracket(kind), m - 1), Bracket(kind));
      CloseOne(Run(s, Repeated(Bracket(kind), m - 1)), kind, left - m);
    }
  }

  /** Containers nest 64 deep and no deeper. */
  lemma NestingLimit(n: nat)
    ensures Accepted(Repeated(0x5B, n) + Repeated(0x5D, n)) <==> 1 <= n <= 64
  {
    var a, z := Repeated(0x5B, n), Repeated(0x5D, n);
    Decides(a + z);
    RunConcat(START, a, z);
    OpenArrays(n);
    if n > 64 {
      FailedStays(z);
    } else if n > 0 {
      CloseAll(Run(START, a), Array, n, n);
    }
  }
}
