/**
 Where a number must be a counter: at four paths of names, spelled out, and nowhere else. A text that
 is a number inside nested objects is accepted exactly if the number fits wherever it must.
 */
module JsonCounters {
  import opened Wrappers
  import opened Bytes
  import opened JsonText
  import opened JsonMachine
  import opened JsonSpelling
  import opened JsonAlphabet
  import opened JsonCompleteness
  import JsonReadout

  /** The four counters of a payload. */
  predicate IsCounterPath(names: seq<bytes>) {
    || names == [Ascii("response"), Ascii("usage"), Ascii("input_tokens")]
    || names == [Ascii("response"), Ascii("usage"), Ascii("output_tokens")]
    || names == [Ascii("response"), Ascii("usage"), Ascii("total_tokens")]
    || names == [Ascii("response"), Ascii("usage"), Ascii("input_tokens_details"), Ascii("cached_tokens")]
  }

  function PlaceOf(names: seq<bytes>): Place {
    if names == [] then Root else PlaceUnder(PlaceOf(names[..|names| - 1]), NameHead(names[|names| - 1]))
  }

  lemma PlaceStep(p: Place, name: bytes)
    ensures PlaceUnder(p, NameHead(name)) ==
      match p
      case Root => if name == Ascii("response") then Response else Elsewhere
      case Response => if name == Ascii("usage") then UsageObject else Elsewhere
      case UsageObject =>
        if name == Ascii("input_tokens") || name == Ascii("output_tokens") || name == Ascii("total_tokens") then Counter
        else if name == Ascii("input_tokens_details") then Details
        else Elsewhere
      case Details => if name == Ascii("cached_tokens") then Counter else Elsewhere
      case _ => Elsewhere
  {
    SpelledRenders(name);
  }

  lemma {:induction false} PlaceByLength(names: seq<bytes>)
    ensures PlaceOf(names) == Root <==> names == []
    ensures PlaceOf(names) == Response <==> names == [Ascii("response")]
    ensures PlaceOf(names) == UsageObject <==> names == [Ascii("response"), Ascii("usage")]
    ensures PlaceOf(names) == Details <==> names == [Ascii("response"), Ascii("usage"), Ascii("input_tokens_details")]
    ensures PlaceOf(names) == Counter <==> IsCounterPath(names)
  {
    if names != [] {
      hide PlaceUnder, NameHead, Ascii;
      var n := |names| - 1;
      PlaceByLength(names[..n]);
      PlaceStep(PlaceOf(names[..n]), names[n]);
      assert names == names[..n] + [names[n]];
      LongNamesDiffer();
    }
  }

  lemma LongNamesDiffer()
    ensures Ascii("input_tokens") != Ascii("input_tokens_details")
    ensures Ascii("output_tokens") != Ascii("input_tokens_details")
    ensures Ascii("total_tokens") != Ascii("input_tokens_details")
  {
    JsonReadout.NamesDiffer();
  }

  // ---- Down a path ----

  /** An object opens with one name in it. */
  function Opened(name: bytes): bytes {
    [0x7B] + ([0x22] + name + [0x22] + [0x3A])
  }

  function PathText(names: seq<bytes>): bytes {
    if names == [] then [] else PathText(names[..|names| - 1]) + Opened(names[|names| - 1])
  }

  /** Before the value at the end of a path. */
  predicate OnPath(s: State, names: seq<bytes>) {
    && s.Live? && s.token == Idle([]) && |s.stack| == |names| && s.base == (if names == [] then Empty else Open([]))
    && StartValue(s).Live? && ValuePlace(StartValue(s)) == PlaceOf(names)
    && (forall i :: 0 <= i < |s.stack| ==> s.stack[i].kind == Object)
    && (forall i :: 0 <= i < |s.stack| - 1 ==> s.stack[i].slot.Filling?)
  }

  lemma HeadText(name: bytes)
    ensures RenderHead(NameHead(name)) == [0x22] + name + [0x22] + [0x3A]
  {
    SpelledRenders(name);
  }

  lemma ObjectRefused(s: State, names: seq<bytes>)
    requires OnPath(s, names) && (PlaceOf(names) == Counter || |names| >= 64)
    ensures Step(s, 0x7B) == Failed
  {
  }

  lemma NextOnPath(t: State, p: Place, name: bytes, names: seq<bytes>)
    requires t.Live? && p == PlaceOf(names) && |t.stack| == |names| && t.base == Open([])
    requires forall i :: 0 <= i < |t.stack| ==> t.stack[i].kind == Object && t.stack[i].slot.Filling?
    ensures OnPath(Within(t.base, t.stack, Frame(Object, p, [], AfterColon([], [], Spelled(name), [])), []),
      names + [name])
  {
    hide PlaceUnder, Spelled;
    assert (names + [name])[..|names|] == names;
  }

  lemma FillingPath(s: State, names: seq<bytes>)
    requires OnPath(s, names)
    ensures
      var t := StartValue(s);
      && t.Live? && t.base == Open([]) && |t.stack| == |names| && ValuePlace(t) == PlaceOf(names) && t.token == Idle([])
      && forall i :: 0 <= i < |t.stack| ==> t.stack[i].kind == Object && t.stack[i].slot.Filling?
  {
  }

  lemma PathStep(s: State, names: seq<bytes>, name: bytes)
    requires OnPath(s, names) && PlainText(name)
    ensures
      var t := Run(s, Opened(name));
      if PlaceOf(names) == Counter || |names| >= 64 then t == Failed else OnPath(t, names + [name])
  {
    hide Step, OnPath, PlaceOf, PlainText, StartValue, Spelled;
    var head := [0x22] + name + [0x22] + [0x3A];
    RunCons(s, 0x7B, head);
    FillingPath(s, names);
    IdlePath(s, names);
    if PlaceOf(names) == Counter || |names| >= 64 {
      ObjectRefused(s, names);
      FailedStays(head);
    } else {
      OpenStep(s, Object);
      var t := StartValue(s);
      var f := Frame(Object, ValuePlace(t), [], Between);
      SpelledOk(name);
      HeadText(name);
      HeadRuns(t.base, t.stack, f, [], [], Spelled(name), []);
      NextOnPath(t, PlaceOf(names), name, names);
    }
  }

  lemma IdlePath(s: State, names: seq<bytes>)
    requires OnPath(s, names)
    ensures s.Live? && s.token == Idle([]) && |s.stack| == |names|
  {
  }

  /** No name on the way is a counter's. */
  predicate Clear(names: seq<bytes>) {
    |names| <= 64 && forall i :: 0 <= i < |names| ==> !IsCounterPath(names[..i])
  }

  lemma ClearStep(names: seq<bytes>)
    requires names != []
    ensures var n := |names| - 1; Clear(names) <==> Clear(names[..n]) && n < 64 && !IsCounterPath(names[..n])
  {
    hide IsCounterPath;
    var n := |names| - 1;
    assert forall i :: 0 <= i < n ==> names[..n][..i] == names[..i];
  }

  lemma NoPath()
    ensures Clear([]) && OnPath(Run(START, PathText([])), [])
  {
  }

  lemma PathTextPush(names: seq<bytes>)
    requires names != []
    ensures var n := |names| - 1; Run(START, PathText(names)) == Run(Run(START, PathText(names[..n])), Opened(names[n]))
  {
    hide Step;
    var n := |names| - 1;
    RunConcat(START, PathText(names[..n]), Opened(names[n]));
  }

  lemma {:induction false} PathRuns(names: seq<bytes>)
    requires forall i :: 0 <= i < |names| ==> PlainText(names[i])
    ensures var s := Run(START, PathText(names)); if Clear(names) then OnPath(s, names) else s == Failed
  {
    hide Step, Run, OnPath, PlainText, Clear, IsCounterPath, PathText, PlaceOf;
    if names == [] {
      NoPath();
    } else {
      var n := |names| - 1;
      PathRuns(names[..n]);
      ClearStep(names);
      PlaceByLength(names[..n]);
      PathTextPush(names);
      if Clear(names[..n]) {
        PathStep(Run(START, PathText(names[..n])), names[..n], names[n]);
        assert names == names[..n] + [names[n]];
      } else {
        FailedStays(Opened(names[n]));
      }
    }
  }

  // ---- A number at its end ----

  function Number(n: nat): NumberText {
    NumberText(false, Digits(n), None, None)
  }

  lemma NumberSettles(t: State, n: nat)
    requires t.Live?
    ensures Settle(NumberState(t, Number(n))) == PlugScalar(NumberState(t, Number(n)), CountJson(n))
  {
    NoLeadingZero(n);
  }

  lemma CounterRefused(t: State, n: nat)
    requires t.Live? && ValuePlace(t) == Counter && n > 0x7FFF_FFFF_FFFF_FFFF
    ensures PlugScalar(NumberState(t, Number(n)), CountJson(n)) == Failed
  {
    CountRenders(n);
  }

  lemma NumberPlugged(t: State, n: nat, left: nat)
    requires t.Live? && t.base == Open([]) && |t.stack| == left
    requires forall i :: 0 <= i < |t.stack| ==> t.stack[i].kind == Object && t.stack[i].slot.Filling?
    requires ValuePlace(t) == Counter ==> n <= 0x7FFF_FFFF_FFFF_FFFF
    ensures Closing(PlugScalar(NumberState(t, Number(n)), CountJson(n)), Object, left)
  {
    CountRenders(n);
    hide IsCount, Digits;
  }

  lemma BraceSettles(t: State, n: nat)
    requires t.Live?
    ensures
      var s := NumberState(t, Number(n));
      Step(s, 0x7D) == if Settle(s).Failed? then Failed else StepIdle(Settle(s), 0x7D)
  {
    hide Settle, StepIdle, Digits;
  }

  lemma IdleStep(s: State, b: byte)
    requires s.Live? && s.token.Idle?
    ensures Step(s, b) == StepIdle(s, b)
  {
  }

  /** The first brace after the number, or the end of the text, settles it. */
  lemma NumberEnds(names: seq<bytes>, s: State, n: nat)
    requires OnPath(s, names)
    ensures
      var r := Run(NumberState(StartValue(s), Number(n)), Repeated(0x7D, |names|));
      Accepts(Finish(r)) <==> !(PlaceOf(names) == Counter && n > 0x7FFF_FFFF_FFFF_FFFF)
  {
    FillingPath(s, names);
    hide OnPath, StartValue, PlaceOf, Digits, Step, Run, Settle, PlugScalar, ValuePlace, Accepts, Finish, Number,
      Closing;
    var t := StartValue(s);
    var u := NumberState(t, Number(n));
    NumberSettles(t, n);
    if PlaceOf(names) == Counter && n > 0x7FFF_FFFF_FFFF_FFFF {
      CounterRefused(t, n);
    } else {
      NumberPlugged(t, n, |names|);
    }
    if names == [] {
      NothingToClose(u);
    } else {
      BraceFirst(u, |names| - 1);
      BraceSettles(t, n);
      if Settle(u).Failed? {
        FailedStays(Repeated(0x7D, |names| - 1));
        FailedIsRefused();
      } else {
        ClosingIsIdle(Settle(u), |names|);
        IdleStep(Settle(u), 0x7D);
        CloseOne(Settle(u), Object, |names| - 1);
        CloseAll(Step(Settle(u), 0x7D), Object, |names| - 1, |names| - 1);
        ClosedIsAccepted(Run(Step(u, 0x7D), Repeated(0x7D, |names| - 1)));
      }
    }
  }

  lemma ClosingIsIdle(s: State, left: nat)
    requires Closing(s, Object, left)
    ensures s.Live? && s.token.Idle? && Bracket(Object) == 0x7D
  {
  }

  lemma FailedIsRefused()
    ensures !Accepts(Finish(Failed))
  {
  }

  lemma ClosedIsAccepted(s: State)
    requires Closing(s, Object, 0)
    ensures Accepts(Finish(s))
  {
  }

  lemma NothingToClose(u: State)
    requires u.Live? && u.token.InNumber? && (Settle(u).Live? ==> Closing(Settle(u), Object, 0))
    ensures Run(u, Repeated(0x7D, 0)) == u && (Accepts(Finish(u)) <==> Settle(u).Live?)
  {
  }

  lemma BraceFirst(u: State, k: nat)
    ensures Run(u, Repeated(0x7D, k + 1)) == Run(Step(u, 0x7D), Repeated(0x7D, k))
  {
    assert Repeated(0x7D, k + 1) == [0x7D] + Repeated(0x7D, k);
    RunCons(u, 0x7D, Repeated(0x7D, k));
  }

  /**
   A number inside nested objects is accepted exactly if the path is at most 64 names long, passes
   through no counter, and the number fits in 63 bits where the path is one of the four counters.
   */
  lemma NumberAtPath(names: seq<bytes>, n: nat)
    requires forall i :: 0 <= i < |names| ==> PlainText(names[i])
    ensures Accepted(PathText(names) + Digits(n) + Repeated(0x7D, |names|)) <==>
      Clear(names) && (IsCounterPath(names) ==> n <= 9223372036854775807)
  {
    hide OnPath, StartValue, PlaceOf, PlainText, Digits, Step, Run, Accepts, Finish, Clear, IsCounterPath, PathText,
      Accepted, Repeated;
    var p, d, z := PathText(names), Digits(n), Repeated(0x7D, |names|);
    Decides(p + d + z);
    RunConcat(START, p + d, z);
    RunConcat(START, p, d);
    PathRuns(names);
    PlaceByLength(names);
    var s := Run(START, p);
    if Clear(names) {
      IdlePath(s, names);
      FillingPath(s, names);
      NoLeadingZero(n);
      IntegerRuns(s, StartValue(s), false, d);
      assert [] + d == d;
      NumberEnds(names, s, n);
      SameLimit();
    } else {
      FailedStays(d);
      FailedStays(z);
      FailedIsRefused();
    }
  }

  lemma SameLimit()
    ensures 0x7FFF_FFFF_FFFF_FFFF == 9223372036854775807
  {
  }
}
