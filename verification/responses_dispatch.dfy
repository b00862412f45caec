/**
 A whole streamed response: begin, the provider's events, then finish or fail. The provider stops at
 the first event the writer could not send, and its error is reported with fail. Whatever the sink
 does, what it has accepted is the start of the full stream, or that and a failed envelope.
 */
module ResponsesDispatch {
  import opened ResponsesProtocol
  import P = ResponsesProtocol
  import opened ResponsesFields
  import opened ResponsesNumbering
  import opened ResponsesClient
  import opened ResponsesRebuild
  import opened ResponsesAgreementLaws
  import opened ResponsesConservation
  import opened ResponsesConservedRuns
  import opened ResponsesSends
  import opened ResponsesWriter

  /** How the provider ends when every event could be sent. */
  datatype Outcome = Succeeds(usageDetailMissing: bool, incomplete: bool) | Breaks

  function Conclude(w: Writer, outcome: Outcome): (r: Writer)
    requires WellKept(w)
    ensures WellKept(r)
  {
    match outcome
    case Succeeds(usageDetailMissing, incomplete) => P.Finish(w, usageDetailMissing, incomplete)
    case Breaks => P.Fail(w)
  }

  /** The response when every send succeeds: its frames, and how the items stand at each of them. */
  function FullRun(documented: bool, base: string, events: seq<Event>, outcome: Outcome): (r: Writer)
    ensures |r.standing| == |r.sent|
  {
    Conclude(TakeAll(Fresh(documented, base), events), outcome)
  }

  /** The frames before the conclusion. */
  function EventStream(documented: bool, base: string, events: seq<Event>): seq<Frame> {
    P.Begin(TakeAll(Fresh(documented, base), events)).sent
  }

  /** How a dispatch went: everything was taken, or the try with the given number was the first refused. */
  datatype Delivery = Whole | Broken(at: nat)

  /**
   What the client has after the sink refused its first try: everything before it, and exactly if an
   event was refused and the sink takes the next try, a failed envelope with the items as they stand
   at the refused try.
   */
  predicate BrokenOff(sent: seq<Frame>, full: Writer, at: nat, failed: bool) {
    && at < |full.sent| && at < |full.standing|
    && sent == full.sent[..at] + if failed then [Frame(at + 1, Snapshot(ResponseFailed, full.standing[at]))] else []
  }

  // ---- Beginning early makes no difference ----

  lemma {:induction false} BeganEarly(w: Writer, events: seq<Event>)
    requires WellKept(w)
    ensures TakeAll(P.Begin(w), events) == P.Begin(TakeAll(w, events))
  {
    hide Render;
    if events != [] {
      BeganEarly(w, events[..|events| - 1]);
      BeginsOnce(TakeAll(w, events[..|events| - 1]), events[|events| - 1]);
    }
  }

  lemma BeginsOnce(w: Writer, event: Event)
    requires WellKept(w)
    ensures Take(P.Begin(w), event) == Take(w, event) && P.Begin(Take(w, event)) == Take(w, event)
  {
    hide Render;
    RenderQuiet(P.Begin(w), event);
  }

  lemma ConcludesAlike(w: Writer, outcome: Outcome)
    requires WellKept(w)
    ensures Conclude(P.Begin(w), outcome) == Conclude(w, outcome)
  {
    hide P.CloseAll;
    assert P.Begin(P.Begin(w)) == P.Begin(w);
  }

  // ---- The stream only grows ----

  lemma {:induction false} EventsGrow(w: Writer, events: seq<Event>, i: nat)
    requires WellKept(w) && w.began && i <= |events|
    ensures TakeAll(w, events).began && Grows(TakeAll(w, events[..i]), TakeAll(w, events))
  {
    hide Render;
    if events != [] {
      var rest, last := events[..|events| - 1], events[|events| - 1];
      RenderQuiet(TakeAll(w, rest), last);
      if i == |events| {
        assert events[..i] == events;
        EventsGrow(w, rest, 0);
      } else {
        assert rest[..i] == events[..i];
        EventsGrow(w, rest, i);
      }
    } else {
      assert events[..i] == events;
    }
  }

  lemma ConclusionGrows(w: Writer, outcome: Outcome)
    requires WellKept(w)
    ensures Grows(w, Conclude(w, outcome))
  {
    hide P.CloseAll;
    CloseAllQuiet(P.Begin(w), P.FinalStatus(outcome.Succeeds? && outcome.incomplete));
  }

  // ---- A client can follow what was sent ----

  lemma {:induction false} FollowsPrefix(documented: bool, frames: seq<Frame>, n: nat)
    requires n <= |frames| && Follow(documented, frames).Some?
    ensures Follow(documented, frames[..n]).Some?
  {
    hide See;
    if n < |frames| {
      var rest := frames[..|frames| - 1];
      FollowsPrefix(documented, rest, n);
      assert rest[..n] == frames[..n];
    } else {
      assert frames[..n] == frames;
    }
  }

  lemma FollowsStart(documented: bool, sent: seq<Frame>, full: seq<Frame>)
    requires sent <= full && Follow(documented, full).Some?
    ensures Follow(documented, sent).Some?
  {
    hide Follow;
    FollowsPrefix(documented, full, |sent|);
    assert full[..|sent|] == sent;
  }

  /** A failed envelope never contradicts what came before. */
  lemma FollowsFailure(w: Writer)
    requires WellKept(w) && w.began && Follow(w.documented, w.sent).Some?
    ensures Follow(w.documented, P.Fail(w).sent).Some?
  {
    hide Follow;
    FollowEmit(w, Snapshot(ResponseFailed, w.items));
  }

  lemma FullRunIsFollowed(documented: bool, base: string, events: seq<Event>, outcome: Outcome)
    requires documented || !Reopens(events)
    ensures Follow(documented, FullRun(documented, base, events, outcome).sent).Some?
  {
    hide Follow, TakeAll, P.CloseAll, P.Begin, Mirrors, Reopens;
    var w := TakeAll(Fresh(documented, base), events);
    if outcome.Succeeds? && !(documented && outcome.usageDetailMissing) {
      FollowedToTheEnd(documented, base, events, outcome.usageDetailMissing, outcome.incomplete);
    } else {
      AlwaysFollowed(documented, base, events);
      AlwaysRunning(documented, base, events);
      BeginFollowed(w);
      BeginIsBegun(w);
      FollowsFailure(P.Begin(w));
    }
  }

  lemma BeginIsBegun(w: Writer)
    requires WellKept(w)
    ensures P.Begin(w).began && P.Begin(P.Begin(w)) == P.Begin(w)
  {
  }

  /** The stages of a dispatch: each is a start of the full stream, whose frames are numbered in order. */
  lemma StreamFacts(documented: bool, base: string, events: seq<Event>, outcome: Outcome)
    ensures
      var b := P.Begin(Fresh(documented, base));
      var v := TakeAll(b, events);
      var full := FullRun(documented, base, events, outcome);
      && WellKept(b) && b.began && |b.sent| == 2 && Gap(b) == 0 && WellKept(v) && Conclude(v, outcome) == full
      && v.sent == EventStream(documented, base, events)
      && Grows(b, v) && Grows(b, full) && Grows(v, full)
        && (documented || !Reopens(events) ==> Follow(documented, full.sent).Some?)
      && Numbered(full.sent)
  {
    hide Follow, Conclude, WellKept, Reopens;
    var w := Fresh(documented, base);
    NothingToKeep(documented, base);
    var b := P.Begin(w);
    var v := TakeAll(b, events);
    hide P.Begin;
    BeganEarly(w, events);
    ConcludesAlike(TakeAll(w, events), outcome);
    assert events[..0] == [];
    EventsGrow(b, events, 0);
    ConclusionGrows(v, outcome);
    FullRunIsNumbered(documented, base, events, outcome);
    if documented || !Reopens(events) {
      FullRunIsFollowed(documented, base, events, outcome);
    }
  }

  lemma FullRunIsNumbered(documented: bool, base: string, events: seq<Event>, outcome: Outcome)
    ensures Numbered(FullRun(documented, base, events, outcome).sent)
  {
    hide TakeAll, P.Finish, P.Fail;
    match outcome {
      case Succeeds(usageDetailMissing, incomplete) => FinishEnds(documented, base, events,
        usageDetailMissing, incomplete);
      case Breaks => FailEnds(documented, base, events);
    }
  }

  /** How the client learns the outcome. */
  function OutcomeEnvelope(documented: bool, outcome: Outcome): Envelope {
    if outcome.Breaks? then ResponseFailed
    else if documented && outcome.usageDetailMissing then ResponseFailed
    else if outcome.incomplete then ResponseIncomplete
    else ResponseCompleted
  }

  /** The last frame of a full stream tells its outcome and lists the items; no frame before it is terminal. */
  lemma FullRunTellsOutcome(documented: bool, base: string, events: seq<Event>, outcome: Outcome)
    ensures
      var full := FullRun(documented, base, events, outcome);
      && |full.sent| >= 3
      && full.sent[|full.sent| - 1].body == Snapshot(OutcomeEnvelope(documented, outcome), full.items)
      && forall i :: 2 <= i < |full.sent| - 1 ==> !full.sent[i].body.Snapshot?
  {
    hide TakeAll, P.Finish, P.Fail;
    match outcome {
      case Succeeds(usageDetailMissing, incomplete) =>
        FinishEnds(documented, base, events, usageDetailMissing, incomplete);
      case Breaks => FailEnds(documented, base, events);
    }
  }

  /** Whatever the outcome, the items hold what the events said. */
  lemma FullRunHolds(documented: bool, base: string, events: seq<Event>, outcome: Outcome)
    ensures Holds(OfWriter(FullRun(documented, base, events, outcome)), SaidBy(events))
  {
    hide TakeAll, P.Finish, Holds, SaidBy;
    match outcome {
      case Succeeds(usageDetailMissing, incomplete) =>
        OutputHolds(documented, base, events, usageDetailMissing, incomplete);
      case Breaks =>
        WriterHolds(documented, base, events);
        FailKeepsItems(TakeAll(Fresh(documented, base), events));
    }
  }

  lemma FailKeepsItems(w: Writer)
    requires WellKept(w)
    ensures OfWriter(P.Fail(w)) == OfWriter(w)
  {
  }

  lemma NothingToKeep(documented: bool, base: string)
    ensures WellKept(Fresh(documented, base)) && Gap(Fresh(documented, base)) == 0
  {
  }

  // ---- Which try was refused ----

  predicate Numbered(frames: seq<Frame>) {
    forall i :: 0 <= i < |frames| ==> frames[i].number == i
  }

  lemma {:induction false} NoneRefused(takes: nat -> bool, n: nat)
    requires forall i :: 0 <= i < n ==> takes(i)
    ensures Refusals(takes, n) == 0
  {
    if n > 0 {
      NoneRefused(takes, n - 1);
    }
  }

  /** Frames taken are numbered from zero, and one more try was refused: it was the next one. */
  lemma FirstRefusal(takes: nat -> bool, sink: seq<Frame>, full: seq<Frame>)
    requires sink < full && AllTaken(takes, sink) && Refusals(takes, |sink| + 1) == 1 && Numbered(full)
    ensures !takes(|sink|) && forall n :: 0 <= n < |sink| ==> takes(n)
  {
    forall n | 0 <= n < |sink|
      ensures takes(n)
    {
      assert sink[n] == full[n];
    }
    NoneRefused(takes, |sink|);
  }

  // ---- The dispatch ----

  /** Reports a broken run on a writer that has begun: one more try, taken or not. */
  method ReportFailure(writer: ResponsesStreamWriter) returns (ok: bool)
    requires writer.Valid() && writer.model.began
    modifies writer
    ensures writer.Valid() && ok == writer.takes(old(writer.nextNumber))
    ensures !ok ==> writer.sink == old(writer.sink)
    ensures ok ==>
      writer.sink == old(writer.sink)
      + [Frame(old(writer.nextNumber), Snapshot(ResponseFailed, old(writer.model).items))]
    ensures Follow(writer.documented, old(writer.sink)).Some? ==> Follow(writer.documented, writer.sink).Some?
  {
    hide Linked, Follow, P.Fail;
    ghost var m := writer.model;
    KeptWell(writer.Now(), m);
    FailAddsOne(m);
    ok := writer.Fail();
    KeptWell(writer.Now(), writer.model);
    assert ok ==> writer.sink[|m.sent|] == Frame(m.numbered, Snapshot(ResponseFailed, m.items));
    if Follow(writer.documented, m.sent).Some? {
      FollowsFailure(m);
      FollowsStart(writer.documented, writer.sink, P.Fail(m).sent);
    }
  }

  lemma KeptWell(f: Fields, m: Writer)
    requires Linked(f, m)
    ensures WellKept(m) && m.numbered == f.nextNumber && m.documented == f.documented
  {
  }

  lemma FailAddsOne(m: Writer)
    requires WellKept(m) && m.began
    ensures P.Fail(m).sent == m.sent + [Frame(m.numbered, Snapshot(ResponseFailed, m.items))]
  {
  }

  /** The provider's events up to the first that cannot be sent. */
  method WriteEvents(writer: ResponsesStreamWriter, events: seq<Event>) returns (ok: bool)
    requires writer.Valid() && writer.model.began
    modifies writer
    ensures writer.Valid() && writer.model.began && WellKept(old(writer.model))
    ensures Ends(old(writer.model), writer.model, TakeAll(old(writer.model), events), ok)
  {
    hide Linked, Take, WellKept;
    ghost var m := writer.model;
    KeptWell(writer.Now(), m);
    for i := 0 to |events|
      invariant writer.Valid() && writer.model.began && Ends(m, writer.model, TakeAll(m, events[..i]), true)
    {
      assert events[..i + 1][..i] == events[..i];
      EventsGrow(m, events, i + 1);
      ok := writer.WriteEvent(events[i]);
      if !ok {
        return;
      }
    }
    assert events[..|events|] == events;
    ok := true;
  }

  method ConcludeStream(writer: ResponsesStreamWriter, outcome: Outcome) returns (ok: bool)
    requires writer.Valid()
    modifies writer
    ensures writer.Valid() && WellKept(old(writer.model))
    ensures Ends(old(writer.model), writer.model, Conclude(old(writer.model), outcome), ok)
  {
    hide Linked, P.Finish, P.Fail, WellKept;
    KeptWell(writer.Now(), writer.model);
    match outcome {
      case Succeeds(usageDetailMissing, incomplete) => ok := writer.Finish(usageDetailMissing, incomplete);
      case Breaks => ok := writer.Fail();
    }
  }

  lemma StopsShort(m: Writer, v: Writer, full: Writer)
    requires Ends(m, v, full, false)
    ensures |m.sent| <= |v.sent| < |full.sent|
  {
  }

  /** A writer whose first refused try is its latest. */
  lemma BreaksOff(writer: ResponsesStreamWriter, full: Writer, followed: bool)
    requires writer.Valid() && Gap(writer.model) == 1 && Due(writer.model, full) && Numbered(full.sent)
    requires |full.standing| == |full.sent| && (followed ==> Follow(writer.documented, full.sent).Some?)
    ensures writer.nextNumber == |writer.sink| + 1 && !writer.takes(|writer.sink|) && |writer.sink| < |full.sent|
    ensures forall n :: 0 <= n < |writer.sink| ==> writer.takes(n)
    ensures BrokenOff(writer.sink, full, |writer.sink|, false) && full.standing[|writer.sink|] == writer.model.items
    ensures followed ==> Follow(writer.documented, writer.sink).Some?
  {
    hide Linked, Follow, Refusals;
    KeptWell(writer.Now(), writer.model);
    FirstRefusal(writer.takes, writer.sink, full.sent);
    if followed {
      FollowsStart(writer.documented, writer.sink, full.sent);
    }
  }

  lemma EnvelopeAfter(before: seq<Frame>, after: seq<Frame>, full: Writer, items: seq<Item>, ok: bool)
    requires BrokenOff(before, full, |before|, false) && full.standing[|before|] == items
    requires after == if ok then before + [Frame(|before| + 1, Snapshot(ResponseFailed, items))] else before
    ensures BrokenOff(after, full, |before|, ok)
  {
  }

  /**
   How a stream arrives: whole if and only if the sink takes as many tries as it has frames, and then its
   last frame tells the outcome. Otherwise the client has the frames before the first refused try and,
   exactly if that try belonged to an event and the next one is taken, a failed envelope listing the
   items as they stand at the refused try. The events take the first `told` frames.
   */
  predicate Delivered(
    full: Writer, envelope: Envelope, told: nat, takes: nat -> bool, sent: seq<Frame>, delivery: Delivery)
  {
    && (delivery.Whole? <==> forall n :: 0 <= n < |full.sent| ==> takes(n))
    && (delivery.Whole? ==> sent == full.sent && sent != [] && sent[|sent| - 1].body == Snapshot(envelope, full.items))
    && (delivery.Broken? ==>
          && !takes(delivery.at) && (forall n :: 0 <= n < delivery.at ==> takes(n))
          && BrokenOff(sent, full, delivery.at, 2 <= delivery.at < told && takes(delivery.at + 1)))
  }

  lemma BrokenIsDelivered(full: Writer, envelope: Envelope, told: nat, takes: nat -> bool, sent: seq<Frame>, at: nat)
    requires !takes(at) && (forall n :: 0 <= n < at ==> takes(n)) && at < |full.sent|
    requires BrokenOff(sent, full, at, 2 <= at < told && takes(at + 1))
    ensures Delivered(full, envelope, told, takes, sent, Broken(at))
  {
    hide BrokenOff;
  }

  lemma WholeIsDelivered(full: Writer, envelope: Envelope, told: nat, takes: nat -> bool)
    requires AllTaken(takes, full.sent) && Numbered(full.sent)
    requires full.sent != [] && full.sent[|full.sent| - 1].body == Snapshot(envelope, full.items)
    ensures Delivered(full, envelope, told, takes, full.sent, Whole)
  {
    AllArrived(takes, full.sent);
  }

  /**
   For every pattern of refusals the stream arrives as far as the sink lets it. Unless compatibility
   mode reopens reasoning, a strict client can follow what it has in every case.
   */
  method DispatchStream(documented: bool, itemBase: string, events: seq<Event>, outcome: Outcome, takes: nat -> bool)
    returns (sent: seq<Frame>, delivery: Delivery)
    ensures Delivered(FullRun(documented, itemBase, events, outcome), OutcomeEnvelope(documented, outcome),
                      |EventStream(documented, itemBase, events)|, takes, sent, delivery)
    ensures documented || !Reopens(events) ==> Follow(documented, sent).Some?
  {
    hide Linked, Follow, TakeAll, Conclude, FullRun, P.Begin, WellKept, Refusals, Numbered, Due, Grows, Gap, Reopens,
      OutcomeEnvelope, EventStream, BrokenOff, Delivered, AllTaken;
    ghost var full := FullRun(documented, itemBase, events, outcome);
    ghost var envelope := OutcomeEnvelope(documented, outcome);
    ghost var count := |EventStream(documented, itemBase, events)|;
    StreamFacts(documented, itemBase, events, outcome);
    var writer := new ResponsesStreamWriter(documented, itemBase, takes);
    ghost var m := writer.model;
    NothingToKeep(documented, itemBase);
    NothingTried(m, m);
    var ok := writer.Begin();
    ghost var begun := P.Begin(m);
    Next(m, m, writer.model, begun, full, ok);
    if !ok {
      StopsShort(m, writer.model, begun);
      BreaksOff(writer, full, documented || !Reopens(events));
      BrokenIsDelivered(full, envelope, count, takes, writer.sink, |writer.sink|);
      return writer.sink, Broken(|writer.sink|);
    }
    ok := WriteEvents(writer, events);
    ghost var told := TakeAll(begun, events);
    Next(m, begun, writer.model, told, full, ok);
    if !ok {
      StopsShort(begun, writer.model, told);
      BreaksOff(writer, full, documented || !Reopens(events));
      var at := |writer.sink|;
      ghost var before, items := writer.sink, writer.model.items;
      ok := ReportFailure(writer);
      EnvelopeAfter(before, writer.sink, full, items, ok);
      BrokenIsDelivered(full, envelope, count, takes, writer.sink, at);
      return writer.sink, Broken(at);
    }
    ok := ConcludeStream(writer, outcome);
    Next(m, told, writer.model, full, full, ok);
    if !ok {
      StopsShort(told, writer.model, full);
      BreaksOff(writer, full, documented || !Reopens(events));
      BrokenIsDelivered(full, envelope, count, takes, writer.sink, |writer.sink|);
      return writer.sink, Broken(|writer.sink|);
    }
    FullRunTellsOutcome(documented, itemBase, events, outcome);
    WholeIsDelivered(full, envelope, count, takes);
    return writer.sink, Whole;
  }

  lemma AllArrived(takes: nat -> bool, full: seq<Frame>)
    requires AllTaken(takes, full) && Numbered(full)
    ensures forall n :: 0 <= n < |full| ==> takes(n)
  {
    forall n | 0 <= n < |full|
      ensures takes(n)
    {
      assert full[n].number == n;
    }
  }
}
