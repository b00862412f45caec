/**
 On the documented contract, which event lists are agreeable, said of positions in the list.

 A reasoning item stays open in the stream until ReasoningFinished or until an event begins another
 item. Streaming and collecting part where reasoning resumes after an interruption that began no
 item. In an incomplete response they also differ where an item was closed by the next item alone.
 */
module ResponsesAgreementForm {
  import opened ResponsesProtocol
  import opened ResponsesCollector
  import opened ResponsesAgreement
  import opened ResponsesAgreementLaws

  // ---- Events that begin an item ----

  predicate Speaks(event: Event) {
    (event.TextDelta? || event.RefusalDelta?) && event.text != ""
  }

  predicate Spoke(events: seq<Event>) {
    exists i :: 0 <= i < |events| && Speaks(events[i])
  }

  function IndexesOf(calls: seq<ToolCall>): set<int> {
    set j | 0 <= j < |calls| :: calls[j].index
  }

  /** The tool indexes named so far. */
  function Named(events: seq<Event>): set<int> {
    if events == [] then {}
    else
      var last := events[|events| - 1];
      Named(events[..|events| - 1]) + if last.ToolCallDelta? then IndexesOf(last.calls) else {}
  }

  /** The first text, or a tool delta with a new index. */
  predicate BeginsItem(events: seq<Event>, m: nat)
    requires m < |events|
  {
    || (Speaks(events[m]) && !Spoke(events[..m]))
    || (events[m].ToolCallDelta? && !(IndexesOf(events[m].calls) <= Named(events[..m])))
  }

  predicate Closes(events: seq<Event>, m: nat)
    requires m < |events|
  {
    events[m].ReasoningFinished? || BeginsItem(events, m)
  }

  predicate Unclosed(events: seq<Event>, i: nat, k: nat)
    requires k <= |events|
  {
    forall m :: i < m < k ==> !Closes(events, m)
  }

  // ---- The two ways to part ----

  /** Reasoning goes on after an interruption that began no item. */
  predicate Resumes(events: seq<Event>) {
    exists k :: 0 <= k < |events| && Thinks(events[k]) && Paused(events[..k])
  }

  /** An open reasoning item has been interrupted. */
  predicate Paused(events: seq<Event>) {
    exists i, j :: 0 <= i < j < |events| && Thinks(events[i]) && Interrupts(events[j]) && Unclosed(events, i, |events|)
  }

  /** The last reasoning item was closed by the next item, and nothing has been said of reasoning since. */
  predicate ClosedByNext(events: seq<Event>) {
    exists i, m :: 0 <= i < m < |events| && Thinks(events[i]) && BeginsItem(events, m)
      && Unclosed(events, i, m) && Quiet(events, m)
  }

  predicate Quiet(events: seq<Event>, m: nat) {
    forall n :: m < n < |events| ==> !Thinks(events[n]) && !events[n].ReasoningFinished?
  }

  /** Somewhere, or at the end, a reasoning item has been closed by the next item alone. */
  predicate CutOff(events: seq<Event>) {
    ClosedByNext(events) || Replaced(events)
  }

  /** Reasoning starts anew where the item before was closed by the next item alone. */
  predicate Replaced(events: seq<Event>) {
    exists k :: 0 <= k < |events| && Thinks(events[k]) && ClosedByNext(events[..k])
  }

  predicate OpenNow(events: seq<Event>) {
    exists i :: 0 <= i < |events| && Thinks(events[i]) && Unclosed(events, i, |events|)
  }

  // ---- One event more ----

  lemma SamePrefix(events: seq<Event>, m: nat)
    requires m < |events| - 1
    ensures events[..|events| - 1][m] == events[m] && (Closes(events[..|events| - 1], m) <==> Closes(events, m))
    ensures BeginsItem(events[..|events| - 1], m) <==> BeginsItem(events, m)
  {
    assert events[..|events| - 1][..m] == events[..m];
  }

  lemma SameUnclosed(events: seq<Event>, i: nat, k: nat)
    requires k <= |events| - 1
    ensures Unclosed(events[..|events| - 1], i, k) <==> Unclosed(events, i, k)
  {
    hide Closes;
    var rest := events[..|events| - 1];
    if Unclosed(rest, i, k) {
      forall m | i < m < k
        ensures !Closes(events, m)
      {
        SamePrefix(events, m);
        assert !Closes(rest, m);
      }
    }
    if Unclosed(events, i, k) {
      forall m | i < m < k
        ensures !Closes(rest, m)
      {
        SamePrefix(events, m);
        assert !Closes(events, m);
      }
    }
  }

  lemma UnclosedStep(events: seq<Event>, i: nat)
    requires i < |events| - 1
    ensures Unclosed(events, i, |events|) <==>
      Unclosed(events[..|events| - 1], i, |events| - 1) && !Closes(events, |events| - 1)
  {
    hide Closes;
    SameUnclosed(events, i, |events| - 1);
  }

  lemma SpokeStep(events: seq<Event>)
    requires events != []
    ensures Spoke(events) <==> Spoke(events[..|events| - 1]) || Speaks(events[|events| - 1])
  {
    var rest := events[..|events| - 1];
    assert forall i :: 0 <= i < |rest| ==> rest[i] == events[i];
  }

  lemma OpenStep(events: seq<Event>)
    requires events != []
    ensures
      var n := |events| - 1;
      OpenNow(events) <==> Thinks(events[n]) || (OpenNow(events[..n]) && !Closes(events, n))
  {
    hide Closes, Unclosed;
    var n := |events| - 1;
    var rest := events[..n];
    if Thinks(events[n]) {
      NothingBetween(events, n);
    }
    if OpenNow(events) && !Thinks(events[n]) {
      var i :| 0 <= i < |events| && Thinks(events[i]) && Unclosed(events, i, |events|);
      UnclosedStep(events, i);
      assert rest[i] == events[i];
    }
    if OpenNow(rest) && !Closes(events, n) {
      var i :| 0 <= i < |rest| && Thinks(rest[i]) && Unclosed(rest, i, |rest|);
      UnclosedStep(events, i);
      assert rest[i] == events[i];
    }
  }

  lemma NothingBetween(events: seq<Event>, n: nat)
    requires n + 1 == |events|
    ensures Unclosed(events, n, |events|)
  {
  }

  lemma PausedStep(events: seq<Event>)
    requires events != []
    ensures
      var n := |events| - 1;
      Paused(events) <==> !Closes(events, n) && (Paused(events[..n]) || (OpenNow(events[..n]) && Interrupts(events[n])))
  {
    hide Closes, Unclosed;
    var n := |events| - 1;
    var rest := events[..n];
    if Paused(events) {
      var i, j :| 0 <= i < j < |events| && Thinks(events[i]) && Interrupts(events[j]) && Unclosed(events, i, |events|);
      UnclosedStep(events, i);
      assert rest[i] == events[i];
      if j < n {
        assert rest[j] == events[j];
      }
    }
    if !Closes(events, n) && Paused(rest) {
      var i, j :| 0 <= i < j < |rest| && Thinks(rest[i]) && Interrupts(rest[j]) && Unclosed(rest, i, |rest|);
      UnclosedStep(events, i);
      assert rest[i] == events[i] && rest[j] == events[j];
    }
    if !Closes(events, n) && OpenNow(rest) && Interrupts(events[n]) {
      var i :| 0 <= i < |rest| && Thinks(rest[i]) && Unclosed(rest, i, |rest|);
      UnclosedStep(events, i);
      assert rest[i] == events[i];
    }
  }

  lemma ResumesStep(events: seq<Event>)
    requires events != []
    ensures
      var n := |events| - 1;
      Resumes(events) <==> Resumes(events[..n]) || (Thinks(events[n]) && Paused(events[..n]))
  {
    hide Paused;
    var rest := events[..|events| - 1];
    assert forall i :: 0 <= i < |rest| ==> rest[i] == events[i] && rest[..i] == events[..i];
  }

  lemma ReplacedStep(events: seq<Event>)
    requires events != []
    ensures
      var n := |events| - 1;
      Replaced(events) <==> Replaced(events[..n]) || (Thinks(events[n]) && ClosedByNext(events[..n]))
  {
    hide ClosedByNext;
    var rest := events[..|events| - 1];
    assert forall i :: 0 <= i < |rest| ==> rest[i] == events[i] && rest[..i] == events[..i];
  }

  lemma QuietStep(events: seq<Event>, m: nat)
    requires m < |events| - 1
    ensures
      var last := events[|events| - 1];
      Quiet(events, m) <==> Quiet(events[..|events| - 1], m) && !Thinks(last) && !last.ReasoningFinished?
  {
    var rest := events[..|events| - 1];
    assert forall i :: 0 <= i < |rest| ==> rest[i] == events[i];
  }

  lemma ClosedByNextStep(events: seq<Event>)
    requires events != []
    ensures
      var n := |events| - 1;
      var last := events[n];
      ClosedByNext(events) <==>
        (OpenNow(events[..n]) && BeginsItem(events, n))
          || (ClosedByNext(events[..n]) && !Thinks(last) && !last.ReasoningFinished?)
  {
    hide BeginsItem, Unclosed, Quiet;
    var n := |events| - 1;
    var rest := events[..n];
    if ClosedByNext(events) {
      var i, m :| 0 <= i < m < |events| && Thinks(events[i]) && BeginsItem(events, m)
        && Unclosed(events, i, m) && Quiet(events, m);
      SameUnclosed(events, i, m);
      assert rest[i] == events[i];
      if m < n {
        SamePrefix(events, m);
        QuietStep(events, m);
      }
    }
    if OpenNow(rest) && BeginsItem(events, n) {
      var i :| 0 <= i < |rest| && Thinks(rest[i]) && Unclosed(rest, i, |rest|);
      SameUnclosed(events, i, n);
      assert rest[i] == events[i];
      QuietAtEnd(events);
    }
    if ClosedByNext(rest) && !Thinks(events[n]) && !events[n].ReasoningFinished? {
      var i, m :| 0 <= i < m < |rest| && Thinks(rest[i]) && BeginsItem(rest, m)
        && Unclosed(rest, i, m) && Quiet(rest, m);
      SameUnclosed(events, i, m);
      SamePrefix(events, m);
      QuietStep(events, m);
      assert rest[i] == events[i];
    }
  }

  lemma QuietAtEnd(events: seq<Event>)
    requires events != []
    ensures Quiet(events, |events| - 1)
  {
  }

  lemma PausedIsOpen(events: seq<Event>)
    requires Paused(events)
    ensures OpenNow(events)
  {
    hide Unclosed;
  }

  lemma ClosedIsNotOpen(events: seq<Event>)
    requires ClosedByNext(events)
    ensures !OpenNow(events)
  {
    hide Spoke, Named;
    var i, m :| 0 <= i < m < |events| && Thinks(events[i]) && BeginsItem(events, m)
      && Unclosed(events, i, m) && Quiet(events, m);
    assert Closes(events, m);
    assert !Thinks(events[m]);
  }

  // ---- The watch, in these words ----

  /** What a list of calls does to the watch. */
  lemma {:induction false} CallsWatched(s: Watch, calls: seq<ToolCall>)
    ensures
      var novel := !(IndexesOf(calls) <= s.known);
      WatchCalls(true, s, calls) == s.(known := s.known + IndexesOf(calls), open := s.open && !novel, soft := s.soft
        || (novel && s.open))
  {
    if calls == [] {
      assert IndexesOf(calls) == {};
      assert s.known + {} == s.known;
    } else {
      var rest, last := calls[..|calls| - 1], calls[|calls| - 1];
      CallsWatched(s, rest);
      IndexesPush(calls);
      assert s.known + (IndexesOf(rest) + {last.index}) == s.known + IndexesOf(rest) + {last.index};
      if last.index in s.known + IndexesOf(rest) {
        assert s.known + IndexesOf(rest) + {last.index} == s.known + IndexesOf(rest);
      }
    }
  }

  lemma IndexesPush(calls: seq<ToolCall>)
    requires calls != []
    ensures IndexesOf(calls) == IndexesOf(calls[..|calls| - 1]) + {calls[|calls| - 1].index}
  {
    var rest, n := calls[..|calls| - 1], |calls| - 1;
    forall x
      ensures x in IndexesOf(calls) <==> x in IndexesOf(rest) + {calls[n].index}
    {
      if x in IndexesOf(calls) {
        var j :| 0 <= j < |calls| && calls[j].index == x;
        if j < n {
          assert rest[j].index == x;
        }
      }
      if x in IndexesOf(rest) {
        var j :| 0 <= j < |rest| && rest[j].index == x;
        assert calls[j].index == x;
      }
    }
  }

  ghost predicate Told(events: seq<Event>, s: Watch) {
    && s.messageOpen == Spoke(events) && s.known == Named(events) && s.open == OpenNow(events) && (s.open ==> s.seen)
    && s.lost == Resumes(events)
    && (!s.lost ==>
      (s.open ==> (s.ended <==> Paused(events))) && s.soft == ClosedByNext(events) && s.stained == Replaced(events))
  }

  lemma ToldStep(events: seq<Event>, s: Watch)
    requires events != [] && Told(events[..|events| - 1], s)
    ensures Told(events, WatchEvent(true, s, events[|events| - 1]))
  {
    hide Spoke, OpenNow, Resumes, Paused, ClosedByNext, Replaced, WatchCalls, Named;
    var n := |events| - 1;
    var rest, last := events[..n], events[n];
    SpokeStep(events);
    OpenStep(events);
    PausedStep(events);
    ResumesStep(events);
    ClosedByNextStep(events);
    ReplacedStep(events);
    NamedStep(events);
    if Paused(rest) { PausedIsOpen(rest); }
    if ClosedByNext(rest) { ClosedIsNotOpen(rest); }
    if last.ToolCallDelta? {
      CallsWatched(s.(ended := s.ended || s.seen), last.calls);
    }
  }

  lemma NamedStep(events: seq<Event>)
    requires events != []
    ensures
      var last := events[|events| - 1];
      Named(events) == Named(events[..|events| - 1]) + if last.ToolCallDelta? then IndexesOf(last.calls) else {}
  {
  }

  lemma {:induction false} AlwaysTold(events: seq<Event>)
    ensures Told(events, WatchAll(true, events))
  {
    hide WatchEvent;
    if events != [] {
      hide Told;
      AlwaysTold(events[..|events| - 1]);
      ToldStep(events, WatchAll(true, events[..|events| - 1]));
    }
  }

  /**
   On the documented contract the stream ends in exactly the collected output if and only if reasoning
   never resumes after an interruption that began no item and, in an incomplete response, no
   reasoning item was closed by the next item alone.
   */
  lemma DocumentedAgreesIff(base: string, events: seq<Event>, incomplete: bool)
    ensures StreamedOutput(true, base, events, false, incomplete)
         == OutputFromEvents(base, events, FinalStatus(incomplete), true)
       <==> !Resumes(events) && (incomplete ==> !CutOff(events))
  {
    hide StreamedOutput, OutputFromEvents, WatchAll, Resumes, ClosedByNext, Replaced, Paused, OpenNow, Spoke, Named;
    AlwaysTold(events);
    StreamAgreesIff(true, base, events, false, incomplete);
  }
}
