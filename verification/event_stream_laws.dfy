/** What the usage of a stream does and does not depend on. */
module EventStreamLaws {
  import opened Wrappers
  import opened Bytes
  import opened JsonText
  import opened EventStream
  import JsonCompleteness

  // ---- The last report counts ----

  lemma PayloadIsUnique(s: bytes, d: Document, e: Document)
    requires IsPayload(s, d) && IsPayload(s, e)
    ensures d == e
  {
    hide IsPayload;
    JsonCompleteness.AcceptsIffPayload(s);
  }

  /** The usage of a reporting event is that of its one and only tree. */
  lemma ReportedUsage(e: Event, d: Document)
    requires ReportsIn(e, d)
    ensures UsageReported(e) == Some(UsageOf(d.value))
  {
    hide IsPayload, UsageOf, TerminalOf, TerminalForName, JoinedData;
    PayloadIsUnique(JoinedData(e.data), d, ReportOf(e));
  }

  /** A later event that reports nothing erases nothing; one that does replaces what was there. */
  lemma LastUsagePush(es: seq<Event>, e: Event)
    ensures LastUsage(es + [e]) == if UsageReported(e).Some? then UsageReported(e).value else LastUsage(es)
  {
    assert (es + [e])[..|es|] == es;
  }

  /** The usage is that of the last event that reports. */
  lemma {:induction false} LastUsageIsLast(es: seq<Event>, i: nat)
    requires i < |es| && UsageReported(es[i]).Some? && forall j :: i < j < |es| ==> UsageReported(es[j]).None?
    ensures LastUsage(es) == UsageReported(es[i]).value
  {
    hide UsageReported;
    if i < |es| - 1 {
      LastUsageIsLast(es[..|es| - 1], i);
    }
  }

  /** Without a report there is no usage. */
  lemma {:induction false} NoReportNoUsage(es: seq<Event>)
    requires forall j :: 0 <= j < |es| ==> UsageReported(es[j]).None?
    ensures LastUsage(es) == NO_USAGE
  {
    hide UsageReported;
    if es != [] {
      NoReportNoUsage(es[..|es| - 1]);
    }
  }

  // ---- Trailing line feeds ----

  lemma DigitsEnd(s: bytes)
    requires s != [] && AllDigits(s)
    ensures !IsSpace(s[|s| - 1])
  {
  }

  lemma NumberEnds(n: NumberText)
    requires NumberOk(n)
    ensures RenderNumber(n) != [] && !IsSpace(RenderNumber(n)[|RenderNumber(n)| - 1])
  {
    if n.exp.Some? {
      DigitsEnd(n.exp.value.digits);
    } else if n.frac.Some? {
      DigitsEnd(n.frac.value);
    } else {
      DigitsEnd(n.whole);
    }
  }

  /** No value ends in whitespace. */
  lemma ValueEnds(v: Json)
    requires WellFormed(v)
    ensures Render(v) != [] && !IsSpace(Render(v)[|Render(v)| - 1])
  {
    match v
    case Word(w) => JsonCompleteness.WordBytes(w);
    case Str(ps) =>
    case Num(n) => NumberEnds(n);
    case Node(_, _, _) =>
  }

  lemma NothingIsNoPayload(d: Document)
    ensures !IsPayload([], d)
  {
    if IsPayload([], d) { ValueEnds(d.value); }
  }

  lemma PayloadThenSpace(s: bytes, d: Document)
    requires IsPayload(s, d)
    ensures IsPayload(s + [LF], d.(trail := d.trail + [LF]))
  {
    hide WellFormed, Acceptable, Render;
    assert RenderDocument(d.(trail := d.trail + [LF])) == RenderDocument(d) + [LF];
  }

  lemma PayloadBeforeSpace(s: bytes, d: Document)
    requires IsPayload(s + [LF], d)
    ensures d.trail != [] && IsPayload(s, d.(trail := d.trail[..|d.trail| - 1]))
  {
    ValueEnds(d.value);
    hide WellFormed, Acceptable, Render;
    var whole := d.lead + Render(d.value) + d.trail;
    assert whole[|whole| - 1] == LF;
    var e := d.(trail := d.trail[..|d.trail| - 1]);
    assert RenderDocument(e) == whole[..|whole| - 1] == s;
  }

  /** Data as the parser is fed it: every data line followed by a line feed. */
  function FedData(data: seq<bytes>): bytes {
    if data == [] then [] else FedData(data[..|data| - 1]) + data[|data| - 1] + [LF]
  }

  lemma {:induction false} FedIsJoined(data: seq<bytes>)
    ensures FedData(data) == if data == [] then [] else JoinedData(data) + [LF]
  {
    if |data| > 1 {
      FedIsJoined(data[..|data| - 1]);
    }
  }

  lemma FedDataPush(data: seq<bytes>, line: bytes)
    ensures FedData(data + [line]) == FedData(data) + line + [LF]
  {
    assert (data + [line])[..|data|] == data;
  }

  /** The last line feed changes neither the verdict nor what is read. */
  lemma FedReports(e: Event)
    ensures UsageReported(e).Some? <==>
      TerminalForName(e.name) != NotTerminal
      && exists d :: IsPayload(FedData(e.data), d) && TerminalOf(d.value) == TerminalForName(e.name)
    ensures forall d ::
      IsPayload(FedData(e.data), d) && TerminalForName(e.name) != NotTerminal
        && TerminalOf(d.value) == TerminalForName(e.name)
      ==> UsageReported(e) == Some(UsageOf(d.value))
  {
    hide IsPayload, UsageOf, TerminalOf, TerminalForName, JoinedData, FedData;
    var text := JoinedData(e.data);
    FedIsJoined(e.data);
    forall d | IsPayload(FedData(e.data), d) && TerminalForName(e.name) != NotTerminal
      && TerminalOf(d.value) == TerminalForName(e.name)
      ensures UsageReported(e) == Some(UsageOf(d.value))
    {
      if e.data == [] {
        NothingIsNoPayload(d);
      } else {
        PayloadBeforeSpace(text, d);
        ReportedUsage(e, d.(trail := d.trail[..|d.trail| - 1]));
      }
    }
    if UsageReported(e).Some? {
      var d :| ReportsIn(e, d);
      if e.data == [] {
        assert text == [] by { EmptyData(); }
        NothingIsNoPayload(d);
      } else {
        PayloadThenSpace(text, d);
      }
    }
  }

  lemma EmptyData()
    ensures JoinedData([]) == []
  {
  }

  lemma NoDataReportsNothing(e: Event)
    requires e.data == []
    ensures UsageReported(e).None?
  {
    forall d ensures !ReportsIn(e, d) { NothingIsNoPayload(d); }
  }

  // ---- The end of the stream ----

  lemma SplitPush(s: bytes, b: byte)
    ensures var p := SplitLines(s);
      SplitLines(s + [b]) ==
        if b == LF && p.afterCr then p.(afterCr := false)
        else if b == LF || b == CR then Split(p.done + [p.current], [], b == CR)
        else Split(p.done, p.current + [b], false)
  {
    assert (s + [b])[..|s|] == s;
  }

  lemma {:induction false} AfterCrIsEmpty(s: bytes)
    ensures SplitLines(s).afterCr ==> SplitLines(s).current == []
  {
    if s != [] { AfterCrIsEmpty(s[..|s| - 1]); }
  }

  lemma TakePush(lines: seq<bytes>, line: bytes)
    ensures TakeLines(lines + [line]) == TakeLine(TakeLines(lines), line)
  {
    assert (lines + [line])[..|lines|] == lines;
  }

  /** The usage of a log, with its pending event dispatched. */
  ghost function LogUsage(log: EventLog): Usage {
    LastUsage(log.done + [log.pending])
  }

  lemma BlankLineKeepsUsage(lines: seq<bytes>)
    ensures LogUsage(TakeLines(lines + [[]])) == LogUsage(TakeLines(lines))
  {
    var log := TakeLines(lines);
    TakePush(lines, []);
    NoDataReportsNothing(NO_EVENT);
    LastUsagePush(log.done + [log.pending], NO_EVENT);
  }

  lemma StripBomPush(s: bytes, t: bytes)
    requires |s| >= 3 || (|t| > 0 && (t[0] == LF || t[0] == CR))
    ensures StripBom(s + t) == StripBom(s) + t
  {
    if |s| >= 3 {
      assert (s + t)[..3] == s[..3];
    } else {
      assert |s + t| >= 3 ==> (s + t)[|s|] == t[0];
    }
  }

  lemma LinesOfTwoFeeds(s: bytes)
    ensures LinesOf(s + [LF, LF]) == LinesOf(s) + [[]] || LinesOf(s + [LF, LF]) == LinesOf(s) + [[]] + [[]]
  {
    SplitPush(s, LF);
    SplitPush(s + [LF], LF);
    assert s + [LF] + [LF] == s + [LF, LF];
    AfterCrIsEmpty(s);
  }

  /** The end of a stream acts like two line feeds. */
  lemma EndActsAsTwoFeeds(s: bytes)
    ensures StreamUsage(s + [LF, LF]) == StreamUsage(s)
  {
    hide LinesOf, TakeLines, LogUsage;
    var lines := LinesOf(StripBom(s));
    StripBomPush(s, [LF, LF]);
    LinesOfTwoFeeds(StripBom(s));
    BlankLineKeepsUsage(lines);
    BlankLineKeepsUsage(lines + [[]]);
    StreamUsageOfLog(s);
    StreamUsageOfLog(s + [LF, LF]);
  }

  lemma StreamUsageOfLog(s: bytes)
    ensures StreamUsage(s) == LogUsage(TakeLines(LinesOf(StripBom(s))))
  {
  }

  // ---- Line endings ----

  datatype Ending = EndLf | EndCr | EndCrLf

  function EndBytes(e: Ending): bytes {
    match e
    case EndLf => [0x0A]
    case EndCr => [0x0D]
    case EndCrLf => [0x0D, 0x0A]
  }

  predicate IsLine(line: bytes) {
    0x0A !in line && 0x0D !in line
  }

  /** Lines with an ending each. */
  predicate Endable(lines: seq<bytes>, ends: seq<Ending>) {
    |ends| == |lines| && forall i :: 0 <= i < |lines| ==> IsLine(lines[i])
  }

  /** A blank line ended by LF must not follow a line ended by a lone CR: the two would read as one CRLF. */
  predicate Unambiguous(lines: seq<bytes>, ends: seq<Ending>)
    requires |ends| == |lines|
  {
    forall i :: 0 < i < |lines| && ends[i - 1] == EndCr && lines[i] == [] ==> ends[i] != EndLf
  }

  function Encode(lines: seq<bytes>, ends: seq<Ending>): bytes
    requires |ends| == |lines|
  {
    if lines == [] then [] else
      var n := |lines| - 1;
      Encode(lines[..n], ends[..n]) + (lines[n] + EndBytes(ends[n]))
  }

  lemma {:induction false} PlainBytesSplit(s: bytes, line: bytes)
    requires IsLine(line) && line != []
    ensures SplitLines(s + line) == Split(SplitLines(s).done, SplitLines(s).current + line, false)
  {
    var n := |line| - 1;
    assert s + line == s + line[..n] + [line[n]];
    SplitPush(s + line[..n], line[n]);
    if n == 0 {
      assert line[..n] == [] && s + [] == s;
      AfterCrIsEmpty(s);
      assert SplitLines(s).current + line == SplitLines(s).current + [line[0]];
    } else {
      PlainBytesSplit(s, line[..n]);
      assert SplitLines(s).current + line == SplitLines(s).current + line[..n] + [line[n]];
    }
  }

  lemma EndedLineSplit(s: bytes, line: bytes, e: Ending)
    requires IsLine(line) && SplitLines(s).current == []
    requires SplitLines(s).afterCr && line == [] ==> e != EndLf
    ensures SplitLines(s + (line + EndBytes(e))) == Split(SplitLines(s).done + [line], [], e == EndCr)
  {
    if line != [] { PlainBytesSplit(s, line); } else { assert s + line == s; }
    var t := s + line;
    assert [] + line == line;
    if e == EndCrLf {
      SplitPush(t, CR);
      SplitPush(t + [CR], LF);
      assert t + [CR] + [LF] == s + (line + EndBytes(e));
    } else {
      SplitPush(t, EndBytes(e)[0]);
      assert t + [EndBytes(e)[0]] == s + (line + EndBytes(e));
    }
  }

  /** Splitting undoes ending: whatever mix of endings was used, the lines come back. */
  lemma {:induction false} SplitUndoesEncode(lines: seq<bytes>, ends: seq<Ending>)
    requires Endable(lines, ends) && Unambiguous(lines, ends)
    ensures SplitLines(Encode(lines, ends)) == Split(lines, [], lines != [] && ends[|ends| - 1] == EndCr)
  {
    hide EndBytes, IsLine;
    if lines != [] {
      var n := |lines| - 1;
      SplitUndoesEncode(lines[..n], ends[..n]);
      EndedLineSplit(Encode(lines[..n], ends[..n]), lines[n], ends[n]);
      assert lines[..n] + [lines[n]] == lines;
    }
  }

  function StripFirst(lines: seq<bytes>): seq<bytes> {
    if lines == [] then [] else [StripBom(lines[0])] + lines[1..]
  }

  predicate EndsLine(s: bytes) {
    s != [] && (s[|s| - 1] == LF || s[|s| - 1] == CR)
  }

  lemma StripBomOfEnded(s: bytes, t: bytes)
    requires EndsLine(s)
    ensures StripBom(s + t) == StripBom(s) + t
  {
    if |s| >= 3 {
      assert (s + t)[..3] == s[..3];
    } else {
      assert (s + t)[|s| - 1] == s[|s| - 1];
    }
  }

  lemma StripBomOfLine(line: bytes, e: Ending)
    requires IsLine(line)
    ensures StripBom(line + EndBytes(e)) == StripBom(line) + EndBytes(e)
  {
    var s := line + EndBytes(e);
    if |line| >= 3 {
      assert s[..3] == line[..3];
    } else {
      assert s[|line|] == EndBytes(e)[0];
    }
  }

  lemma EncodeEnds(lines: seq<bytes>, ends: seq<Ending>)
    requires |ends| == |lines| && lines != []
    ensures EndsLine(Encode(lines, ends))
  {
  }

  lemma {:induction false} StripBomOfEncode(lines: seq<bytes>, ends: seq<Ending>)
    requires Endable(lines, ends)
    ensures StripBom(Encode(lines, ends)) == Encode(StripFirst(lines), ends)
  {
    hide EndBytes, StripBom, EndsLine, IsLine;
    var n := |lines| - 1;
    if n == 0 {
      StripBomOfLine(lines[0], ends[0]);
      assert [] + (lines[0] + EndBytes(ends[0])) == lines[0] + EndBytes(ends[0]);
      assert [] + (StripBom(lines[0]) + EndBytes(ends[0])) == StripBom(lines[0]) + EndBytes(ends[0]);
    } else if n > 0 {
      StripBomOfEncode(lines[..n], ends[..n]);
      EncodeEnds(lines[..n], ends[..n]);
      StripBomOfEnded(Encode(lines[..n], ends[..n]), lines[n] + EndBytes(ends[n]));
      assert StripFirst(lines)[..n] == StripFirst(lines[..n]);
    } else {
      NothingToStrip();
    }
  }

  lemma NothingToStrip()
    ensures StripBom([]) == []
  {
  }

  /** Any choice of line endings gives the same usage. */
  lemma EndingsDoNotMatter(lines: seq<bytes>, ends: seq<Ending>, others: seq<Ending>)
    requires Endable(lines, ends) && Unambiguous(lines, ends)
    requires Endable(lines, others) && Unambiguous(lines, others)
    ensures StreamUsage(Encode(lines, ends)) == StreamUsage(Encode(lines, others))
  {
    var stripped := StripFirst(lines);
    StripBomOfEncode(lines, ends);
    StripBomOfEncode(lines, others);
    assert forall i :: 0 < i < |lines| ==> stripped[i] == lines[i];
    SplitUndoesEncode(stripped, ends);
    SplitUndoesEncode(stripped, others);
    StreamUsageOfLog(Encode(lines, ends));
    StreamUsageOfLog(Encode(lines, others));
  }

  // ---- Lines in progress ----

  /** What a data line has contributed to the payload so far. */
  function DataText(line: bytes): bytes {
    if HasColon(line) && KindOf(FieldName(line)) == DataLine then FieldValue(line) else []
  }

  /** What an event line has contributed to the event name so far. */
  function EventText(line: bytes): bytes {
    if HasColon(line) && KindOf(FieldName(line)) == EventLine then FieldValue(line) else []
  }

  lemma ColonPush(line: bytes, b: byte)
    ensures ColonIndex(line + [b]) ==
      if HasColon(line) then ColonIndex(line) else if b == COLON then |line| else |line| + 1
  {
    assert (line + [b])[..|line|] == line;
  }

  lemma NameByte(line: bytes, b: byte)
    requires !HasColon(line)
    ensures FieldName(line) == line && AfterColonOf(line) == []
    ensures AfterColonOf(line + [b]) == []
    ensures b == COLON ==> HasColon(line + [b]) && FieldName(line + [b]) == line
    ensures b != COLON ==> !HasColon(line + [b]) && FieldName(line + [b]) == line + [b]
  {
    ColonPush(line, b);
    assert line[..|line|] == line;
  }

  lemma ValueByte(line: bytes, b: byte)
    requires HasColon(line)
    ensures HasColon(line + [b]) && FieldName(line + [b]) == FieldName(line)
    ensures AfterColonOf(line + [b]) == AfterColonOf(line) + [b]
    ensures FieldValue(line + [b]) == if AfterColonOf(line) == [] && b == SPACE then [] else FieldValue(line) + [b]
    ensures AfterColonOf(line) == [] ==> FieldValue(line) == []
  {
    ColonPush(line, b);
    var k := ColonIndex(line);
    assert (line + [b])[..k] == line[..k];
    assert (line + [b])[k + 1..] == line[k + 1..] + [b];
  }

  lemma FeedsAreJoined(data: seq<bytes>)
    ensures FedData(data) == [] <==> data == []
  {
  }

  /** The end of a data line completes its contribution. */
  lemma DataLineEnds(data: seq<bytes>, line: bytes)
    requires line != [] && KindOf(FieldName(line)) == DataLine
    ensures FedData(data + [FieldValue(line)]) == FedData(data) + DataText(line) + [LF]
  {
    FedDataPush(data, FieldValue(line));
    if !HasColon(line) { NameByte(line, LF); }
  }

  /** A log with the line in progress ended, if one has begun. */
  function EndLine(log: EventLog, line: bytes): EventLog {
    if line == [] then log else TakeLine(log, line)
  }

  /** The bytes that end the line and the event in progress, whatever the stream ends in. */
  function EndMark(s: bytes): bytes {
    var p := SplitLines(StripBom(s));
    if p.current != [] then [LF, LF] else if p.afterCr then [CR] else [LF]
  }

  function EndedStream(s: bytes): bytes {
    s + EndMark(s)
  }

  lemma EndedSplits(s: bytes)
    ensures EndsLine(EndedStream(s))
    ensures SplitLines(StripBom(EndedStream(s))) ==
      Split(LinesOf(StripBom(s)) + [[]], [], SplitLines(StripBom(s)).afterCr)
  {
    var body, mark := StripBom(s), EndMark(s);
    StripBomPush(s, mark);
    hide StripBom;
    AfterCrIsEmpty(body);
    SplitPush(body, mark[0]);
    if |mark| == 2 {
      SplitPush(body + [LF], LF);
      assert body + [LF] + [LF] == body + mark;
    } else {
      assert body + [mark[0]] == body + mark;
    }
  }

  /** The end marks report nothing more. */
  lemma EndedKeepsUsage(s: bytes)
    ensures StreamUsage(EndedStream(s)) == StreamUsage(s)
  {
    hide StripBom, SplitLines, TakeLines, LogUsage, EndedStream, EndsLine;
    EndedSplits(s);
    BlankLineKeepsUsage(LinesOf(StripBom(s)));
    StreamUsageOfLog(s);
    StreamUsageOfLog(EndedStream(s));
  }

  lemma StreamUsageOfSplit(s: bytes)
    ensures var p := SplitLines(StripBom(s)); StreamUsage(s) == LogUsage(EndLine(TakeLines(p.done), p.current))
  {
    hide SplitLines, TakeLines, LogUsage, StripBom;
    var p := SplitLines(StripBom(s));
    StreamUsageOfLog(s);
    TakePush(p.done, p.current);
  }
}
