/**
 The streaming usage parser over server-sent events: no lookahead, no line buffer, a byte at a
 time. Its result is the usage of the simple reading of the whole stream.
 */
module SseUsage {
  import opened Bytes
  import opened JsonText
  import opened EventStream
  import opened EventStreamLaws
  import opened UsageJson

  const MAX_LINE_NAME: nat := 5
  const MAX_EVENT_NAME: nat := 19

  class SseUsageParser {
    /** The zero value of the parser. */
    constructor ()
      ensures stream == [] && streamPrefixLength == 0 && !streamPrefixResolved && !skipFollowingLineFeed
      ensures terminalUsage == NO_USAGE && eventTerminal == NotTerminal
      ensures Allocated() && fresh(Repr()) && json.Reading() && json.fed == []
    {
      streamPrefix := new byte[|BOM|](_ => 0);
      lineName := new byte[MAX_LINE_NAME](_ => 0);
      eventName := new byte[MAX_EVENT_NAME](_ => 0);
      terminalUsage, eventTerminal := NO_USAGE, NotTerminal;
      streamPrefixLength, streamPrefixResolved, skipFollowingLineFeed := 0, false, false;
      lineKind, lineNameLength, lineNameTooLong, lineHeaderComplete, lineValueStarted :=
        UnknownLine, 0, false, false, false;
      eventNameLength, eventNameTooLong := 0, false;
      stream := [];
      json := new UsageJsonParser();
    }

    const json: UsageJsonParser
    var terminalUsage: Usage
    const streamPrefix: array<byte>
    var streamPrefixLength: int
    var streamPrefixResolved: bool
    var lineKind: LineKind
    const lineName: array<byte>
    var lineNameLength: int
    var lineNameTooLong: bool
    var lineHeaderComplete: bool
    var lineValueStarted: bool
    const eventName: array<byte>
    var eventNameLength: int
    var eventNameTooLong: bool
    var eventTerminal: Terminal
    var skipFollowingLineFeed: bool

    /** The bytes of the stream so far, with the end marks put in where the usage was asked for. */
    ghost var stream: bytes

    // ---- Invariants ----

    ghost function Repr(): set<object> {
      {this, streamPrefix, lineName, eventName} + json.Repr()
    }

    ghost predicate Allocated() {
      && streamPrefix.Length == |BOM| && lineName.Length == MAX_LINE_NAME && eventName.Length == MAX_EVENT_NAME
      && {this, streamPrefix, lineName, eventName} !! json.Repr()
    }

    /** A bounded buffer holds a text: all of it, or too much of it to matter. */
    static ghost predicate Holds(buffer: array<byte>, length: int, tooLong: bool, text: bytes)
      reads buffer
    {
      && length == |text| && (tooLong <==> length > buffer.Length)
      && (length <= buffer.Length ==> buffer[..length] == text)
    }

    ghost predicate LineMatches(line: bytes)
      requires Allocated()
      reads `lineHeaderComplete, `lineKind, `lineValueStarted, `lineNameLength, `lineNameTooLong, `eventNameLength,
        `eventNameTooLong, lineName, eventName
    {
      && lineHeaderComplete == HasColon(line)
      && lineKind == (if HasColon(line) then KindOf(FieldName(line)) else UnknownLine)
      && lineValueStarted == (AfterColonOf(line) != [])
      && Holds(lineName, lineNameLength, lineNameTooLong, FieldName(line))
      && Holds(eventName, eventNameLength, eventNameTooLong, EventText(line))
    }

    ghost predicate LogMatches(log: EventLog, line: bytes)
      requires Allocated()
      reads `eventTerminal, `terminalUsage, json.Repr()
    {
      && json.Reading() && json.fed == FedData(log.pending.data) + DataText(line)
      && eventTerminal == TerminalForName(log.pending.name)
      && terminalUsage == LastUsage(log.done)
    }

    ghost predicate BodyMatches(body: bytes)
      requires Allocated()
      reads `skipFollowingLineFeed, `lineHeaderComplete, `lineKind, `lineValueStarted, `lineNameLength,
        `lineNameTooLong, `eventNameLength, `eventNameTooLong, lineName, eventName, `eventTerminal, `terminalUsage,
        json.Repr()
    {
      var p := SplitLines(body);
      skipFollowingLineFeed == p.afterCr && LineMatches(p.current) && LogMatches(TakeLines(p.done), p.current)
    }

    /** At any time: before and between writes, and after the usage was asked for. */
    ghost predicate Open()
      reads Repr()
    {
      && Allocated()
      && if streamPrefixResolved then BomSettled(stream) && BodyMatches(StripBom(stream))
         else streamPrefixLength == |stream| < |BOM| && streamPrefix[..streamPrefixLength] == stream && BodyMatches([])
    }

    lemma OpensEmpty()
      requires Allocated() && LineMatches([]) && json.Reading() && json.fed == []
      requires stream == [] && streamPrefixLength == 0 && !streamPrefixResolved && !skipFollowingLineFeed
      requires terminalUsage == NO_USAGE && eventTerminal == NotTerminal
      ensures Open()
    {
      hide UsageJsonParser.Reading, LineMatches, TerminalForName, LastUsage, FedData, DataText, SplitLines, TakeLines;
      NothingRead();
    }

    // ---- Lines ----

    method ResetLine()
      requires Allocated()
      modifies this`lineKind, this`lineNameLength, this`lineNameTooLong, this`lineHeaderComplete, this`lineValueStarted,
        this`eventNameLength, this`eventNameTooLong
      ensures LineMatches([])
    {
      lineKind := UnknownLine;
      lineNameLength := 0;
      lineNameTooLong := false;
      lineHeaderComplete := false;
      lineValueStarted := false;
      eventNameLength := 0;
      eventNameTooLong := false;
    }

    function CurrentLineKind(): LineKind
      requires Allocated() && 0 <= lineNameLength && (lineNameTooLong <==> lineNameLength > MAX_LINE_NAME)
      reads this, lineName
    {
      if lineNameTooLong then UnknownLine else KindOf(lineName[..lineNameLength])
    }

    lemma CurrentKind(name: bytes)
      requires Allocated() && Holds(lineName, lineNameLength, lineNameTooLong, name)
      ensures CurrentLineKind() == KindOf(name)
    {
      assert |DATA| == 4 && |EVENT| == 5;
    }

    method ConsumeLineNameByte(current: byte, ghost line: bytes)
      requires Allocated() && LineMatches(line) && !lineHeaderComplete
      modifies this`lineHeaderComplete, this`lineKind, this`lineNameLength, this`lineNameTooLong, lineName
      ensures LineMatches(line + [current])
    {
      NameByte(line, current);
      CurrentKind(line);
      hide HasColon, FieldName, AfterColonOf, KindOf, FieldValue;
      if current == COLON {
        lineHeaderComplete := true;
        lineKind := CurrentLineKind();
        return;
      }
      if lineNameLength < lineName.Length {
        lineName[lineNameLength] := current;
      } else {
        lineNameTooLong := true;
      }
      lineNameLength := lineNameLength + 1;
    }

    method ConsumeEventNameByte(current: byte, ghost text: bytes)
      requires Allocated() && Holds(eventName, eventNameLength, eventNameTooLong, text)
      modifies this`eventNameLength, this`eventNameTooLong, eventName
      ensures Holds(eventName, eventNameLength, eventNameTooLong, text + [current])
    {
      if eventNameLength < eventName.Length {
        eventName[eventNameLength] := current;
      } else {
        eventNameTooLong := true;
      }
      eventNameLength := eventNameLength + 1;
    }

    lemma TextsPush(line: bytes, current: byte)
      requires HasColon(line)
      ensures DataText(line + [current]) == if KindOf(FieldName(line)) != DataLine then []
        else FieldValue(line + [current])
      ensures EventText(line + [current]) == if KindOf(FieldName(line)) != EventLine then []
        else FieldValue(line + [current])
    {
      ValueByte(line, current);
    }

    method StartLineValue(current: byte) returns (skip: bool)
      modifies `lineValueStarted
      ensures lineValueStarted && skip == (!old(lineValueStarted) && current == SPACE)
    {
      skip := !lineValueStarted && current == SPACE;
      lineValueStarted := true;
    }

    method ConsumeLineValueByte(current: byte, ghost log: EventLog, ghost line: bytes)
      requires Allocated() && LineMatches(line) && LogMatches(log, line) && lineHeaderComplete
      modifies `lineValueStarted, `eventNameLength, `eventNameTooLong, eventName, json.Repr()
      ensures LineMatches(line + [current]) && LogMatches(log, line + [current])
    {
      hide HasColon, FieldName, AfterColonOf, KindOf, FieldValue, FedData, LastUsage, TerminalForName,
        UsageJsonParser.Reading, Holds;
      ValueByte(line, current);
      TextsPush(line, current);
      var skip := StartLineValue(current);
      if !skip {
        match lineKind
        case DataLine => json.ConsumeByte(current);
        case EventLine => ConsumeEventNameByte(current, EventText(line));
        case UnknownLine =>
      }
    }

    // ---- Events ----

    /** The terminal kind of an event line, as far as the buffer can tell. */
    lemma EventNameHeld(line: bytes)
      requires Allocated() && KindOf(FieldName(line)) == EventLine
      requires Holds(eventName, eventNameLength, eventNameTooLong, EventText(line))
      ensures TerminalForName(FieldValue(line)) ==
        if eventNameTooLong then NotTerminal else TerminalForName(eventName[..eventNameLength])
    {
      EventTextEnds(line);
      assert |RESPONSE_COMPLETED| == 18 && |RESPONSE_INCOMPLETE| == 19;
    }

    method FinishEvent(ghost log: EventLog)
      requires Allocated() && LogMatches(log, [])
      modifies `terminalUsage, `eventTerminal, json.Repr()
      ensures LogMatches(TakeLine(log, []), [])
    {
      hide IsPayload, UsageOf, TerminalOf, TerminalForName, FedData, DataText, LastUsage, UsageReported, KindOf,
        FieldName, UsageJsonParser.Reading, UsageJsonParser.Finished;
      FedReports(log.pending);
      LastUsagePush(log.done, log.pending);
      EmptyEvent();
      assert json.fed == FedData(log.pending.data);
      json.Finish();
      var valid := json.Valid();
      if eventTerminal != NotTerminal && json.terminal == eventTerminal && valid {
        terminalUsage := json.usage;
      }
      assert terminalUsage == LastUsage(log.done + [log.pending]);
      json.Reset();
      eventTerminal := NotTerminal;
    }

    /** The end of a line that is not blank. */
    method FinishField(ghost log: EventLog, ghost line: bytes)
      requires Allocated() && LineMatches(line) && LogMatches(log, line) && line != []
      modifies `lineKind, `eventTerminal, json.Repr()
      ensures LogMatches(TakeLine(log, line), [])
    {
      hide HasColon, FieldName, AfterColonOf, KindOf, FieldValue, FedData, LastUsage, TerminalForName, EventText,
        DataText, UsageJsonParser.Reading;
      EmptyEvent();
      CurrentKind(FieldName(line));
      if KindOf(FieldName(line)) == DataLine {
        DataLineEnds(log.pending.data, line);
      } else {
        OtherLineFeedsNothing(line);
      }
      if KindOf(FieldName(line)) == EventLine { EventNameHeld(line); }
      if !lineHeaderComplete {
        lineKind := CurrentLineKind();
      }
      match lineKind
      case DataLine => json.ConsumeByte(LF);
      case EventLine =>
        if eventNameTooLong {
          eventTerminal := NotTerminal;
        } else {
          eventTerminal := TerminalForName(eventName[..eventNameLength]);
        }
      case UnknownLine =>
    }

    method FinishLine(ghost log: EventLog, ghost line: bytes)
      requires Allocated() && LineMatches(line) && LogMatches(log, line)
      modifies this`lineKind, this`lineNameLength, this`lineNameTooLong, this`lineHeaderComplete, this`lineValueStarted,
        this`eventNameLength, this`eventNameTooLong, this`terminalUsage, this`eventTerminal, json.Repr()
      ensures LineMatches([]) && LogMatches(TakeLine(log, line), [])
    {
      hide LogMatches, TakeLine, UsageJsonParser.Reading, HasColon, FieldName, KindOf, AfterColonOf, EventText;
      BlankLine(line);
      assert !lineHeaderComplete && lineNameLength == 0 <==> line == [];
      hide LineMatches;
      if !lineHeaderComplete && lineNameLength == 0 {
        FinishEvent(log);
      } else {
        FinishField(log, line);
      }
      ResetLine();
    }

    // ---- Bytes ----

    method ConsumeByte(current: byte, ghost body: bytes)
      requires Allocated() && BodyMatches(body)
      modifies `skipFollowingLineFeed, `lineKind, `lineNameLength, `lineNameTooLong, `lineHeaderComplete,
        `lineValueStarted, `eventNameLength, `eventNameTooLong, `terminalUsage, `eventTerminal, lineName, eventName,
        json.Repr()
      ensures BodyMatches(body + [current])
    {
      hide LogMatches, LineMatches, TakeLines, TakeLine, SplitLines, UsageJsonParser.Reading, HasColon;
      ghost var p := SplitLines(body);
      ghost var log := TakeLines(p.done);
      SplitPush(body, current);
      TakePush(p.done, p.current);
      HeaderMatches(p.current);
      if skipFollowingLineFeed {
        skipFollowingLineFeed := false;
        if current == LF {
          return;
        }
      }
      if current == CR {
        FinishLine(log, p.current);
        skipFollowingLineFeed := true;
        return;
      }
      if current == LF {
        FinishLine(log, p.current);
        return;
      }
      if !lineHeaderComplete {
        NameFeedsNothing(p.current, current);
        LogMatchesSameText(log, p.current, p.current + [current]);
        ConsumeLineNameByte(current, p.current);
        return;
      }
      ConsumeLineValueByte(current, log, p.current);
    }

    method ResolveStreamPrefix(ghost prefix: bytes)
      requires Allocated() && !streamPrefixResolved
      requires |prefix| == streamPrefixLength <= |BOM|
      requires streamPrefix[..streamPrefixLength] == prefix && BodyMatches([])
      modifies `streamPrefixResolved, `skipFollowingLineFeed, `lineKind, `lineNameLength, `lineNameTooLong,
        `lineHeaderComplete, `lineValueStarted, `eventNameLength, `eventNameTooLong, `terminalUsage, `eventTerminal,
        lineName, eventName, json.Repr()
      ensures streamPrefixResolved && BodyMatches(StripBom(prefix))
    {
      hide BodyMatches;
      streamPrefixResolved := true;
      if streamPrefixLength == streamPrefix.Length && streamPrefix[..] == BOM {
        assert streamPrefix[..] == prefix && prefix[3..] == [];
        return;
      }
      assert StripBom(prefix) == prefix;
      for i := 0 to streamPrefixLength
        invariant streamPrefixResolved && BodyMatches(prefix[..i])
        invariant streamPrefix[..streamPrefixLength] == prefix
      {
        assert prefix[..i] + [prefix[i]] == prefix[..i + 1] && streamPrefix[i] == prefix[i];
        ConsumeByte(streamPrefix[i], prefix[..i]);
      }
      assert prefix[..streamPrefixLength] == prefix;
    }

    method ConsumeStreamByte(current: byte)
      requires Open()
      modifies Repr()
      ensures Open() && stream == old(stream) + [current]
    {
      hide BodyMatches;
      ghost var next := stream + [current];
      if streamPrefixResolved {
        StripBomGrows(stream, [current]);
        ConsumeByte(current, StripBom(stream));
        stream := next;
        return;
      }
      streamPrefix[streamPrefixLength] := current;
      streamPrefixLength := streamPrefixLength + 1;
      stream := next;
      assert streamPrefix[..streamPrefixLength] == next;
      if streamPrefixLength == streamPrefix.Length {
        ResolveStreamPrefix(next);
      }
    }

    /** However the stream is cut into chunks, it is the same stream. */
    method Write(chunk: bytes)
      requires Open()
      modifies Repr()
      ensures Open() && stream == old(stream) + chunk
    {
      hide BodyMatches, Open;
      assert chunk[..0] == [] && stream + [] == stream;
      for i := 0 to |chunk|
        invariant Open() && stream == old(stream) + chunk[..i]
      {
        assert chunk[..i] + [chunk[i]] == chunk[..i + 1];
        ConsumeStreamByte(chunk[i]);
      }
      assert chunk[..|chunk|] == chunk;
    }

    lemma PendingEvent(log: EventLog)
      requires Allocated() && LogMatches(log, [])
      ensures eventTerminal == NotTerminal && !json.HasContent() ==> LogMatches(TakeLine(log, []), [])
    {
      hide UsageJsonParser.Reading, LastUsage, FedData, TerminalForName, KindOf, FieldName;
      json.ContentIsFed();
      EmptyEvent();
      FeedsAreJoined(log.pending.data);
      if log.pending.data == [] {
        NoDataReportsNothing(log.pending);
        LastUsagePush(log.done, log.pending);
      }
    }

    /** Ends the line and the event in progress, if any. */
    method FinishStream(ghost log: EventLog, ghost line: bytes)
      requires Allocated() && LineMatches(line) && LogMatches(log, line)
      modifies `lineKind, `lineNameLength, `lineNameTooLong, `lineHeaderComplete, `lineValueStarted, `eventNameLength,
        `eventNameTooLong, `terminalUsage, `eventTerminal, json.Repr()
      ensures LineMatches([]) && LogMatches(TakeLine(EndLine(log, line), []), [])
    {
      hide LogMatches, TakeLine, UsageJsonParser.Reading, UsageJsonParser.HasContent, HasColon, FieldName, KindOf,
        AfterColonOf, EventText, LogUsage;
      BlankLine(line);
      assert lineHeaderComplete || lineNameLength > 0 <==> line != [];
      hide LineMatches;
      ghost var ended := EndLine(log, line);
      if lineHeaderComplete || lineNameLength > 0 {
        FinishLine(log, line);
      }
      PendingEvent(ended);
      if eventTerminal != NotTerminal || json.HasContent() {
        FinishEvent(ended);
      }
    }

    lemma EndedMatches()
      requires Allocated() && LineMatches([])
      requires var p := SplitLines(StripBom(stream));
        skipFollowingLineFeed == p.afterCr && LogMatches(TakeLine(EndLine(TakeLines(p.done), p.current), []), [])
      ensures BodyMatches(StripBom(EndedStream(stream))) && terminalUsage == StreamUsage(stream)
    {
      hide LineMatches, StripBom, SplitLines, UsageJsonParser.Reading, EndedStream, EndsLine, LastUsage, DataText;
      var p := SplitLines(StripBom(stream));
      EndedSplits(stream);
      TakePush(p.done, p.current);
      TakePush(LinesOf(StripBom(stream)), []);
      StreamUsageOfSplit(stream);
    }

    /**
     The usage of the stream so far. Asking ends the line and the event in progress, and the stream
     goes on as if their ends had been in it; asking again gives the same answer.
     */
    method Usage() returns (usage: Usage)
      requires Open()
      modifies Repr()
      ensures Open() && stream == EndedStream(old(stream))
      ensures usage == StreamUsage(old(stream)) && usage == StreamUsage(stream)
    {
      hide StripBom, LineMatches, LogMatches, UsageJsonParser.Reading, StreamUsage, SplitLines, TakeLines, TakeLine,
        EndLine, EventsOf, LogUsage, EndedStream, EndsLine;
      ghost var p := SplitLines(StripBom(stream));
      if !streamPrefixResolved {
        ShortStreamHasNoBom(stream);
        ResolveStreamPrefix(stream);
      }
      FinishStream(TakeLines(p.done), p.current);
      EndedMatches();
      EndedSplits(stream);
      EndedIsSettled(EndedStream(stream));
      EndedKeepsUsage(stream);
      stream := EndedStream(stream);
      usage := terminalUsage;
    }

    lemma HeaderMatches(line: bytes)
      requires Allocated() && LineMatches(line)
      ensures lineHeaderComplete == HasColon(line)
    {
    }

    lemma LogMatchesSameText(log: EventLog, line: bytes, next: bytes)
      requires Allocated() && LogMatches(log, line) && DataText(line) == DataText(next)
      ensures LogMatches(log, next)
    {
    }
  }

  /** Whether the stream starts with a byte order mark no longer depends on what comes. */
  predicate BomSettled(s: bytes) {
    |s| >= |BOM| || !(s <= BOM)
  }

  lemma StripBomGrows(s: bytes, t: bytes)
    requires BomSettled(s)
    ensures StripBom(s + t) == StripBom(s) + t && BomSettled(s + t)
  {
    if |s| >= |BOM| {
      StripBomPush(s, t);
    } else {
      var i :| 0 <= i < |s| && s[i] != BOM[i];
      assert (s + t)[i] == s[i];
    }
  }

  lemma EndedIsSettled(s: bytes)
    requires EndsLine(s)
    ensures BomSettled(s)
  {
  }

  lemma ShortStreamHasNoBom(s: bytes)
    requires |s| < |BOM|
    ensures StripBom(s) == s
  {
  }

  lemma NameFeedsNothing(line: bytes, b: byte)
    requires !HasColon(line)
    ensures DataText(line) == [] && DataText(line + [b]) == []
  {
    hide FieldName, KindOf;
    NameByte(line, b);
    if HasColon(line + [b]) { NoValueYet(line + [b]); }
  }

  lemma NoValueYet(line: bytes)
    requires AfterColonOf(line) == []
    ensures DataText(line) == []
  {
  }

  lemma NothingRead()
    ensures SplitLines([]) == Split([], [], false) && TakeLines([]) == EventLog([], NO_EVENT)
    ensures FedData([]) + DataText([]) == [] && LastUsage([]) == NO_USAGE && TerminalForName([]) == NotTerminal
  {
  }

  lemma EmptyEvent()
    ensures FedData([]) == [] && DataText([]) == [] && EventText([]) == [] && TerminalForName([]) == NotTerminal
  {
  }

  lemma BlankLine(line: bytes)
    ensures !HasColon(line) && FieldName(line) == [] <==> line == []
  {
  }

  lemma EventTextEnds(line: bytes)
    requires KindOf(FieldName(line)) == EventLine
    ensures EventText(line) == FieldValue(line)
  {
    if !HasColon(line) { NameByte(line, LF); }
  }

  lemma OtherLineFeedsNothing(line: bytes)
    requires KindOf(FieldName(line)) != DataLine
    ensures DataText(line) == []
  {
  }

  method NewSseUsageParser() returns (p: SseUsageParser)
    ensures p.Open() && p.stream == [] && fresh(p.Repr())
  {
    hide UsageJsonParser.Reading, SseUsageParser.LineMatches, SseUsageParser.Open;
    p := new SseUsageParser();
    p.ResetLine();
    p.OpensEmpty();
  }
}
