/**
 Server-sent event streams as sections 9.2.5 and 9.2.6 of the WHATWG HTML Living Standard read
 them, cut down to the two fields the usage parser looks at, and the usage such a stream reports.
 This is the simple form: split into lines, group into events, join the data, look the usage up.
 */
module EventStream {
  import opened Wrappers
  import opened Bytes
  import opened JsonText

  // ---- Lines ----

  const BOM: bytes := [0xEF, 0xBB, 0xBF]

  function StripBom(s: bytes): bytes {
    if |s| >= 3 && s[..3] == BOM then s[3..] else s
  }

  /** The lines ended so far, the bytes after the last end, and whether that end was a lone CR. */
  datatype Split = Split(done: seq<bytes>, current: bytes, afterCr: bool)

  function SplitLines(s: bytes): Split {
    if s == [] then Split([], [], false)
    else
      var p := SplitLines(s[..|s| - 1]);
      var b := s[|s| - 1];
      if b == LF && p.afterCr then p.(afterCr := false)
      else if b == LF || b == CR then Split(p.done + [p.current], [], b == CR)
      else Split(p.done, p.current + [b], false)
  }

  /** The lines of a whole stream: the end of the stream ends a last line that has begun. */
  function LinesOf(s: bytes): seq<bytes> {
    var p := SplitLines(s);
    if p.current == [] then p.done else p.done + [p.current]
  }

  // ---- Fields ----

  /** The position of the first colon, or the length of a line without one. */
  function ColonIndex(line: bytes): (k: nat)
    ensures k <= |line|
  {
    if line == [] then 0
    else
      var n := |line| - 1;
      var k := ColonIndex(line[..n]);
      if k < n then k else if line[n] == COLON then n else n + 1
  }

  predicate HasColon(line: bytes) {
    ColonIndex(line) < |line|
  }

  function FieldName(line: bytes): bytes {
    line[..ColonIndex(line)]
  }

  function AfterColonOf(line: bytes): bytes {
    if HasColon(line) then line[ColonIndex(line) + 1..] else []
  }

  /** The text after the colon, less one leading space. */
  function FieldValue(line: bytes): bytes {
    var raw := AfterColonOf(line);
    if raw != [] && raw[0] == SPACE then raw[1..] else raw
  }

  datatype LineKind = UnknownLine | DataLine | EventLine

  const DATA: bytes := Ascii("data")
  const EVENT: bytes := Ascii("event")

  function KindOf(name: bytes): LineKind {
    if name == DATA then DataLine else if name == EVENT then EventLine else UnknownLine
  }

  // ---- Events ----

  datatype Event = Event(name: bytes, data: seq<bytes>)

  const NO_EVENT: Event := Event([], [])

  datatype EventLog = EventLog(done: seq<Event>, pending: Event)

  /** A blank line ends the event; `event` sets its name, `data` adds to its data, others do nothing. */
  function TakeLine(log: EventLog, line: bytes): EventLog {
    if line == [] then EventLog(log.done + [log.pending], NO_EVENT)
    else match KindOf(FieldName(line))
      case DataLine => log.(pending := log.pending.(data := log.pending.data + [FieldValue(line)]))
      case EventLine => log.(pending := log.pending.(name := FieldValue(line)))
      case UnknownLine => log
  }

  function TakeLines(lines: seq<bytes>): EventLog {
    if lines == [] then EventLog([], NO_EVENT)
    else TakeLine(TakeLines(lines[..|lines| - 1]), lines[|lines| - 1])
  }

  /** The events of a whole stream: its end dispatches the event it interrupts. */
  function EventsOf(s: bytes): seq<Event> {
    var log := TakeLines(LinesOf(StripBom(s)));
    log.done + [log.pending]
  }

  /** The data lines of an event joined by line feeds. */
  function JoinedData(data: seq<bytes>): bytes {
    if data == [] then []
    else if |data| == 1 then data[0]
    else JoinedData(data[..|data| - 1]) + [LF] + data[|data| - 1]
  }

  // ---- Usage ----

  /** The event is a terminal one, by its name and by the `type` of its payload. */
  ghost predicate ReportsIn(e: Event, d: Document) {
    && TerminalForName(e.name) != NotTerminal
    && IsPayload(JoinedData(e.data), d)
    && TerminalOf(d.value) == TerminalForName(e.name)
  }

  ghost function ReportOf(e: Event): (d: Document)
    requires exists d :: ReportsIn(e, d)
    ensures ReportsIn(e, d)
  {
    var d :| ReportsIn(e, d);
    d
  }

  ghost function UsageReported(e: Event): Option<Usage> {
    if exists d :: ReportsIn(e, d) then Some(UsageOf(ReportOf(e).value)) else None
  }

  /** The usage of the last event that reports one. */
  ghost function LastUsage(es: seq<Event>): Usage {
    if es == [] then NO_USAGE
    else match UsageReported(es[|es| - 1])
      case Some(u) => u
      case None => LastUsage(es[..|es| - 1])
  }

  ghost function StreamUsage(s: bytes): Usage {
    LastUsage(EventsOf(s))
  }
}
