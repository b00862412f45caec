/**
 Usage written out and read back: a terminal event with four counters, spelled in bytes, reports
 exactly those counters, whatever they are. With it, what each line of a stream does and which events
 report, with every name spelled out.
 */
module UsageRoundTrip {
  import opened Wrappers
  import opened Bytes
  import opened JsonText
  import opened EventStream
  import opened EventStreamLaws
  import opened DecimalText
  import opened JsonSpelling
  import JsonReadout

  lemma AsciiBytes(s: string)
    requires IsAscii(s)
    ensures |Ascii(s)| == |s| && forall i :: 0 <= i < |s| ==> Ascii(s)[i] as int == s[i] as int
  {
  }

  // ---- Lines ----

  /** One space after the colon does not belong to the value. */
  function Unspaced(value: bytes): bytes {
    if value != [] && value[0] == 0x20 then value[1..] else value
  }

  lemma {:induction false} ColonComes(name: bytes, value: bytes)
    requires 0x3A !in name
    ensures ColonIndex(name) == |name| && ColonIndex(name + [0x3A] + value) == |name|
    decreases |name| + |value|
  {
    if value != [] {
      var n := |value| - 1;
      ColonComes(name, value[..n]);
      assert (name + [0x3A] + value)[..|name| + 1 + n] == name + [0x3A] + value[..n];
    } else {
      NoColon(name);
      assert name + [0x3A] + value == name + [0x3A];
      assert (name + [0x3A])[..|name|] == name;
    }
  }

  lemma {:induction false} NoColon(name: bytes)
    requires 0x3A !in name
    ensures ColonIndex(name) == |name|
  {
    if name != [] {
      var n := |name| - 1;
      assert name[n] in name;
      NoColon(name[..n]);
    }
  }

  /** What a line with a name and a value does to the events so far. */
  function Told(log: EventLog, name: bytes, value: bytes): EventLog {
    if name == Ascii("data") then log.(pending := log.pending.(data := log.pending.data + [value]))
    else if name == Ascii("event") then log.(pending := log.pending.(name := value))
    else log
  }

  /** A blank line ends the event; a line is a name and, after a colon and one space or none, a value. */
  lemma LineEffects(log: EventLog, name: bytes, value: bytes)
    requires 0x3A !in name
    ensures TakeLine(log, []) == EventLog(log.done + [log.pending], Event([], []))
    ensures TakeLine(log, name + [0x3A] + value) == Told(log, name, Unspaced(value))
    ensures name != [] ==> TakeLine(log, name) == Told(log, name, [])
  {
    ColonComes(name, value);
    var line := name + [0x3A] + value;
    assert line[..|name|] == name && line[|name| + 1..] == value && name[..|name|] == name;
    NamesOfLines();
  }

  lemma NamesOfLines()
    ensures Ascii("data") != Ascii("event")
  {
  }

  // ---- Events ----

  function DataLines(data: seq<bytes>): seq<bytes> {
    if data == [] then [] else DataLines(data[..|data| - 1]) + [Ascii("data") + [0x3A, 0x20] + data[|data| - 1]]
  }

  /** An event as it is written: its name, its data line by line, and a blank line. */
  function EventLines(name: bytes, data: seq<bytes>): seq<bytes> {
    [Ascii("event") + [0x3A, 0x20] + name] + DataLines(data) + [[]]
  }

  lemma FieldLine(log: EventLog, field: bytes, value: bytes)
    requires 0x3A !in field
    ensures TakeLine(log, field + [0x3A, 0x20] + value) == Told(log, field, value)
  {
    assert field + [0x3A, 0x20] + value == field + [0x3A] + ([0x20] + value);
    assert ([0x20] + value)[1..] == value;
    LineEffects(log, field, [0x20] + value);
  }

  lemma NoColonInFields()
    ensures 0x3A !in Ascii("data") && 0x3A !in Ascii("event")
  {
  }

  lemma {:induction false} DataCollects(name: bytes, data: seq<bytes>)
    ensures TakeLines([Ascii("event") + [0x3A, 0x20] + name] + DataLines(data)) == EventLog([], Event(name, data))
  {
    hide TakeLine;
    NoColonInFields();
    var first := Ascii("event") + [0x3A, 0x20] + name;
    if data == [] {
      FieldLine(EventLog([], NO_EVENT), Ascii("event"), name);
      assert [first] + [] == [] + [first];
      TakePush([], first);
      NamesOfLines();
    } else {
      var n := |data| - 1;
      DataCollects(name, data[..n]);
      FieldLine(EventLog([], Event(name, data[..n])), Ascii("data"), data[n]);
      TakePush([first] + DataLines(data[..n]), Ascii("data") + [0x3A, 0x20] + data[n]);
      assert [first] + DataLines(data) == [first] + DataLines(data[..n]) + [Ascii("data") + [0x3A, 0x20] + data[n]];
      assert data == data[..n] + [data[n]];
    }
  }

  lemma {:induction false} DataLinesAreLines(data: seq<bytes>)
    requires forall i :: 0 <= i < |data| ==> IsLine(data[i])
    ensures |DataLines(data)| == |data| && forall i :: 0 <= i < |data| ==> IsLine(DataLines(data)[i])
  {
    if data != [] {
      DataLinesAreLines(data[..|data| - 1]);
      FieldIsLine(data[|data| - 1]);
    }
  }

  lemma FieldIsLine(value: bytes)
    requires IsLine(value)
    ensures IsLine(Ascii("data") + [0x3A, 0x20] + value) && IsLine(Ascii("event") + [0x3A, 0x20] + value)
  {
  }

  lemma EventLinesAreLines(name: bytes, data: seq<bytes>)
    requires IsLine(name) && (forall i :: 0 <= i < |data| ==> IsLine(data[i]))
    ensures
      var lines := EventLines(name, data);
      && |lines| == |data| + 2 && (forall i :: 0 <= i < |lines| ==> IsLine(lines[i]))
      && (forall i :: 0 <= i < |lines| - 1 ==> lines[i] != []) && lines[|lines| - 1] == []
  {
    hide IsLine, DataLines;
    DataLinesAreLines(data);
    FieldIsLine(name);
    NoBlankFields(data);
    BlankIsLine();
  }

  lemma NothingStripped(name: bytes, data: seq<bytes>)
    ensures StripFirst(EventLines(name, data)) == EventLines(name, data)
  {
    hide StripBom, DataLines;
    StartsWithE(name);
    var lines := EventLines(name, data);
    assert lines[0] == Ascii("event") + [0x3A, 0x20] + name;
    assert [lines[0]] + lines[1..] == lines;
  }

  lemma EventTaken(name: bytes, data: seq<bytes>)
    ensures TakeLines(EventLines(name, data)) == EventLog([Event(name, data)], Event([], []))
  {
    hide TakeLine, TakeLines, DataLines;
    DataCollects(name, data);
    TakePush([Ascii("event") + [0x3A, 0x20] + name] + DataLines(data), []);
    LineEffects(EventLog([], Event(name, data)), [], []);
    assert [] + [Event(name, data)] == [Event(name, data)];
  }

  /** An event written with any line endings is the event of its stream. */
  lemma EventComesBack(name: bytes, data: seq<bytes>, ends: seq<Ending>)
    requires IsLine(name) && (forall i :: 0 <= i < |data| ==> IsLine(data[i]))
    requires |ends| == |data| + 2 && (ends[|data|] == EndCr ==> ends[|data| + 1] != EndLf)
    ensures |EventLines(name, data)| == |ends|
    ensures EventsOf(Encode(EventLines(name, data), ends)) == [Event(name, data), Event([], [])]
  {
    hide IsLine, TakeLines, SplitLines, Encode, EventLines, StripFirst, StripBom;
    var lines := EventLines(name, data);
    EventLinesAreLines(name, data);
    NothingStripped(name, data);
    StripBomOfEncode(lines, ends);
    SplitUndoesEncode(lines, ends);
    EventTaken(name, data);
  }

  lemma BlankIsLine()
    ensures IsLine([])
  {
  }

  lemma StartsWithE(name: bytes)
    ensures StripBom(Ascii("event") + [0x3A, 0x20] + name) == Ascii("event") + [0x3A, 0x20] + name
  {
    var line := Ascii("event") + [0x3A, 0x20] + name;
    assert line[0] == 0x65 && line[..3][0] == 0x65;
  }

  lemma {:induction false} NoBlankFields(data: seq<bytes>)
    ensures |DataLines(data)| == |data| && forall i :: 0 <= i < |data| ==> DataLines(data)[i] != []
  {
    if data != [] {
      NoBlankFields(data[..|data| - 1]);
    }
  }

  // ---- Which events report ----

  predicate IsTerminalName(name: bytes) {
    name == Ascii("response.completed") || name == Ascii("response.incomplete")
  }

  /** The last value of the root object under a name. */
  function RootValue(v: Json, name: bytes): Option<Json> {
    if v.Node? && v.kind == Object then Lookup(v.entries, name) else None
  }

  lemma SpellsOneName(ps: seq<Piece>, name: bytes)
    ensures TerminalOfString(ps) == TerminalForName(name) && TerminalForName(name) != NotTerminal <==>
      Spells(ps, name) && IsTerminalName(name)
  {
    TwoNames();
  }

  lemma TwoNames()
    ensures Ascii("response.completed") != Ascii("response.incomplete")
  {
    assert |Ascii("response.completed")| == 18 && |Ascii("response.incomplete")| == 19;
  }

  /** An event reports exactly if its name is one of two and its payload is of that very type. */
  lemma ReportsIff(e: Event, d: Document)
    ensures ReportsIn(e, d) <==>
      && IsTerminalName(e.name)
      && IsPayload(JoinedData(e.data), d)
      && var kind := RootValue(d.value, Ascii("type"));
         kind.Some? && kind.value.Str? && Spells(kind.value.text, e.name)
  {
    hide IsPayload, JoinedData, TerminalForName, TerminalOfString, Spells;
    var kind := RootValue(d.value, Ascii("type"));
    NothingIsNoTerminal(e.name);
    if kind.Some? && kind.value.Str? {
      SpellsOneName(kind.value.text, e.name);
    }
  }

  lemma NothingIsNoTerminal(name: bytes)
    ensures TerminalForName(name) != NotTerminal <==> IsTerminalName(name)
  {
  }

  // ---- A usage as a tree ----

  function Counters(input: nat, output: nat, total: nat, cached: nat): seq<Member> {
    [Member(Ascii("input_tokens"), CountJson(input)), Member(Ascii("output_tokens"), CountJson(output)),
     Member(Ascii("total_tokens"), CountJson(total)),
     Member(Ascii("input_tokens_details"), ObjectOf([Member(Ascii("cached_tokens"), CountJson(cached))]))]
  }

  function ResponseJson(usage: Json): Json {
    ObjectOf([Member(Ascii("usage"), usage)])
  }

  function ReportJson(kind: bytes, usage: Json): Json {
    ObjectOf([Member(Ascii("type"), Str(Spelled(kind))), Member(Ascii("response"), ResponseJson(usage))])
  }

  predicate Fits(n: nat) {
    n <= 0x7FFF_FFFF_FFFF_FFFF
  }

  lemma PlacesOfNames()
    ensures PlaceUnder(Root, NameHead(Ascii("response"))) == Response
    ensures PlaceUnder(Root, NameHead(Ascii("type"))) == Elsewhere
    ensures PlaceUnder(Response, NameHead(Ascii("usage"))) == UsageObject
  {
    SpelledRenders(Ascii("response"));
    SpelledRenders(Ascii("type"));
    SpelledRenders(Ascii("usage"));
    JsonReadout.NamesDiffer();
  }

  lemma PlacesOfCounters()
    ensures PlaceUnder(UsageObject, NameHead(Ascii("input_tokens"))) == Counter
    ensures PlaceUnder(UsageObject, NameHead(Ascii("output_tokens"))) == Counter
    ensures PlaceUnder(UsageObject, NameHead(Ascii("total_tokens"))) == Counter
  {
    SpelledRenders(Ascii("input_tokens"));
    SpelledRenders(Ascii("output_tokens"));
    SpelledRenders(Ascii("total_tokens"));
  }

  lemma PlacesOfDetails()
    ensures PlaceUnder(UsageObject, NameHead(Ascii("input_tokens_details"))) == Details
    ensures PlaceUnder(Details, NameHead(Ascii("cached_tokens"))) == Counter
  {
    SpelledRenders(Ascii("input_tokens_details"));
    SpelledRenders(Ascii("cached_tokens"));
    JsonReadout.NamesDiffer();
  }

  lemma NamesArePlain()
    ensures PlainText(Ascii("response")) && PlainText(Ascii("type")) && PlainText(Ascii("usage"))
  {
  }

  lemma CounterNamesArePlain()
    ensures PlainText(Ascii("input_tokens")) && PlainText(Ascii("output_tokens")) && PlainText(Ascii("total_tokens"))
  {
  }

  lemma DetailNamesArePlain()
    ensures PlainText(Ascii("input_tokens_details")) && PlainText(Ascii("cached_tokens"))
  {
  }

  lemma CountAcceptable(n: nat, room: int)
    requires Fits(n)
    ensures Acceptable(CountJson(n), Counter, room)
  {
    CountRenders(n);
  }

  lemma CountersAcceptable(input: nat, output: nat, total: nat, cached: nat, room: int)
    requires Fits(input) && Fits(output) && Fits(total) && Fits(cached) && room > 1
    ensures Acceptable(ObjectOf(Counters(input, output, total, cached)), UsageObject, room)
  {
    hide Acceptable, PlainText, NameHead, Fits, PlaceUnder;
    PlacesOfCounters();
    PlacesOfDetails();
    CounterNamesArePlain();
    DetailNamesArePlain();
    CountAcceptable(input, room - 1);
    CountAcceptable(output, room - 1);
    CountAcceptable(total, room - 1);
    CountAcceptable(cached, room - 2);
    ObjectAcceptable([Member(Ascii("cached_tokens"), CountJson(cached))], Details, room - 1);
    ObjectAcceptable(Counters(input, output, total, cached), UsageObject, room);
  }

  lemma ReportAcceptable(kind: bytes, usage: Json, room: int)
    requires PlainText(kind) && Acceptable(usage, UsageObject, room) && room > 0
    ensures Acceptable(ReportJson(kind, usage), Root, room + 2)
  {
    hide PlainText, NameHead, PlaceUnder, Acceptable;
    PlacesOfNames();
    NamesArePlain();
    TextAcceptable(kind, room + 1);
    ObjectAcceptable([Member(Ascii("usage"), usage)], Response, room + 1);
    ObjectAcceptable([Member(Ascii("type"), Str(Spelled(kind))), Member(Ascii("response"), ResponseJson(usage))],
      Root, room + 2);
  }

  lemma TextAcceptable(kind: bytes, room: int)
    requires PlainText(kind)
    ensures Acceptable(Str(Spelled(kind)), Elsewhere, room)
  {
    SpelledOk(kind);
  }

  lemma CountTaken(n: nat)
    requires Fits(n)
    ensures CountOf(Some(CountJson(n))) == n
  {
    CountRenders(n);
  }

  lemma CountersFound(input: nat, output: nat, total: nat, cached: nat)
    ensures
      var es, ds := Entries(Counters(input, output, total, cached)),
        [Member(Ascii("cached_tokens"), CountJson(cached))];
      && Lookup(es, INPUT_TOKENS) == Some(CountJson(input)) && Lookup(es, OUTPUT_TOKENS) == Some(CountJson(output))
      && Lookup(es, TOTAL_TOKENS) == Some(CountJson(total)) && Lookup(es, INPUT_TOKENS_DETAILS) == Some(ObjectOf(ds))
      && Lookup(Entries(ds), CACHED_TOKENS) == Some(CountJson(cached))
  {
    hide Lookup, Entries, CountJson;
    var ms := Counters(input, output, total, cached);
    JsonReadout.NamesDiffer();
    LastMemberCounts(ms, 0, INPUT_TOKENS);
    LastMemberCounts(ms, 1, OUTPUT_TOKENS);
    LastMemberCounts(ms, 2, TOTAL_TOKENS);
    LastMemberCounts(ms, 3, INPUT_TOKENS_DETAILS);
    LastMemberCounts([Member(Ascii("cached_tokens"), CountJson(cached))], 0, CACHED_TOKENS);
  }

  /** What is read out of a usage object. */
  lemma CountersRead(input: nat, output: nat, total: nat, cached: nat)
    requires Fits(input) && Fits(output) && Fits(total) && Fits(cached)
    ensures CountsIn(Entries(Counters(input, output, total, cached)))
         == Usage(input, output, total, Some(TokensDetails(cached)), input, output)
  {
    hide Lookup, Entries, Counters, CountJson, CountOf, Fits;
    CountersFound(input, output, total, cached);
    CountTaken(input);
    CountTaken(output);
    CountTaken(total);
    CountTaken(cached);
  }

  lemma ReportRead(kind: bytes, ms: seq<Member>)
    ensures UsageOf(ReportJson(kind, ObjectOf(ms))) == CountsIn(Entries(ms))
    ensures RootValue(ReportJson(kind, ObjectOf(ms)), Ascii("type")) == Some(Str(Spelled(kind)))
  {
    hide Lookup, Entries, CountsIn;
    JsonReadout.NamesDiffer();
    var usage := ObjectOf(ms);
    var root := [Member(Ascii("type"), Str(Spelled(kind))), Member(Ascii("response"), ResponseJson(usage))];
    LastMemberCounts(root, 0, TYPE);
    LastMemberCounts(root, 1, RESPONSE);
    LastMemberCounts([Member(Ascii("usage"), usage)], 0, USAGE);
  }

  // ---- A usage as text ----

  lemma Joined(a: string, b: string)
    requires IsAscii(a) && IsAscii(b)
    ensures IsAscii(a + b) && Ascii(a + b) == Ascii(a) + Ascii(b)
  {
  }

  function PlainCounters(input: nat, output: nat, total: nat): string {
    "{\"input_tokens\":" + Numeral(input) + ",\"output_tokens\":" + Numeral(output)
    + ",\"total_tokens\":" + Numeral(total)
  }

  function CountersText(input: nat, output: nat, total: nat, cached: nat): string {
    PlainCounters(input, output, total)
    + ",\"input_tokens_details\":" + ("{\"cached_tokens\":" + Numeral(cached) + "}") + "}"
  }

  function ReportText(kind: string, usage: string): string {
    "{\"type\":" + ("\"" + kind + "\"") + ",\"response\":" + ("{\"usage\":" + usage + "}") + "}"
  }

  function StreamText(kind: string, report: string): string {
    "event: " + kind + "\ndata: " + report + "\n\n"
  }

  lemma FieldsPush(ms: seq<Member>, m: Member)
    requires ms != []
    ensures FieldsText(ms + [m]) == FieldsText(ms) + [0x2C] + Field(m.name, Render(m.value))
  {
    assert (ms + [m])[..|ms|] == ms;
  }

  lemma InputLiteral()
    ensures Ascii("{\"input_tokens\":") == [0x7B, 0x22] + Ascii("input_tokens") + [0x22, 0x3A]
  {
  }

  lemma OutputLiteral()
    ensures Ascii(",\"output_tokens\":") == [0x2C, 0x22] + Ascii("output_tokens") + [0x22, 0x3A]
  {
  }

  lemma TotalLiteral()
    ensures Ascii(",\"total_tokens\":") == [0x2C, 0x22] + Ascii("total_tokens") + [0x22, 0x3A]
  {
  }

  lemma DetailsLiteral()
    ensures Ascii(",\"input_tokens_details\":") == [0x2C, 0x22] + Ascii("input_tokens_details") + [0x22, 0x3A]
  {
  }

  lemma CachedLiteral()
    ensures Ascii("{\"cached_tokens\":") == [0x7B, 0x22] + Ascii("cached_tokens") + [0x22, 0x3A]
  {
  }

  lemma ReportLiterals()
    ensures Ascii("{\"type\":") == [0x7B, 0x22] + Ascii("type") + [0x22, 0x3A]
    ensures Ascii(",\"response\":") == [0x2C, 0x22] + Ascii("response") + [0x22, 0x3A]
    ensures Ascii("{\"usage\":") == [0x7B, 0x22] + Ascii("usage") + [0x22, 0x3A]
  {
  }

  lemma CommaField(text: bytes, name: bytes, value: bytes)
    ensures text + [0x2C] + Field(name, value) == text + ([0x2C, 0x22] + name + [0x22, 0x3A]) + value
  {
  }

  lemma FirstField(name: bytes, value: bytes)
    ensures [0x7B] + Field(name, value) == [0x7B, 0x22] + name + [0x22, 0x3A] + value
  {
  }

  lemma PlainCountersSpelled(input: nat, output: nat, total: nat)
    ensures
      var text := PlainCounters(input, output, total);
      var ms := [Member(Ascii("input_tokens"), CountJson(input)), Member(Ascii("output_tokens"), CountJson(output)),
                 Member(Ascii("total_tokens"), CountJson(total))];
      IsAscii(text) && Ascii(text) == [0x7B] + FieldsText(ms)
  {
    hide FieldsText, Field, Render, CountJson, Ascii;
    CountRenders(input);
    CountRenders(output);
    CountRenders(total);
    InputLiteral();
    OutputLiteral();
    TotalLiteral();
    NumeralIsAscii(input);
    NumeralIsAscii(output);
    NumeralIsAscii(total);
    var a, b, c := Member(Ascii("input_tokens"), CountJson(input)), Member(Ascii("output_tokens"), CountJson(output)),
      Member(Ascii("total_tokens"), CountJson(total));
    OneField(a);
    FirstField(a.name, Digits(input));
    var t1 := "{\"input_tokens\":" + Numeral(input);
    Joined("{\"input_tokens\":", Numeral(input));
    NextField([a], b, t1, ",\"output_tokens\":", Numeral(output));
    var t2 := t1 + ",\"output_tokens\":" + Numeral(output);
    assert [a] + [b] == [a, b] && [a, b] + [c] == [a, b, c];
    NextField([a, b], c, t2, ",\"total_tokens\":", Numeral(total));
  }

  lemma OneField(m: Member)
    ensures FieldsText([m]) == Field(m.name, Render(m.value))
  {
  }

  /** One more field after the text of those before it. */
  lemma NextField(ms: seq<Member>, m: Member, text: string, name: string, value: string)
    requires ms != [] && IsAscii(text) && Ascii(text) == [0x7B] + FieldsText(ms)
    requires IsAscii(name) && Ascii(name) == [0x2C, 0x22] + m.name + [0x22, 0x3A]
    requires IsAscii(value) && Ascii(value) == Render(m.value)
    ensures IsAscii(text + name + value) && Ascii(text + name + value) == [0x7B] + FieldsText(ms + [m])
  {
    hide FieldsText, Render, Ascii;
    Joined(text, name);
    Joined(text + name, value);
    FieldsPush(ms, m);
    CommaField([0x7B] + FieldsText(ms), m.name, Render(m.value));
    assert [0x7B] + (FieldsText(ms) + [0x2C] + Field(m.name, Render(m.value)))
        == [0x7B] + FieldsText(ms) + [0x2C] + Field(m.name, Render(m.value));
  }

  lemma DetailsSpelled(cached: nat)
    ensures
      var text := "{\"cached_tokens\":" + Numeral(cached);
      var ms := [Member(Ascii("cached_tokens"), CountJson(cached))];
      IsAscii(text) && Ascii(text) == [0x7B] + FieldsText(ms)
  {
    hide FieldsText, Field, Render, CountJson, Ascii;
    CountRenders(cached);
    CachedLiteral();
    NumeralIsAscii(cached);
    OneField(Member(Ascii("cached_tokens"), CountJson(cached)));
    FirstField(Ascii("cached_tokens"), Digits(cached));
    Joined("{\"cached_tokens\":", Numeral(cached));
  }

  /** An object closes after its last field, itself an object. */
  lemma ObjectLast(ms: seq<Member>, inner: seq<Member>, text: string, start: string, name: string, details: string)
    requires ms != [] && IsAscii(text) && Ascii(text) == [0x7B] + FieldsText(ms)
    requires IsAscii(start) && IsAscii(name) && Ascii(start) == [0x2C, 0x22] + Ascii(name) + [0x22, 0x3A]
    requires IsAscii(details) && Ascii(details) == [0x7B] + FieldsText(inner)
    ensures
      var whole := text + start + (details + "}") + "}";
      IsAscii(whole) && Ascii(whole) == Render(ObjectOf(ms + [Member(Ascii(name), ObjectOf(inner))]))
  {
    hide FieldsText, Field, Render, Ascii, ObjectOf;
    var last := Member(Ascii(name), ObjectOf(inner));
    ObjectRenders(inner);
    CloseBrace(details);
    NextField(ms, last, text, start, details + "}");
    CloseBrace(text + start + (details + "}"));
    ObjectRenders(ms + [last]);
  }

  /** The text of a usage object is the text of its tree. */
  lemma CountersSpelled(input: nat, output: nat, total: nat, cached: nat)
    ensures
      var text := CountersText(input, output, total, cached);
      IsAscii(text) && Ascii(text) == Render(ObjectOf(Counters(input, output, total, cached)))
  {
    hide FieldsText, Field, Render, CountJson, Ascii, ObjectOf, Numeral, PlainCounters;
    PlainCountersSpelled(input, output, total);
    DetailsSpelled(cached);
    DetailsLiteral();
    var three := [Member(Ascii("input_tokens"), CountJson(input)), Member(Ascii("output_tokens"), CountJson(output)),
                  Member(Ascii("total_tokens"), CountJson(total))];
    var inner := [Member(Ascii("cached_tokens"), CountJson(cached))];
    ObjectLast(three, inner, PlainCounters(input, output, total), ",\"input_tokens_details\":", "input_tokens_details",
      "{\"cached_tokens\":" + Numeral(cached));
    assert three + [Member(Ascii("input_tokens_details"), ObjectOf(inner))] == Counters(input, output, total, cached);
  }

  lemma CloseBrace(text: string)
    requires IsAscii(text)
    ensures IsAscii(text + "}") && Ascii(text + "}") == Ascii(text) + [0x7D]
  {
    Joined(text, "}");
  }

  lemma QuotedSpelled(kind: string)
    requires IsAscii(kind)
    ensures var text := "\"" + kind + "\""; IsAscii(text) && Ascii(text) == Render(Str(Spelled(Ascii(kind))))
  {
    SpelledRenders(Ascii(kind));
    hide Ascii;
    Joined("\"", kind);
    Joined("\"" + kind, "\"");
    QuoteByte();
  }

  lemma QuoteByte()
    ensures Ascii("\"") == [0x22]
  {
  }

  lemma StartField(m: Member, name: string, value: string)
    requires IsAscii(name) && Ascii(name) == [0x7B, 0x22] + m.name + [0x22, 0x3A]
    requires IsAscii(value) && Ascii(value) == Render(m.value)
    ensures IsAscii(name + value) && Ascii(name + value) == [0x7B] + FieldsText([m])
  {
    hide Render, Ascii;
    Joined(name, value);
    OneField(m);
    FirstField(m.name, Render(m.value));
  }

  lemma ReportSpelled(kind: string, text: string, usage: Json)
    requires IsAscii(kind) && IsAscii(text) && Ascii(text) == Render(usage)
    ensures IsAscii(ReportText(kind, text)) && Ascii(ReportText(kind, text)) == Render(ReportJson(Ascii(kind), usage))
  {
    hide FieldsText, Field, Render, Ascii, ObjectOf;
    ReportLiterals();
    QuotedSpelled(kind);
    var a, b := Member(Ascii("type"), Str(Spelled(Ascii(kind)))), Member(Ascii("response"), ResponseJson(usage));
    StartField(a, "{\"type\":", "\"" + kind + "\"");
    var u := Member(Ascii("usage"), usage);
    StartField(u, "{\"usage\":", text);
    CloseBrace("{\"usage\":" + text);
    ObjectRenders([u]);
    NextField([a], b, "{\"type\":" + ("\"" + kind + "\""), ",\"response\":", "{\"usage\":" + text + "}");
    CloseBrace("{\"type\":" + ("\"" + kind + "\"") + ",\"response\":" + ("{\"usage\":" + text + "}"));
    assert [a] + [b] == [a, b];
    ObjectRenders([a, b]);
  }

  // ---- There and back ----

  /** The stream is the event written line by line. */
  lemma StreamSpelled(kind: string, report: string)
    requires IsAscii(kind) && IsAscii(report)
    ensures
      var lines := EventLines(Ascii(kind), [Ascii(report)]);
      && IsAscii(StreamText(kind, report)) && |lines| == 3
      && Ascii(StreamText(kind, report)) == Encode(lines, [EndLf, EndLf, EndLf])
  {
    hide Ascii;
    StreamLiterals();
    Joined("event: ", kind);
    Joined("event: " + kind, "\ndata: ");
    Joined("event: " + kind + "\ndata: ", report);
    Joined("event: " + kind + "\ndata: " + report, "\n\n");
    var first, second := Ascii("event") + [0x3A, 0x20] + Ascii(kind), Ascii("data") + [0x3A, 0x20] + Ascii(report);
    OneDataLine(Ascii(report));
    var lines := EventLines(Ascii(kind), [Ascii(report)]);
    assert lines == [first, second, []];
    ThreeLines(first, second);
  }

  lemma OneDataLine(line: bytes)
    ensures DataLines([line]) == [Ascii("data") + [0x3A, 0x20] + line]
  {
    assert DataLines([]) + [Ascii("data") + [0x3A, 0x20] + line] == [Ascii("data") + [0x3A, 0x20] + line];
  }

  lemma ThreeLines(first: bytes, second: bytes)
    ensures Encode([first, second, []], [EndLf, EndLf, EndLf]) == first + [0x0A] + second + [0x0A] + [0x0A]
  {
    var l, e := [first, second, []], [EndLf, EndLf, EndLf];
    assert l[..2][..1] == [first] && l[..2][..1][..0] == [] && e[..2][..1] == [EndLf] && e[..2][..1][..0] == [];
    assert Encode(l[..2][..1], e[..2][..1]) == first + [0x0A];
    assert Encode(l[..2], e[..2]) == first + [0x0A] + (second + [0x0A]);
  }

  lemma StreamLiterals()
    ensures IsAscii("event: ") && IsAscii("\ndata: ") && IsAscii("\n\n")
    ensures Ascii("event: ") == Ascii("event") + [0x3A, 0x20]
    ensures Ascii("\ndata: ") == [0x0A] + Ascii("data") + [0x3A, 0x20] && Ascii("\n\n") == [0x0A, 0x0A]
  {
  }

  predicate OneLine(s: string) {
    '\n' !in s && '\r' !in s
  }

  lemma OneLineJoined(a: string, b: string)
    requires OneLine(a) && OneLine(b)
    ensures OneLine(a + b)
  {
  }

  lemma NumeralIsOneLine(n: nat)
    ensures OneLine(Numeral(n))
  {
    assert forall i :: 0 <= i < |Numeral(n)| ==> IsDigitChar(Numeral(n)[i]);
  }

  lemma PlainIsOneLine(s: string)
    requires IsAscii(s) && PlainText(Ascii(s))
    ensures OneLine(s)
  {
    forall i | 0 <= i < |s|
      ensures s[i] != '\n' && s[i] != '\r'
    {
      assert Ascii(s)[i] as int == s[i] as int;
    }
  }

  lemma CountersOneLine(input: nat, output: nat, total: nat, cached: nat)
    ensures OneLine(CountersText(input, output, total, cached))
  {
    NumeralIsOneLine(input);
    NumeralIsOneLine(output);
    NumeralIsOneLine(total);
    NumeralIsOneLine(cached);
    hide Numeral;
  }

  lemma LineIsLine(s: string)
    requires IsAscii(s) && OneLine(s)
    ensures IsLine(Ascii(s))
  {
    forall i | 0 <= i < |s|
      ensures Ascii(s)[i] != 0x0A && Ascii(s)[i] != 0x0D
    {
      assert s[i] in s;
    }
  }

  /** One event and the end of the stream. */
  lemma OneEventReports(e: Event)
    ensures LastUsage([e, Event([], [])]) == if UsageReported(e).Some? then UsageReported(e).value
      else Usage(0, 0, 0, None, 0, 0)
  {
    hide UsageReported;
    NoDataReportsNothing(NO_EVENT);
    assert [] + [e] == [e] && [e] + [NO_EVENT] == [e, NO_EVENT];
    LastUsagePush([], e);
    LastUsagePush([e], NO_EVENT);
  }

  lemma OnePayload(text: bytes, v: Json)
    requires text == Render(v) && Acceptable(v, Root, 64)
    ensures IsPayload(text, Document([], v, []))
  {
    assert [] + text + [] == text;
  }

  lemma OneDocumentReports(kind: bytes, text: bytes, v: Json)
    requires IsPayload(text, Document([], v, [])) && RootValue(v, Ascii("type")) == Some(Str(Spelled(kind)))
    ensures UsageReported(Event(kind, [text])) ==
      if IsTerminalName(kind) then Some(UsageOf(v)) else None
  {
    hide IsPayload, UsageOf, TerminalForName, TerminalOf;
    var e, d := Event(kind, [text]), Document([], v, []);
    SpelledRenders(kind);
    ReportsIff(e, d);
    if ReportsIn(e, d) {
      ReportedUsage(e, d);
    } else {
      forall x
        ensures !ReportsIn(e, x)
      {
        ReportsIff(e, x);
      }
    }
  }

  /**
   A terminal event with four counters, written out as text, reports exactly those counters; under
   any other name it reports nothing.
   */
  lemma UsageComesBack(kind: string, input: nat, output: nat, total: nat, cached: nat)
    requires IsAscii(kind) && PlainText(Ascii(kind)) && Fits(input) && Fits(output) && Fits(total) && Fits(cached)
    ensures
      var text := StreamText(kind, ReportText(kind, CountersText(input, output, total, cached)));
      && IsAscii(text)
      && StreamUsage(Ascii(text)) ==
           if kind == "response.completed" || kind == "response.incomplete"
           then Usage(input, output, total, Some(TokensDetails(cached)), input, output)
           else Usage(0, 0, 0, None, 0, 0)
  {
    hide PlainText, CountersText, ReportText, StreamText, IsPayload, UsageOf, Fits, IsLine, EventsOf, Encode,
      EventLines, UsageReported, LastUsage, Counters, ReportJson, Acceptable, RootValue, Ascii, Render, OneLine;
    var c := CountersText(input, output, total, cached);
    var r := ReportText(kind, c);
    var ms := Counters(input, output, total, cached);
    var v := ReportJson(Ascii(kind), ObjectOf(ms));
    CountersSpelled(input, output, total, cached);
    ReportSpelled(kind, c, ObjectOf(ms));
    CountersAcceptable(input, output, total, cached, 62);
    ReportAcceptable(Ascii(kind), ObjectOf(ms), 62);
    OnePayload(Ascii(r), v);
    CountersRead(input, output, total, cached);
    ReportRead(Ascii(kind), ms);
    OneDocumentReports(Ascii(kind), Ascii(r), v);
    StreamSpelled(kind, r);
    PlainIsOneLine(kind);
    LineIsLine(kind);
    CountersOneLine(input, output, total, cached);
    ReportOneLine(kind, c);
    LineIsLine(r);
    EventComesBack(Ascii(kind), [Ascii(r)], [EndLf, EndLf, EndLf]);
    OneEventReports(Event(Ascii(kind), [Ascii(r)]));
    SameNames(kind);
  }

  lemma ReportOneLine(kind: string, usage: string)
    requires OneLine(kind) && OneLine(usage)
    ensures OneLine(ReportText(kind, usage))
  {
  }

  lemma SameNames(kind: string)
    requires IsAscii(kind)
    ensures IsTerminalName(Ascii(kind)) <==> kind == "response.completed" || kind == "response.incomplete"
  {
    AsciiInjective(kind, "response.completed");
    AsciiInjective(kind, "response.incomplete");
  }

  lemma AsciiInjective(a: string, b: string)
    requires IsAscii(a) && IsAscii(b)
    ensures Ascii(a) == Ascii(b) <==> a == b
  {
    AsciiBytes(a);
    AsciiBytes(b);
    if Ascii(a) == Ascii(b) {
      assert forall i :: 0 <= i < |a| ==> a[i] as int == b[i] as int;
    }
  }

  /** A byte order mark at the start of a stream does not belong to it. */
  lemma MarkIsSkipped(s: bytes)
    ensures !([0xEF, 0xBB, 0xBF] <= s) ==> StreamUsage([0xEF, 0xBB, 0xBF] + s) == StreamUsage(s)
  {
    var marked := [0xEF, 0xBB, 0xBF] + s;
    assert marked[..3] == [0xEF, 0xBB, 0xBF] && marked[3..] == s;
    assert |s| >= 3 && s[..3] == [0xEF, 0xBB, 0xBF] ==> [0xEF, 0xBB, 0xBF] <= s;
  }
}
