/**
 The JSON grammar of RFC 8259 (sections 2, 6 and 7) as concrete syntax trees.

 A tree keeps its whitespace, so it renders to exactly one byte string. A byte string is a JSON
 text when some well-formed tree renders to it. What the usage parser reads out of a payload is
 defined here, on trees, with no reference to the parser.
 */
module JsonText {
  import opened Wrappers
  import opened Bytes

  // ---- Strings (section 7) ----

  /** One character of a string as it is spelled between the quotes. */
  datatype Piece = Plain(b: byte) | Escape(b: byte) | Unicode(hex: bytes)

  predicate PieceOk(p: Piece) {
    match p
    case Plain(b) => SPACE <= b && b != QUOTE && b != BACKSLASH
    case Escape(b) => IsEscapeLetter(b)
    case Unicode(hex) => |hex| == 4 && AllHex(hex)
  }

  predicate PiecesOk(ps: seq<Piece>) {
    forall i :: 0 <= i < |ps| ==> PieceOk(ps[i])
  }

  function RenderPiece(p: Piece): bytes {
    match p
    case Plain(b) => [b]
    case Escape(b) => [BACKSLASH, b]
    case Unicode(hex) => [BACKSLASH, LOWER_U] + hex
  }

  function RenderPieces(ps: seq<Piece>): bytes {
    if ps == [] then [] else RenderPieces(ps[..|ps| - 1]) + RenderPiece(ps[|ps| - 1])
  }

  function RenderString(ps: seq<Piece>): bytes {
    [QUOTE] + RenderPieces(ps) + [QUOTE]
  }

  predicate HasEscape(ps: seq<Piece>) {
    exists i :: 0 <= i < |ps| && !ps[i].Plain?
  }

  /** The bytes spelled without an escape, in order. */
  function PlainBytes(ps: seq<Piece>): bytes {
    if ps == [] then [] else
      var last := ps[|ps| - 1];
      PlainBytes(ps[..|ps| - 1]) + if last.Plain? then [last.b] else []
  }

  /** True if the string is spelled exactly as `name`, with no escape anywhere. */
  predicate Spells(ps: seq<Piece>, name: bytes) {
    !HasEscape(ps) && PlainBytes(ps) == name
  }

  // ---- Numbers (section 6) ----

  datatype Exponent = Exponent(mark: byte, sign: bytes, digits: bytes)

  datatype NumberText = NumberText(minus: bool, whole: bytes, frac: Option<bytes>, exp: Option<Exponent>)

  /** An integer part: a lone zero, or digits that do not start with zero. */
  predicate IntegerPartOk(s: bytes) {
    s != [] && AllDigits(s) && (s[0] == ZERO ==> |s| == 1)
  }

  predicate ExponentHeadOk(e: Exponent) {
    (e.mark == LOWER_E || e.mark == UPPER_E) && (e.sign == [] || e.sign == [PLUS] || e.sign == [MINUS])
  }

  predicate NumberOk(n: NumberText) {
    && IntegerPartOk(n.whole)
    && (n.frac.Some? ==> n.frac.value != [] && AllDigits(n.frac.value))
    && (n.exp.Some? ==> ExponentHeadOk(n.exp.value) && n.exp.value.digits != [] && AllDigits(n.exp.value.digits))
  }

  function RenderExponent(e: Exponent): bytes {
    [e.mark] + e.sign + e.digits
  }

  function RenderNumber(n: NumberText): bytes {
    (if n.minus then [MINUS] else []) + n.whole
    + (if n.frac.Some? then [DOT] + n.frac.value else [])
    + (if n.exp.Some? then RenderExponent(n.exp.value) else [])
  }

  // ---- Values (sections 2 to 5) ----

  datatype Kind = Object | Array

  /** What precedes a value inside its container: nothing in an array, a key and a colon in an object. */
  datatype Head = Bare | Keyed(pre: bytes, key: seq<Piece>, mid: bytes)

  /**
   One element of a container. `gap` is the whitespace before the comma that separates it from the
   previous element (empty for the first), `lead` the whitespace before the value.
   */
  datatype Entry = Entry(gap: bytes, head: Head, lead: bytes, value: Json)

  datatype Json =
    | Word(word: bytes)
    | Str(text: seq<Piece>)
    | Num(number: NumberText)
    | Node(kind: Kind, entries: seq<Entry>, close: bytes)

  const TRUE: bytes := Ascii("true")
  const FALSE: bytes := Ascii("false")
  const NULL: bytes := Ascii("null")

  predicate IsWord(w: bytes) {
    w == TRUE || w == FALSE || w == NULL
  }

  predicate HeadOk(kind: Kind, h: Head) {
    match h
    case Bare => kind == Array
    case Keyed(pre, key, mid) => kind == Object && AllSpace(pre) && PiecesOk(key) && AllSpace(mid)
  }

  ghost predicate WellFormed(v: Json)
    decreases v
  {
    match v
    case Word(w) => IsWord(w)
    case Str(ps) => PiecesOk(ps)
    case Num(n) => NumberOk(n)
    case Node(kind, entries, close) =>
      && AllSpace(close)
      && (entries != [] ==> entries[0].gap == [])
      && forall i :: 0 <= i < |entries| ==> EntryShape(kind, entries[i]) && WellFormed(entries[i].value)
  }

  predicate EntryShape(kind: Kind, e: Entry) {
    AllSpace(e.gap) && HeadOk(kind, e.head) && AllSpace(e.lead)
  }

  function OpenByte(kind: Kind): byte {
    if kind == Object then LBRACE else LBRACKET
  }

  function CloseByte(kind: Kind): byte {
    if kind == Object then RBRACE else RBRACKET
  }

  function RenderHead(h: Head): bytes {
    match h
    case Bare => []
    case Keyed(pre, key, mid) => pre + RenderString(key) + mid + [COLON]
  }

  /** What separates element number `index` from the one before it. */
  function Separator(index: nat, gap: bytes): bytes {
    if index == 0 then [] else gap + [COMMA]
  }

  function Render(v: Json): bytes
    decreases v
  {
    match v
    case Word(w) => w
    case Str(ps) => RenderString(ps)
    case Num(n) => RenderNumber(n)
    case Node(kind, entries, close) => [OpenByte(kind)] + RenderEntries(entries) + close + [CloseByte(kind)]
  }

  function RenderEntries(es: seq<Entry>): bytes
    decreases es
  {
    if es == [] then [] else
      var n := |es| - 1;
      RenderEntries(es[..n]) + Separator(n, es[n].gap) + RenderHead(es[n].head) + es[n].lead + Render(es[n].value)
  }

  /** A whole JSON text: one value between whitespace (section 2). */
  datatype Document = Document(lead: bytes, value: Json, trail: bytes)

  function RenderDocument(d: Document): bytes {
    d.lead + Render(d.value) + d.trail
  }

  ghost predicate DocumentOk(d: Document) {
    AllSpace(d.lead) && WellFormed(d.value) && AllSpace(d.trail)
  }

  // ---- The limits the usage parser adds to the grammar ----

  const MAX_DEPTH: nat := 64
  const MAX_INT: nat := 0x7FFF_FFFF_FFFF_FFFF

  /** True if the value opens at most `room` containers inside each other. */
  ghost predicate NestsWithin(v: Json, room: int)
    decreases v
  {
    v.Node? ==> room > 0 && forall i :: 0 <= i < |v.entries| ==> NestsWithin(v.entries[i].value, room - 1)
  }

  /** Where a value sits in a payload, as far as the usage counters are concerned. */
  datatype Place = Root | Response | UsageObject | Details | Counter | Elsewhere

  const RESPONSE: bytes := Ascii("response")
  const USAGE: bytes := Ascii("usage")
  const INPUT_TOKENS: bytes := Ascii("input_tokens")
  const OUTPUT_TOKENS: bytes := Ascii("output_tokens")
  const TOTAL_TOKENS: bytes := Ascii("total_tokens")
  const INPUT_TOKENS_DETAILS: bytes := Ascii("input_tokens_details")
  const CACHED_TOKENS: bytes := Ascii("cached_tokens")
  const TYPE: bytes := Ascii("type")

  /** The place of a value under a container at place `p`. */
  function PlaceUnder(p: Place, h: Head): Place {
    if h.Bare? then Elsewhere
    else match p
      case Root => if Spells(h.key, RESPONSE) then Response else Elsewhere
      case Response => if Spells(h.key, USAGE) then UsageObject else Elsewhere
      case UsageObject =>
        if Spells(h.key, INPUT_TOKENS) || Spells(h.key, OUTPUT_TOKENS) || Spells(h.key, TOTAL_TOKENS) then Counter
        else if Spells(h.key, INPUT_TOKENS_DETAILS) then Details
        else Elsewhere
      case Details => if Spells(h.key, CACHED_TOKENS) then Counter else Elsewhere
      case _ => Elsewhere
  }

  /** A counter value: digits alone, no sign, fraction or exponent, that fit in a signed 64-bit int. */
  predicate IsCount(v: Json) {
    && v.Num?
    && !v.number.minus && v.number.frac.None? && v.number.exp.None?
    && AllDigits(v.number.whole) && Decimal(v.number.whole) <= MAX_INT
  }

  /** True if every value at a counter place, superseded duplicates included, is a counter value. */
  ghost predicate CountersOk(v: Json, p: Place)
    decreases v
  {
    && (p == Counter ==> IsCount(v))
    && (v.Node? ==>
          forall i :: 0 <= i < |v.entries| ==> CountersOk(v.entries[i].value, PlaceUnder(p, v.entries[i].head)))
  }

  ghost predicate Acceptable(v: Json, p: Place, room: int) {
    WellFormed(v) && NestsWithin(v, room) && CountersOk(v, p)
  }

  /** The payloads the usage parser accepts, with their trees. */
  ghost predicate IsPayload(s: bytes, d: Document) {
    DocumentOk(d) && Acceptable(d.value, Root, MAX_DEPTH) && RenderDocument(d) == s
  }

  // ---- What is read out of a payload ----

  datatype TokensDetails = TokensDetails(cachedTokens: int)

  datatype Usage = Usage(
    promptTokens: int,
    completionTokens: int,
    totalTokens: int,
    promptTokensDetails: Option<TokensDetails>,
    inputTokens: int,
    outputTokens: int)

  const NO_USAGE: Usage := Usage(0, 0, 0, None, 0, 0)

  datatype Terminal = NotTerminal | Completed | Incomplete

  const RESPONSE_COMPLETED: bytes := Ascii("response.completed")
  const RESPONSE_INCOMPLETE: bytes := Ascii("response.incomplete")

  function TerminalForName(name: bytes): Terminal {
    if name == RESPONSE_COMPLETED then Completed
    else if name == RESPONSE_INCOMPLETE then Incomplete
    else NotTerminal
  }

  predicate HasKey(e: Entry, name: bytes) {
    e.head.Keyed? && Spells(e.head.key, name)
  }

  /** The value of the last element with that key. */
  function Lookup(es: seq<Entry>, name: bytes): Option<Json> {
    if es == [] then None
    else if HasKey(es[|es| - 1], name) then Some(es[|es| - 1].value)
    else Lookup(es[..|es| - 1], name)
  }

  function CountOf(v: Option<Json>): int {
    if v.Some? && IsCount(v.value) then Decimal(v.value.number.whole) else 0
  }

  function DetailsIn(es: seq<Entry>): Option<TokensDetails> {
    var cached := Lookup(es, CACHED_TOKENS);
    if cached.Some? then Some(TokensDetails(CountOf(cached))) else None
  }

  predicate IsObject(v: Option<Json>) {
    v.Some? && v.value.Node? && v.value.kind == Object
  }

  function CountsIn(es: seq<Entry>): Usage {
    var input := CountOf(Lookup(es, INPUT_TOKENS));
    var output := CountOf(Lookup(es, OUTPUT_TOKENS));
    var details := Lookup(es, INPUT_TOKENS_DETAILS);
    Usage(input, output, CountOf(Lookup(es, TOTAL_TOKENS)),
          if IsObject(details) then DetailsIn(details.value.entries) else None,
          input, output)
  }

  function UsageInResponse(es: seq<Entry>): Usage {
    var usage := Lookup(es, USAGE);
    if IsObject(usage) then CountsIn(usage.value.entries) else NO_USAGE
  }

  function UsageInRoot(es: seq<Entry>): Usage {
    var response := Lookup(es, RESPONSE);
    if IsObject(response) then UsageInResponse(response.value.entries) else NO_USAGE
  }

  /** The usage a payload reports: the last `response.usage`, its last counters, zero where absent. */
  function UsageOf(v: Json): Usage {
    if IsObject(Some(v)) then UsageInRoot(v.entries) else NO_USAGE
  }

  function TerminalOfString(ps: seq<Piece>): Terminal {
    if HasEscape(ps) then NotTerminal else TerminalForName(PlainBytes(ps))
  }

  function TerminalIn(es: seq<Entry>): Terminal {
    var kind := Lookup(es, TYPE);
    if kind.Some? && kind.value.Str? then TerminalOfString(kind.value.text) else NotTerminal
  }

  /** The terminal kind a payload declares in its last root `type`. */
  function TerminalOf(v: Json): Terminal {
    if IsObject(Some(v)) then TerminalIn(v.entries) else NotTerminal
  }
}
