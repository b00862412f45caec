/**
 JSON objects spelled without white space and without escapes, as bytes and as trees, and what a
 lookup finds in them.
 */
module JsonSpelling {
  import opened Wrappers
  import opened Bytes
  import opened JsonText
  import opened DecimalText

  // ---- Names ----

  /** Bytes that stand for themselves in a string. */
  predicate PlainText(name: bytes) {
    forall i :: 0 <= i < |name| ==> 0x20 <= name[i] && name[i] != 0x22 && name[i] != 0x5C
  }

  function Spelled(name: bytes): seq<Piece> {
    seq(|name|, i requires 0 <= i < |name| => Plain(name[i]))
  }

  lemma SpelledPush(name: bytes)
    requires name != []
    ensures var n := |name| - 1; Spelled(name) == Spelled(name[..n]) + [Plain(name[n])]
  {
  }

  lemma {:induction false} SpelledRenders(name: bytes)
    ensures RenderPieces(Spelled(name)) == name && PlainBytes(Spelled(name)) == name && !HasEscape(Spelled(name))
  {
    if name != [] {
      var n := |name| - 1;
      SpelledRenders(name[..n]);
      SpelledPush(name);
      assert Spelled(name)[..n] == Spelled(name[..n]);
      assert name == name[..n] + [name[n]];
    }
  }

  lemma SpelledOk(name: bytes)
    requires PlainText(name)
    ensures PiecesOk(Spelled(name))
  {
  }

  // ---- Objects ----

  datatype Member = Member(name: bytes, value: Json)

  function NameHead(name: bytes): Head {
    Keyed([], Spelled(name), [])
  }

  function EntryOf(m: Member): Entry {
    Entry([], NameHead(m.name), [], m.value)
  }

  function Entries(ms: seq<Member>): seq<Entry> {
    seq(|ms|, i requires 0 <= i < |ms| => EntryOf(ms[i]))
  }

  function ObjectOf(ms: seq<Member>): Json {
    Node(Object, Entries(ms), [])
  }

  /** A name in quotes, a colon and a value. */
  function Field(name: bytes, value: bytes): bytes {
    [0x22] + name + [0x22, 0x3A] + value
  }

  function FieldsText(ms: seq<Member>): bytes {
    if ms == [] then []
    else if |ms| == 1 then Field(ms[0].name, Render(ms[0].value))
    else FieldsText(ms[..|ms| - 1]) + [0x2C] + Field(ms[|ms| - 1].name, Render(ms[|ms| - 1].value))
  }

  lemma NameRenders(name: bytes)
    ensures RenderHead(NameHead(name)) == [0x22] + name + [0x22, 0x3A]
  {
    hide RenderPieces, Spelled, PlainBytes, HasEscape;
    SpelledRenders(name);
    assert [] + ([0x22] + name + [0x22]) + [] + [0x3A] == [0x22] + name + [0x22, 0x3A];
  }

  lemma EntryRenders(m: Member)
    ensures RenderHead(EntryOf(m).head) + EntryOf(m).lead + Render(m.value) == Field(m.name, Render(m.value))
  {
    hide Render, RenderPieces, Spelled, PlainBytes, HasEscape;
    NameRenders(m.name);
    var v := Render(m.value);
    assert [0x22] + m.name + [0x22, 0x3A] + [] + v == Field(m.name, v);
  }

  lemma {:induction false} FieldsRender(ms: seq<Member>)
    ensures RenderEntries(Entries(ms)) == FieldsText(ms)
  {
    hide RenderHead, Field;
    if ms != [] {
      var n := |ms| - 1;
      FieldsRender(ms[..n]);
      assert Entries(ms)[..n] == Entries(ms[..n]) && Entries(ms)[n] == EntryOf(ms[n]);
      EntryRenders(ms[n]);
      var e, before := EntryOf(ms[n]), FieldsText(ms[..n]);
      var h, v := RenderHead(e.head), Render(e.value);
      assert before + Separator(n, e.gap) + h + e.lead + v == before + Separator(n, e.gap) + (h + e.lead + v);
    }
  }

  /** An object between braces. */
  lemma ObjectRenders(ms: seq<Member>)
    ensures Render(ObjectOf(ms)) == [0x7B] + FieldsText(ms) + [0x7D]
  {
    FieldsRender(ms);
    assert [0x7B] + FieldsText(ms) + [] + [0x7D] == [0x7B] + FieldsText(ms) + [0x7D];
  }

  lemma ObjectAcceptable(ms: seq<Member>, p: Place, room: int)
    requires p != Counter && room > 0
    requires forall i :: 0 <= i < |ms| ==>
      PlainText(ms[i].name) && Acceptable(ms[i].value, PlaceUnder(p, NameHead(ms[i].name)), room - 1)
    ensures Acceptable(ObjectOf(ms), p, room)
  {
    hide PlaceUnder, PlainText, PiecesOk, Spelled;
    var es := Entries(ms);
    forall i | 0 <= i < |es|
      ensures EntryShape(Object, es[i]) && Acceptable(es[i].value, PlaceUnder(p, es[i].head), room - 1)
    {
      SpelledOk(ms[i].name);
      assert es[i] == EntryOf(ms[i]);
    }
  }

  /** The last member of a name is the one that counts. */
  lemma {:induction false} LastMemberCounts(ms: seq<Member>, i: nat, name: bytes)
    requires i < |ms| && ms[i].name == name && forall j :: i < j < |ms| ==> ms[j].name != name
    ensures Lookup(Entries(ms), name) == Some(ms[i].value)
  {
    var n := |ms| - 1;
    SpelledRenders(ms[n].name);
    assert Entries(ms)[n] == EntryOf(ms[n]) && Entries(ms)[..n] == Entries(ms[..n]);
    if i < n {
      LastMemberCounts(ms[..n], i, name);
    }
  }

  lemma {:induction false} NoSuchMember(ms: seq<Member>, name: bytes)
    requires forall j :: 0 <= j < |ms| ==> ms[j].name != name
    ensures Lookup(Entries(ms), name) == None
  {
    if ms != [] {
      var n := |ms| - 1;
      SpelledRenders(ms[n].name);
      assert Entries(ms)[n] == EntryOf(ms[n]) && Entries(ms)[..n] == Entries(ms[..n]);
      NoSuchMember(ms[..n], name);
    }
  }

  // ---- Counts ----

  lemma NumeralIsAscii(n: nat)
    ensures IsAscii(Numeral(n))
  {
  }

  function Digits(n: nat): bytes {
    NumeralIsAscii(n);
    Ascii(Numeral(n))
  }

  function CountJson(n: nat): Json {
    Num(NumberText(false, Digits(n), None, None))
  }

  lemma {:induction false} DigitsValue(n: nat)
    ensures AllDigits(Digits(n)) && Decimal(Digits(n)) == n
  {
    var s := Numeral(n);
    assert AllDigits(Digits(n));
    if n < 10 {
      assert Digits(n) == [(0x30 + n) as byte] && Digits(n)[..0] == [];
    } else {
      DigitsValue(n / 10);
      assert Digits(n)[..|s| - 1] == Digits(n / 10);
    }
  }

  lemma {:induction false} NoLeadingZero(n: nat)
    ensures IntegerPartOk(Digits(n)) && (Digits(n)[0] == 0x30 <==> n == 0)
  {
    DigitsValue(n);
    if n >= 10 {
      NoLeadingZero(n / 10);
      assert Digits(n)[0] == Digits(n / 10)[0];
    }
  }

  /** A natural number is written in decimal digits, and is a counter if it fits in 63 bits. */
  lemma CountRenders(n: nat)
    ensures Render(CountJson(n)) == Digits(n) && WellFormed(CountJson(n))
    ensures IsCount(CountJson(n)) <==> n <= 0x7FFF_FFFF_FFFF_FFFF
    ensures IsCount(CountJson(n)) ==> CountOf(Some(CountJson(n))) == n
  {
    DigitsValue(n);
    NoLeadingZero(n);
    assert [] + Digits(n) + [] + [] == Digits(n);
  }
}
