/**
 The text a model catalog is fingerprinted by, before hashing. Strings stand for their bytes: a
 length is a byte length and the order is byte by byte.
 */
module CatalogFingerprint {
  import opened Wrappers
  import opened Sequences
  import opened DecimalText
  import opened Ordering

  // ---- Maps as text ----

  function Entry(text: string): string {
    Itoa(|text|) + ":" + text
  }

  function EncodeKeys(values: map<string, string>, keys: seq<string>): string
    requires forall i :: 0 <= i < |keys| ==> keys[i] in values
  {
    if keys == [] then ""
    else Entry(keys[0]) + Entry(values[keys[0]]) + EncodeKeys(values, keys[1..])
  }

  /** The keys of a map in order. */
  ghost function SortedKeys(keys: set<string>): (r: seq<string>)
    ensures multiset(r) == multiset(keys)
  {
    if keys == {} then []
    else
      var k :| k in keys;
      assert keys == (keys - {k}) + {k};
      Insert(SortedKeys(keys - {k}), k, TextLe)
  }

  lemma {:induction false} SortedKeysAreSorted(keys: set<string>)
    ensures SortedBy(SortedKeys(keys), TextLe)
  {
    if keys != {} {
      TextOrder();
      var k :| k in keys && SortedKeys(keys) == Insert(SortedKeys(keys - {k}), k, TextLe);
      SortedKeysAreSorted(keys - {k});
      InsertSorted(SortedKeys(keys - {k}), k, TextLe);
    }
  }

  lemma KeysAreKeys(keys: set<string>, s: seq<string>)
    requires multiset(s) == multiset(keys)
    ensures forall i :: 0 <= i < |s| ==> s[i] in keys
    ensures forall k :: k in keys ==> k in s
    ensures forall i, j :: 0 <= i < j < |s| ==> s[i] != s[j]
  {
    forall i | 0 <= i < |s|
      ensures s[i] in keys
    {
      assert s[i] in multiset(s);
    }
    forall k | k in keys
      ensures k in s
    {
      assert k in multiset(s);
    }
    forall i, j | 0 <= i < j < |s|
      ensures s[i] != s[j]
    {
      if s[i] == s[j] {
        CountsTwice(s, i, j);
      }
    }
  }

  lemma CountsTwice(s: seq<string>, i: nat, j: nat)
    requires i < j < |s| && s[i] == s[j]
    ensures multiset(s)[s[i]] >= 2
  {
    assert s == s[..j] + [s[j]] + s[j + 1..];
    assert s[..j] == s[..i] + [s[i]] + s[i + 1..j];
  }

  ghost function MapText(values: map<string, string>): string {
    KeysAreKeys(values.Keys, SortedKeys(values.Keys));
    EncodeKeys(values, SortedKeys(values.Keys))
  }

  // ---- Reading it back ----

  /** The first colon, or the length. */
  function ColonAt(s: string): (i: nat)
    ensures i <= |s| && (i < |s| ==> s[i] == ':') && forall j :: 0 <= j < i ==> s[j] != ':'
  {
    if s == "" || s[0] == ':' then 0 else 1 + ColonAt(s[1..])
  }

  /** A length, a colon and that many characters; and what follows. */
  function ReadEntry(s: string): Option<(string, string)> {
    var i := ColonAt(s);
    if i == |s| || i == 0 || !AllDigitChars(s[..i]) then None
    else
      var n := ValueOf(s[..i]);
      if i + 1 + n > |s| then None else Some((s[i + 1..i + 1 + n], s[i + 1 + n..]))
  }

  lemma ReadsShorter(s: string)
    ensures ReadEntry(s).Some? ==> |ReadEntry(s).value.1| < |s|
  {
  }

  /** The map a text encodes. */
  function DecodeMap(s: string): Option<map<string, string>>
    decreases |s|
  {
    if s == "" then Some(map[])
    else
      ReadsShorter(s);
      var key := ReadEntry(s);
      if key.None? then None
      else
        ReadsShorter(key.value.1);
        var value := ReadEntry(key.value.1);
        if value.None? then None
        else
          var rest := DecodeMap(value.value.1);
          if rest.None? then None else Some(rest.value[key.value.0 := value.value.0])
  }

  lemma ReadsBack(text: string, rest: string)
    ensures ReadEntry(Entry(text) + rest) == Some((text, rest))
  {
    var number := Numeral(|text|);
    var s := Entry(text) + rest;
    var n := |number|;
    assert s[..n] == number && s[n] == ':';
    assert forall j :: 0 <= j < n ==> s[j] == number[j] && IsDigitChar(number[j]);
    assert ColonAt(s) == n;
    NumeralValue(|text|);
    assert s[n + 1..n + 1 + |text|] == text && s[n + 1 + |text|..] == rest;
  }

  lemma {:induction false} DecodesKeys(values: map<string, string>, keys: seq<string>)
    requires forall i :: 0 <= i < |keys| ==> keys[i] in values
    ensures
      var m := DecodeMap(EncodeKeys(values, keys));
      m.Some? && (forall k :: k in m.value <==> k in keys) && forall k :: k in m.value ==> m.value[k] == values[k]
  {
    if keys != [] {
      var key, tail := keys[0], EncodeKeys(values, keys[1..]);
      var value := values[key];
      DecodesKeys(values, keys[1..]);
      Regroup(Entry(key), Entry(value), tail);
      ReadsBack(key, Entry(value) + tail);
      ReadsBack(value, tail);
    }
  }

  /** Decoding undoes encoding, for every map. */
  lemma MapRoundTrip(values: map<string, string>)
    ensures DecodeMap(MapText(values)) == Some(values)
  {
    var keys := SortedKeys(values.Keys);
    KeysAreKeys(values.Keys, keys);
    DecodesKeys(values, keys);
    var m := DecodeMap(EncodeKeys(values, keys)).value;
    assert m.Keys == values.Keys;
    assert m == values;
  }

  /** Distinct maps never share a text. */
  lemma MapTextInjective(a: map<string, string>, b: map<string, string>)
    requires MapText(a) == MapText(b)
    ensures a == b
  {
    hide MapText, DecodeMap;
    MapRoundTrip(a);
    MapRoundTrip(b);
  }

  // ---- The encoder ----

  /** The keys in whatever order the map gives them. */
  method KeysOf(values: map<string, string>) returns (keys: seq<string>)
    ensures multiset(keys) == multiset(values.Keys)
  {
    keys := [];
    var left := values.Keys;
    while left != {}
      invariant left <= values.Keys && multiset(keys) + multiset(left) == multiset(values.Keys)
      decreases left
    {
      var k :| k in left;
      assert left == (left - {k}) + {k};
      left := left - {k};
      keys := keys + [k];
    }
  }

  lemma SortGivesSortedKeys(unordered: seq<string>, keys: set<string>)
    requires multiset(unordered) == multiset(keys)
    ensures Sort(unordered, TextLe) == SortedKeys(keys)
  {
    TextOrder();
    SortSorts(unordered, TextLe);
    SortedKeysAreSorted(keys);
    SortedIsUnique(Sort(unordered, TextLe), SortedKeys(keys), TextLe);
  }

  lemma EncodeFirst(values: map<string, string>, keys: seq<string>, i: nat, text: string)
    requires i < |keys| && forall j :: 0 <= j < |keys| ==> keys[j] in values
    ensures text + EncodeKeys(values, keys[i..]) ==
      text + (Entry(keys[i]) + Entry(values[keys[i]])) + EncodeKeys(values, keys[i + 1..])
  {
    assert keys[i..][1..] == keys[i + 1..];
    Regroup(text, Entry(keys[i]) + Entry(values[keys[i]]), EncodeKeys(values, keys[i + 1..]));
  }

  method EncodeInOrder(values: map<string, string>, keys: seq<string>) returns (text: string)
    requires forall i :: 0 <= i < |keys| ==> keys[i] in values
    ensures text == EncodeKeys(values, keys)
  {
    hide EncodeKeys;
    text := "";
    assert keys[0..] == keys;
    for i := 0 to |keys|
      invariant text + EncodeKeys(values, keys[i..]) == EncodeKeys(values, keys)
    {
      EncodeFirst(values, keys, i, text);
      var value := values[keys[i]];
      text := text + (Itoa(|keys[i]|) + ":" + keys[i] + (Itoa(|value|) + ":" + value));
    }
    NoKeys(values);
    assert keys[|keys|..] == [];
  }

  lemma NoKeys(values: map<string, string>)
    ensures EncodeKeys(values, []) == ""
  {
  }

  method SortedStringMap(values: map<string, string>) returns (text: string)
    ensures text == MapText(values)
  {
    hide EncodeKeys, TextLe, Sort;
    var unordered := KeysOf(values);
    SortGivesSortedKeys(unordered, values.Keys);
    var keys := Sort(unordered, TextLe);
    KeysAreKeys(values.Keys, keys);
    text := EncodeInOrder(values, keys);
  }

  // ---- The catalog ----

  datatype ResolvedAlias = ResolvedAlias(
    alias: string,
    backend: string,
    wireModel: string,
    context: int,
    maxOutputTokens: int,
    efforts: seq<string>,
    effortWireValues: map<string, string>,
    effort: string,
    thinkingModes: seq<string>,
    thinking: string,
    supportsTools: bool,
    supportsVision: bool,
    passthroughOverride: string,
    profile: string,
    transportLimits: map<string, int>)

  /** One row, with every list and map already a text. */
  datatype Row = Row(
    alias: string,
    backend: string,
    wireModel: string,
    context: int,
    maxOutputTokens: int,
    efforts: string,
    effortWireValues: string,
    effort: string,
    thinkingModes: string,
    thinking: string,
    supportsTools: bool,
    supportsVision: bool,
    passthroughOverride: string,
    profile: string,
    transportLimits: string)

  function BoolText(b: bool): string {
    if b then "true" else "false"
  }

  /** The cells of a row, as they are printed. */
  function Cells(r: Row): seq<string> {
    [r.alias, r.backend, r.wireModel, Itoa(r.context), Itoa(r.maxOutputTokens), r.efforts, r.effortWireValues,
     r.effort, r.thinkingModes, r.thinking, BoolText(r.supportsTools), BoolText(r.supportsVision),
     r.passthroughOverride, r.profile, r.transportLimits]
  }

  function RowText(r: Row): string {
    JoinText(Cells(r), "\t") + "\n"
  }

  function SortedJoined(values: seq<string>): string {
    JoinText(Sort(values, TextLe), ",")
  }

  function LimitText(limits: map<string, int>, key: string): string {
    if key in limits then key + "=" + Itoa(limits[key]) else ""
  }

  ghost function LimitsText(limits: map<string, int>): string {
    SortedJoined(MapSeq(k => LimitText(limits, k), SortedKeys(limits.Keys)))
  }

  ghost function RowOf(m: ResolvedAlias): Row {
    Row(m.alias, m.backend, m.wireModel, m.context, m.maxOutputTokens, SortedJoined(m.efforts),
        MapText(m.effortWireValues), m.effort, SortedJoined(m.thinkingModes), m.thinking, m.supportsTools,
        m.supportsVision, m.passthroughOverride, m.profile, LimitsText(m.transportLimits))
  }

  predicate AliasLe(a: Row, b: Row) {
    TextLe(a.alias, b.alias)
  }

  function RowsText(rows: seq<Row>): string {
    if rows == [] then "" else RowsText(rows[..|rows| - 1]) + RowText(rows[|rows| - 1])
  }

  ghost function Rows(models: seq<ResolvedAlias>): seq<Row> {
    MapSeq(RowOf, models)
  }

  /** The text that is hashed: the rows sorted by alias. */
  ghost function CatalogText(models: seq<ResolvedAlias>): string {
    RowsText(Sort(Rows(models), AliasLe))
  }

  predicate DistinctAliases(models: seq<ResolvedAlias>) {
    forall i, j :: 0 <= i < j < |models| ==> models[i].alias != models[j].alias
  }

  /** The same model, its efforts and thinking modes listed in any order. */
  predicate SameUpToOrder(a: ResolvedAlias, b: ResolvedAlias) {
    && b == a.(efforts := b.efforts, thinkingModes := b.thinkingModes)
    && multiset(a.efforts) == multiset(b.efforts) && multiset(a.thinkingModes) == multiset(b.thinkingModes)
  }

  lemma AliasOrder()
    ensures TotalOrder(AliasLe)
  {
    TextOrder();
  }

  lemma SameRow(a: ResolvedAlias, b: ResolvedAlias)
    requires SameUpToOrder(a, b)
    ensures RowOf(a) == RowOf(b)
  {
    SortTextForgetsOrder(a.efforts, b.efforts);
    SortTextForgetsOrder(a.thinkingModes, b.thinkingModes);
  }

  lemma RowAlias(m: ResolvedAlias)
    ensures RowOf(m).alias == m.alias
  {
  }

  lemma RowsAntisymmetric(models: seq<ResolvedAlias>)
    requires DistinctAliases(models)
    ensures Antisymmetric(Rows(models), AliasLe)
  {
    hide RowOf, TextLe;
    var rows := Rows(models);
    forall i, j | 0 <= i < |rows| && 0 <= j < |rows| && AliasLe(rows[i], rows[j]) && AliasLe(rows[j], rows[i])
      ensures rows[i] == rows[j]
    {
      RowAlias(models[i]);
      RowAlias(models[j]);
      TextAntisymmetric(models[i].alias, models[j].alias);
    }
  }

  /**
   The text does not depend on the order of the models, when their aliases are distinct, nor on the
   order in which each lists its efforts and thinking modes.
   */
  lemma CatalogTextForgetsOrder(models: seq<ResolvedAlias>, shuffled: seq<ResolvedAlias>, others: seq<ResolvedAlias>)
    requires DistinctAliases(models) && multiset(models) == multiset(shuffled)
    requires |shuffled| == |others| && forall i :: 0 <= i < |others| ==> SameUpToOrder(shuffled[i], others[i])
    ensures CatalogText(models) == CatalogText(others)
  {
    hide RowOf, SameUpToOrder, RowsText, Sort;
    MapSeqPermutes(RowOf, models, shuffled);
    forall i | 0 <= i < |others|
      ensures Rows(shuffled)[i] == Rows(others)[i]
    {
      SameRow(shuffled[i], others[i]);
    }
    assert Rows(shuffled) == Rows(others);
    AliasOrder();
    RowsAntisymmetric(models);
    SortForgetsOrder(Rows(models), Rows(shuffled), AliasLe);
  }

  // ---- The loops ----

  method SortedTransportLimits(limits: map<string, int>) returns (text: string)
    ensures text == LimitsText(limits)
  {
    hide Sort, SortedKeys;
    var entries: seq<string> := [];
    ghost var keys: seq<string> := [];
    var left := limits.Keys;
    ghost var entry := (k: string) => LimitText(limits, k);
    while left != {}
      invariant left <= limits.Keys && multiset(keys) + multiset(left) == multiset(limits.Keys)
      invariant entries == MapSeq(entry, keys)
      decreases left
    {
      var k :| k in left;
      assert left == (left - {k}) + {k};
      left := left - {k};
      assert (keys + [k])[..|keys|] == keys;
      keys := keys + [k];
      entries := entries + [k + "=" + Itoa(limits[k])];
    }
    MapSeqPermutes(entry, keys, SortedKeys(limits.Keys));
    SortTextForgetsOrder(entries, MapSeq(entry, SortedKeys(limits.Keys)));
    text := JoinText(Sort(entries, TextLe), ",");
  }

  method ModelCatalogText(models: seq<ResolvedAlias>) returns (text: string)
    ensures text == CatalogText(models)
  {
    hide Sort, MapText, LimitsText, RowText;
    var rows: seq<Row> := [];
    for i := 0 to |models|
      invariant rows == Rows(models[..i])
    {
      var m := models[i];
      var values := SortedStringMap(m.effortWireValues);
      var limits := SortedTransportLimits(m.transportLimits);
      assert models[..i + 1][..i] == models[..i];
      rows := rows + [Row(m.alias, m.backend, m.wireModel, m.context, m.maxOutputTokens, SortedJoined(m.efforts),
                          values, m.effort, SortedJoined(m.thinkingModes), m.thinking, m.supportsTools,
                          m.supportsVision, m.passthroughOverride, m.profile, limits)];
    }
    assert models[..|models|] == models;
    rows := Sort(rows, AliasLe);
    text := "";
    for i := 0 to |rows|
      invariant text == RowsText(rows[..i])
    {
      assert rows[..i + 1][..i] == rows[..i];
      text := text + RowText(rows[i]);
    }
    assert rows[..|rows|] == rows;
  }
}
