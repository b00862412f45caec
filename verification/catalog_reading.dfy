/**
 What the fingerprint text tells of a catalog: where no field holds a separator, two catalogs with
 the same text have the same models up to order.
 */
module CatalogReading {
  import opened Sequences
  import opened DecimalText
  import opened Ordering
  import opened CatalogFingerprint

  predicate Lacks(s: string, c: char) {
    forall i :: 0 <= i < |s| ==> s[i] != c
  }

  predicate AllLack(parts: seq<string>, c: char) {
    forall i :: 0 <= i < |parts| ==> Lacks(parts[i], c)
  }

  // ---- Taking joined text apart ----

  /** A text that is empty or ends with c, and after it a text without c. */
  predicate EndsAt(p: string, c: char) {
    p == "" || p[|p| - 1] == c
  }

  lemma NotLonger(p: string, a: string, q: string, b: string, c: char)
    requires EndsAt(q, c) && Lacks(a, c) && p + a == q + b
    ensures |q| <= |p|
  {
    var t := p + a;
    assert forall i :: |p| <= i < |t| ==> t[i] == a[i - |p|];
    assert q == "" || (q + b)[|q| - 1] == c;
  }

  lemma TailIsUnique(p: string, a: string, q: string, b: string, c: char)
    requires EndsAt(p, c) && EndsAt(q, c) && Lacks(a, c) && Lacks(b, c) && p + a == q + b
    ensures p == q && a == b
  {
    NotLonger(p, a, q, b, c);
    NotLonger(q, b, p, a, c);
    assert p == (p + a)[..|p|] && q == (q + b)[..|p|];
    assert a == (p + a)[|p|..] && b == (q + b)[|p|..];
  }

  lemma {:induction false} JoinHasSeparator(parts: seq<string>, c: char)
    requires |parts| > 1
    ensures !Lacks(JoinText(parts, [c]), c)
  {
    var head := JoinText(parts[..|parts| - 1], [c]);
    assert JoinText(parts, [c])[|head|] == c;
  }

  /** Parts without the separator can be read back from their joined text. */
  lemma {:induction false} JoinInjective(a: seq<string>, b: seq<string>, c: char)
    requires a != [] && b != [] && AllLack(a, c) && AllLack(b, c) && JoinText(a, [c]) == JoinText(b, [c])
    ensures a == b
  {
    if |a| == 1 && |b| == 1 {
      assert a == [a[0]] && b == [b[0]];
    } else if |a| == 1 {
      JoinHasSeparator(b, c);
    } else if |b| == 1 {
      JoinHasSeparator(a, c);
    } else {
      var n, k := |a| - 1, |b| - 1;
      var p, q := JoinText(a[..n], [c]), JoinText(b[..k], [c]);
      TailIsUnique(p + [c], a[n], q + [c], b[k], c);
      assert p == (p + [c])[..|p|] && q == (q + [c])[..|q|];
      JoinInjective(a[..n], b[..k], c);
      assert a == a[..n] + [a[n]] && b == b[..k] + [b[k]];
    }
  }

  lemma LacksConcat(a: string, b: string, c: char)
    ensures Lacks(a + b, c) <==> Lacks(a, c) && Lacks(b, c)
  {
    assert forall i :: 0 <= i < |a| ==> (a + b)[i] == a[i];
    assert forall i :: 0 <= i < |b| ==> (a + b)[|a| + i] == b[i];
  }

  lemma {:induction false} JoinLacks(parts: seq<string>, separator: string, c: char)
    requires AllLack(parts, c) && Lacks(separator, c)
    ensures Lacks(JoinText(parts, separator), c)
  {
    if |parts| > 1 {
      var rest, last := parts[..|parts| - 1], parts[|parts| - 1];
      JoinLacks(rest, separator, c);
      LacksConcat(JoinText(rest, separator), separator, c);
      LacksConcat(JoinText(rest, separator) + separator, last, c);
    }
  }

  // ---- Rows ----

  predicate CleanCells(cells: seq<string>) {
    AllLack(cells, '\t') && AllLack(cells, '\n')
  }

  predicate CleanRows(rows: seq<Row>) {
    forall i :: 0 <= i < |rows| ==> CleanCells(Cells(rows[i]))
  }

  lemma CellsInjective(a: Row, b: Row)
    requires Cells(a) == Cells(b)
    ensures a == b
  {
    var x, y := Cells(a), Cells(b);
    assert forall i :: 0 <= i < 15 ==> x[i] == y[i];
    assert x[3] == Itoa(a.context) && y[3] == Itoa(b.context) && x[4] == Itoa(a.maxOutputTokens)
      && y[4] == Itoa(b.maxOutputTokens);
    ItoaInjective(a.context, b.context);
    ItoaInjective(a.maxOutputTokens, b.maxOutputTokens);
    assert x[10] == BoolText(a.supportsTools) && y[10] == BoolText(b.supportsTools);
    assert x[11] == BoolText(a.supportsVision) && y[11] == BoolText(b.supportsVision);
    assert "true"[0] != "false"[0];
  }

  lemma {:induction false} RowsEndLines(rows: seq<Row>)
    ensures EndsAt(RowsText(rows), '\n') && (RowsText(rows) == "" <==> rows == [])
  {
    if rows != [] {
      assert RowsText(rows)[|RowsText(rows)| - 1] == '\n';
    }
  }

  /** Clean rows can be read back from their text. */
  lemma {:induction false} RowsInjective(a: seq<Row>, b: seq<Row>)
    requires CleanRows(a) && CleanRows(b) && RowsText(a) == RowsText(b)
    ensures a == b
  {
    hide Cells, JoinText;
    RowsEndLines(a);
    RowsEndLines(b);
    if a != [] {
      var n, k := |a| - 1, |b| - 1;
      RowsEndLines(a[..n]);
      RowsEndLines(b[..k]);
      LastRow(a[..n], a[n], b[..k], b[k]);
      RowsInjective(a[..n], b[..k]);
      assert a == a[..n] + [a[n]] && b == b[..k] + [b[k]];
    }
  }

  lemma LastRow(before: seq<Row>, r: Row, others: seq<Row>, s: Row)
    requires CleanCells(Cells(r)) && CleanCells(Cells(s))
    requires EndsAt(RowsText(before), '\n') && EndsAt(RowsText(others), '\n')
    requires RowsText(before) + RowText(r) == RowsText(others) + RowText(s)
    ensures RowsText(before) == RowsText(others) && r == s
  {
    hide Cells, JoinText, RowsText;
    var p, q := RowsText(before), RowsText(others);
    var x, y := JoinText(Cells(r), "\t"), JoinText(Cells(s), "\t");
    Regroup(p, x, "\n");
    Regroup(q, y, "\n");
    var t := p + x + "\n";
    assert t == q + y + "\n";
    assert p + x == t[..|t| - 1] && q + y == t[..|t| - 1];
    JoinLacks(Cells(r), "\t", '\n');
    JoinLacks(Cells(s), "\t", '\n');
    TailIsUnique(p, x, q, y, '\n');
    FifteenCells(r);
    FifteenCells(s);
    JoinInjective(Cells(r), Cells(s), '\t');
    CellsInjective(r, s);
  }

  lemma FifteenCells(r: Row)
    ensures |Cells(r)| == 15
  {
  }

  // ---- Models ----

  predicate Plain(s: string) {
    Lacks(s, '\t') && Lacks(s, '\n')
  }

  /** Not empty, and without tab, newline or comma. */
  predicate PlainName(s: string) {
    s != "" && Plain(s) && Lacks(s, ',')
  }

  /** No field holds a separator. */
  predicate CleanModel(m: ResolvedAlias) {
    && Plain(m.alias) && Plain(m.backend) && Plain(m.wireModel) && Plain(m.effort) && Plain(m.thinking)
    && Plain(m.passthroughOverride) && Plain(m.profile)
    && (forall i :: 0 <= i < |m.efforts| ==> PlainName(m.efforts[i]))
    && (forall i :: 0 <= i < |m.thinkingModes| ==> PlainName(m.thinkingModes[i]))
    && (forall k :: k in m.effortWireValues ==> Plain(k) && Plain(m.effortWireValues[k]))
    && (forall k :: k in m.transportLimits ==> Plain(k) && Lacks(k, ',') && Lacks(k, '='))
  }

  lemma NumeralLacks(n: int, c: char)
    requires !IsDigitChar(c) && c != '-'
    ensures Lacks(Itoa(n), c)
  {
    if n < 0 {
      assert Lacks(Numeral(-n), c);
      LacksConcat("-", Numeral(-n), c);
    }
  }

  lemma SortKeepsElements(values: seq<string>)
    ensures forall x :: x in Sort(values, TextLe) <==> x in values
    ensures |Sort(values, TextLe)| == |values|
  {
    SameElements(values, Sort(values, TextLe));
  }

  lemma SortedLacks(values: seq<string>, c: char)
    requires forall i :: 0 <= i < |values| ==> Lacks(values[i], c)
    ensures AllLack(Sort(values, TextLe), c)
  {
    hide Sort, Lacks;
    SortKeepsElements(values);
    var sorted := Sort(values, TextLe);
    forall i | 0 <= i < |sorted|
      ensures Lacks(sorted[i], c)
    {
      assert sorted[i] in values;
    }
  }

  lemma JoinedLacks(values: seq<string>, c: char)
    requires (forall i :: 0 <= i < |values| ==> Lacks(values[i], c)) && c != ','
    ensures Lacks(SortedJoined(values), c)
  {
    hide Sort;
    SortedLacks(values, c);
    JoinLacks(Sort(values, TextLe), ",", c);
  }

  /** Names without a comma can be read back from their sorted list, up to order. */
  lemma NamesInjective(a: seq<string>, b: seq<string>)
    requires forall i :: 0 <= i < |a| ==> a[i] != "" && Lacks(a[i], ',')
    requires forall i :: 0 <= i < |b| ==> b[i] != "" && Lacks(b[i], ',')
    requires SortedJoined(a) == SortedJoined(b)
    ensures multiset(a) == multiset(b)
  {
    hide Sort, Lacks;
    var x, y := Sort(a, TextLe), Sort(b, TextLe);
    SortKeepsElements(a);
    SortKeepsElements(b);
    SortedLacks(a, ',');
    SortedLacks(b, ',');
    SomethingJoined(x);
    SomethingJoined(y);
    if x != [] && y != [] {
      JoinInjective(x, y, ',');
    }
  }

  lemma SomethingJoined(parts: seq<string>)
    requires forall x :: x in parts ==> x != ""
    ensures JoinText(parts, ",") == "" <==> parts == []
  {
    HasFirst(parts);
  }

  lemma EntryLacks(text: string, c: char)
    requires Lacks(text, c) && !IsDigitChar(c) && c != '-' && c != ':'
    ensures Lacks(Entry(text), c)
  {
    NumeralLacks(|text|, c);
    LacksConcat(Itoa(|text|), ":", c);
    LacksConcat(Itoa(|text|) + ":", text, c);
  }

  lemma {:induction false} EncodedLacks(values: map<string, string>, keys: seq<string>, c: char)
    requires (forall i :: 0 <= i < |keys| ==> keys[i] in values) && !IsDigitChar(c) && c != '-' && c != ':'
    requires forall k :: k in values ==> Lacks(k, c) && Lacks(values[k], c)
    ensures Lacks(EncodeKeys(values, keys), c)
  {
    if keys != [] {
      var k, rest := keys[0], EncodeKeys(values, keys[1..]);
      EncodedLacks(values, keys[1..], c);
      EntryLacks(k, c);
      EntryLacks(values[k], c);
      LacksConcat(Entry(k), Entry(values[k]), c);
      LacksConcat(Entry(k) + Entry(values[k]), rest, c);
    }
  }

  lemma MapLacks(values: map<string, string>, c: char)
    requires !IsDigitChar(c) && c != '-' && c != ':' && forall k :: k in values ==> Lacks(k, c) && Lacks(values[k], c)
    ensures Lacks(MapText(values), c)
  {
    hide Lacks, EncodeKeys, SortedKeys;
    var keys := SortedKeys(values.Keys);
    KeysAreKeys(values.Keys, keys);
    EncodedLacks(values, keys, c);
  }

  // ---- Transport limits ----

  ghost function Limits(limits: map<string, int>): seq<string> {
    MapSeq(k => LimitText(limits, k), SortedKeys(limits.Keys))
  }

  lemma LimitIn(limits: map<string, int>, k: string)
    requires k in limits
    ensures LimitText(limits, k) in Limits(limits)
  {
    hide LimitText, SortedKeys, MapSeq;
    var keys := SortedKeys(limits.Keys);
    KeysAreKeys(limits.Keys, keys);
    var i :| 0 <= i < |keys| && keys[i] == k;
    assert Limits(limits)[i] == LimitText(limits, k);
  }

  lemma LimitFrom(limits: map<string, int>, x: string) returns (k: string)
    requires x in Limits(limits)
    ensures k in limits && LimitText(limits, k) == x
  {
    hide LimitText, SortedKeys, MapSeq;
    var keys := SortedKeys(limits.Keys);
    KeysAreKeys(limits.Keys, keys);
    var i :| 0 <= i < |Limits(limits)| && Limits(limits)[i] == x;
    k := keys[i];
  }

  lemma LimitTextIsUnique(a: map<string, int>, k: string, b: map<string, int>, l: string)
    requires k in a && l in b && Lacks(k, '=') && Lacks(l, '=') && LimitText(a, k) == LimitText(b, l)
    ensures k == l && a[k] == b[l]
  {
    var x, y := LimitText(a, k), LimitText(b, l);
    assert x[|k|] == '=' && y[|l|] == '=';
    assert forall i :: 0 <= i < |k| ==> x[i] == k[i];
    assert forall i :: 0 <= i < |l| ==> y[i] == l[i];
    assert |k| == |l|;
    assert k == x[..|k|] && l == y[..|l|];
    assert Itoa(a[k]) == x[|k| + 1..] && Itoa(b[l]) == y[|l| + 1..];
    ItoaInjective(a[k], b[l]);
  }

  lemma LimitsContained(a: map<string, int>, b: map<string, int>)
    requires (forall k :: k in a ==> Lacks(k, '=')) && (forall k :: k in b ==> Lacks(k, '='))
    requires multiset(Limits(a)) == multiset(Limits(b))
    ensures forall k :: k in a ==> k in b && b[k] == a[k]
  {
    hide Lacks, LimitText, Limits;
    forall k | k in a
      ensures k in b && b[k] == a[k]
    {
      var x := LimitText(a, k);
      LimitIn(a, k);
      assert x in multiset(Limits(a)) && x in multiset(Limits(b));
      var l := LimitFrom(b, x);
      LimitTextIsUnique(a, k, b, l);
    }
  }

  lemma LimitIsName(limits: map<string, int>, x: string)
    requires x in Limits(limits) && forall k :: k in limits ==> Plain(k) && Lacks(k, ',') && Lacks(k, '=')
    ensures PlainName(x)
  {
    hide Lacks, Limits;
    var k := LimitFrom(limits, x);
    LimitLacks(k, limits[k], '\t');
    LimitLacks(k, limits[k], '\n');
    LimitLacks(k, limits[k], ',');
  }

  lemma LimitLacks(k: string, n: int, c: char)
    requires Lacks(k, c) && !IsDigitChar(c) && c != '-' && c != '='
    ensures Lacks(k + "=" + Itoa(n), c)
  {
    NumeralLacks(n, c);
    LacksConcat(k, "=", c);
    LacksConcat(k + "=", Itoa(n), c);
  }

  /** Limits whose names lack the separators can be read back from their text. */
  lemma LimitsInjective(a: map<string, int>, b: map<string, int>)
    requires forall k :: k in a ==> Plain(k) && Lacks(k, ',') && Lacks(k, '=')
    requires forall k :: k in b ==> Plain(k) && Lacks(k, ',') && Lacks(k, '=')
    requires LimitsText(a) == LimitsText(b)
    ensures a == b
  {
    hide Lacks, Limits, SortedJoined;
    SameLimitsText(a);
    SameLimitsText(b);
    var x, y := Limits(a), Limits(b);
    forall i | 0 <= i < |x|
      ensures x[i] != "" && Lacks(x[i], ',')
    {
      LimitIsName(a, x[i]);
    }
    forall i | 0 <= i < |y|
      ensures y[i] != "" && Lacks(y[i], ',')
    {
      LimitIsName(b, y[i]);
    }
    NamesInjective(x, y);
    LimitsContained(a, b);
    LimitsContained(b, a);
    assert a.Keys == b.Keys;
  }

  lemma SameLimitsText(limits: map<string, int>)
    ensures LimitsText(limits) == SortedJoined(Limits(limits))
  {
  }

  // ---- The catalog ----

  lemma PlainNumbers(m: ResolvedAlias)
    ensures Plain(Itoa(m.context)) && Plain(Itoa(m.maxOutputTokens))
    ensures Plain(BoolText(m.supportsTools)) && Plain(BoolText(m.supportsVision))
  {
    NumeralLacks(m.context, '\t');
    NumeralLacks(m.context, '\n');
    NumeralLacks(m.maxOutputTokens, '\t');
    NumeralLacks(m.maxOutputTokens, '\n');
  }

  lemma PlainLists(m: ResolvedAlias, c: char)
    requires CleanModel(m) && (c == '\t' || c == '\n')
    ensures Lacks(SortedJoined(m.efforts), c) && Lacks(SortedJoined(m.thinkingModes), c)
    ensures Lacks(MapText(m.effortWireValues), c) && Lacks(LimitsText(m.transportLimits), c)
  {
    hide Lacks, SortedJoined, MapText, Limits;
    JoinedLacks(m.efforts, c);
    JoinedLacks(m.thinkingModes, c);
    MapLacks(m.effortWireValues, c);
    var x := Limits(m.transportLimits);
    forall i | 0 <= i < |x|
      ensures Lacks(x[i], c)
    {
      LimitIsName(m.transportLimits, x[i]);
    }
    JoinedLacks(x, c);
    SameLimitsText(m.transportLimits);
  }

  lemma CleanRowOf(m: ResolvedAlias)
    requires CleanModel(m)
    ensures CleanCells(Cells(RowOf(m)))
  {
    hide Lacks, SortedJoined, MapText, LimitsText, Itoa, BoolText;
    PlainNumbers(m);
    PlainLists(m, '\t');
    PlainLists(m, '\n');
  }

  /** A clean model can be read back from its row, up to the order of its lists. */
  lemma RowTellsModel(a: ResolvedAlias, b: ResolvedAlias)
    requires CleanModel(a) && CleanModel(b) && RowOf(a) == RowOf(b)
    ensures SameUpToOrder(a, b)
  {
    hide Lacks, SortedJoined, MapText, LimitsText;
    NamesInjective(a.efforts, b.efforts);
    NamesInjective(a.thinkingModes, b.thinkingModes);
    MapTextInjective(a.effortWireValues, b.effortWireValues);
    LimitsInjective(a.transportLimits, b.transportLimits);
  }

  lemma WithoutEnd<T>(s: seq<T>)
    requires s != []
    ensures Without(s, |s| - 1) == s[..|s| - 1]
  {
  }

  lemma DropImage<S(!new), T(!new)>(f: S -> T, a: seq<S>, b: seq<T>, j: nat)
    requires multiset(MapSeq(f, a)) == multiset(b) && b != [] && j < |a| && f(a[j]) == b[|b| - 1]
    ensures multiset(MapSeq(f, Without(a, j))) == multiset(b[..|b| - 1])
  {
    hide Without, MapSeq;
    TakeOut(MapSeq(f, a), j);
    TakeOut(b, |b| - 1);
    MapWithout(f, a, j);
    WithoutEnd(b);
  }

  lemma FindSource<S(!new), T(!new)>(f: S -> T, a: seq<S>, b: seq<T>) returns (j: nat)
    requires multiset(MapSeq(f, a)) == multiset(b) && b != []
    ensures j < |a| && f(a[j]) == b[|b| - 1]
  {
    hide MapSeq;
    var x := MapSeq(f, a);
    assert b[|b| - 1] in multiset(x);
    j :| 0 <= j < |x| && x[j] == b[|b| - 1];
  }

  /** A rearrangement of images is the images of a rearrangement. */
  lemma {:induction false} Sources<S(!new), T(!new)>(f: S -> T, a: seq<S>, b: seq<T>) returns (c: seq<S>)
    requires multiset(MapSeq(f, a)) == multiset(b)
    ensures multiset(c) == multiset(a) && |c| == |b| && forall i :: 0 <= i < |b| ==> f(c[i]) == b[i]
    decreases |b|
  {
    hide Without, MapSeq;
    SameLength(MapSeq(f, a), b);
    if b == [] {
      c := a;
    } else {
      var j := FindSource(f, a, b);
      DropImage(f, a, b, j);
      var d := Sources(f, Without(a, j), b[..|b| - 1]);
      TakeOut(a, j);
      c := d + [a[j]];
    }
  }

  lemma CleanCatalog(models: seq<ResolvedAlias>)
    requires forall i :: 0 <= i < |models| ==> CleanModel(models[i])
    ensures CleanRows(Sort(Rows(models), AliasLe))
  {
    hide CleanCells, Cells, RowOf, Sort, MapSeq;
    var rows, sorted := Rows(models), Sort(Rows(models), AliasLe);
    forall i | 0 <= i < |sorted|
      ensures CleanCells(Cells(sorted[i]))
    {
      assert sorted[i] in multiset(sorted);
      assert sorted[i] in multiset(rows);
      var j :| 0 <= j < |rows| && rows[j] == sorted[i];
      CleanRowOf(models[j]);
    }
  }

  /** Catalogs with the same text have the same models up to order, if no field holds a separator. */
  lemma CatalogTextTellsModels(models: seq<ResolvedAlias>, others: seq<ResolvedAlias>)
    returns (shuffled: seq<ResolvedAlias>)
    requires forall i :: 0 <= i < |models| ==> CleanModel(models[i])
    requires forall i :: 0 <= i < |others| ==> CleanModel(others[i])
    requires CatalogText(models) == CatalogText(others)
    ensures multiset(shuffled) == multiset(models) && |shuffled| == |others|
    ensures forall i :: 0 <= i < |others| ==> SameUpToOrder(shuffled[i], others[i])
  {
    hide CleanModel, RowOf, Sort, MapSeq, RowsText, CleanRows, SameUpToOrder;
    CleanCatalog(models);
    CleanCatalog(others);
    RowsInjective(Sort(Rows(models), AliasLe), Sort(Rows(others), AliasLe));
    assert multiset(Rows(models)) == multiset(Rows(others));
    shuffled := Sources(RowOf, models, Rows(others));
    forall i | 0 <= i < |others|
      ensures SameUpToOrder(shuffled[i], others[i])
    {
      assert shuffled[i] in multiset(models);
      var j :| 0 <= j < |models| && models[j] == shuffled[i];
      RowTellsModel(shuffled[i], others[i]);
    }
  }

  lemma EmptyNameJoins()
    ensures SortedJoined([""]) == SortedJoined([])
  {
    assert Sort([""], TextLe) == [""] by {
      assert [""][..0] == [];
      assert Sort([], TextLe) == [];
    }
  }

  /** An empty effort cannot be told from no effort. */
  lemma EmptyEffortIsLost(m: ResolvedAlias)
    ensures RowOf(m.(efforts := [])) == RowOf(m.(efforts := [""]))
  {
    hide SortedJoined, LimitsText, MapText;
    EmptyNameJoins();
  }
}
