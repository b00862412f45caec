/** The catalog text spelled out: one line per model, the lines in the order of the aliases. */
module CatalogLines {
  import opened DecimalText
  import opened Ordering
  import opened CatalogFingerprint
  import opened CatalogReading

  function Flag(b: bool): string {
    if b then "true" else "false"
  }

  /** The line of a model: fifteen columns between tabs, and a line feed. */
  ghost function Line(m: ResolvedAlias): string {
    m.alias + "\t" + m.backend + "\t" + m.wireModel + "\t" + Itoa(m.context) + "\t" + Itoa(m.maxOutputTokens) + "\t"
    + SortedJoined(m.efforts) + "\t" + MapText(m.effortWireValues) + "\t" + m.effort + "\t"
    + SortedJoined(m.thinkingModes) + "\t" + m.thinking + "\t" + Flag(m.supportsTools) + "\t" + Flag(m.supportsVision)
    + "\t" + m.passthroughOverride + "\t" + m.profile + "\t" + LimitsText(m.transportLimits) + "\n"
  }

  lemma JoinMore(parts: seq<string>, part: string)
    requires parts != []
    ensures JoinText(parts + [part], "\t") == JoinText(parts, "\t") + "\t" + part
  {
    assert (parts + [part])[..|parts|] == parts;
  }

  /** Five cells and a text before them. */
  lemma JoinFive(parts: seq<string>, a: string, b: string, c: string, d: string, e: string)
    requires parts != []
    ensures JoinText(parts + [a, b, c, d, e], "\t")
         == JoinText(parts, "\t") + "\t" + a + "\t" + b + "\t" + c + "\t" + d + "\t" + e
  {
    hide JoinText;
    JoinMore(parts, a);
    JoinMore(parts + [a], b);
    JoinMore(parts + [a] + [b], c);
    JoinMore(parts + [a] + [b] + [c], d);
    JoinMore(parts + [a] + [b] + [c] + [d], e);
    assert parts + [a] + [b] + [c] + [d] + [e] == parts + [a, b, c, d, e];
  }

  lemma OneCell(a: string)
    ensures JoinText([a], "\t") == a
  {
  }

  lemma CellsInOrder(r: Row)
    ensures Cells(r) ==
      [r.alias] + [r.backend, r.wireModel, Itoa(r.context), Itoa(r.maxOutputTokens), r.efforts]
      + [r.effortWireValues, r.effort, r.thinkingModes, r.thinking, Flag(r.supportsTools)]
      + [Flag(r.supportsVision), r.passthroughOverride, r.profile, r.transportLimits]
  {
  }

  /** The row of a model is its line. */
  lemma RowIsLine(m: ResolvedAlias)
    ensures RowText(RowOf(m)) == Line(m)
  {
    hide JoinText, Cells, SortedJoined, MapText, LimitsText, Itoa;
    var r := RowOf(m);
    CellsInOrder(r);
    OneCell(r.alias);
    var one := [r.alias];
    JoinFive(one, r.backend, r.wireModel, Itoa(r.context), Itoa(r.maxOutputTokens), r.efforts);
    var six := one + [r.backend, r.wireModel, Itoa(r.context), Itoa(r.maxOutputTokens), r.efforts];
    JoinFive(six, r.effortWireValues, r.effort, r.thinkingModes, r.thinking, Flag(r.supportsTools));
    var eleven := six + [r.effortWireValues, r.effort, r.thinkingModes, r.thinking, Flag(r.supportsTools)];
    JoinMore(eleven, Flag(r.supportsVision));
    JoinMore(eleven + [Flag(r.supportsVision)], r.passthroughOverride);
    JoinMore(eleven + [Flag(r.supportsVision)] + [r.passthroughOverride], r.profile);
    JoinMore(eleven + [Flag(r.supportsVision)] + [r.passthroughOverride] + [r.profile], r.transportLimits);
    assert eleven + [Flag(r.supportsVision)] + [r.passthroughOverride] + [r.profile] + [r.transportLimits] == Cells(r);
  }

  ghost function Lines(models: seq<ResolvedAlias>): string {
    if models == [] then "" else Lines(models[..|models| - 1]) + Line(models[|models| - 1])
  }

  lemma {:induction false} RowsAreLines(rows: seq<Row>, models: seq<ResolvedAlias>)
    requires |rows| == |models| && forall i :: 0 <= i < |rows| ==> rows[i] == RowOf(models[i])
    ensures RowsText(rows) == Lines(models)
  {
    hide RowOf, RowText, Line;
    if rows != [] {
      var n := |rows| - 1;
      RowsAreLines(rows[..n], models[..n]);
      RowIsLine(models[n]);
    }
  }

  /** The text that is hashed is the lines of the models, arranged by alias. */
  lemma CatalogSpelled(models: seq<ResolvedAlias>) returns (arranged: seq<ResolvedAlias>)
    ensures multiset(arranged) == multiset(models) && CatalogText(models) == Lines(arranged)
    ensures forall i, j :: 0 <= i < j < |arranged| ==> TextLe(arranged[i].alias, arranged[j].alias)
  {
    hide RowOf, Sort, MapSeq, RowsText, Lines, TextLe;
    var rows := Sort(Rows(models), AliasLe);
    AliasOrder();
    SortSorts(Rows(models), AliasLe);
    arranged := Sources(RowOf, models, rows);
    RowsAreLines(rows, arranged);
    forall i, j | 0 <= i < j < |arranged|
      ensures TextLe(arranged[i].alias, arranged[j].alias)
    {
      RowAlias(arranged[i]);
      RowAlias(arranged[j]);
      assert AliasLe(rows[i], rows[j]);
    }
  }

  /** The list of a model's names: sorted, with commas between. */
  lemma ListSpelled(values: seq<string>) returns (sorted: seq<string>)
    ensures multiset(sorted) == multiset(values) && SortedJoined(values) == JoinText(sorted, ",")
    ensures forall i, j :: 0 <= i < j < |sorted| ==> TextLe(sorted[i], sorted[j])
  {
    hide TextLe, JoinText, Sort;
    sorted := Sort(values, TextLe);
    TextOrder();
    SortSorts(values, TextLe);
  }

  /** The list of a model's limits: each transport, an equals sign and its number, once. */
  lemma LimitsSpelled(limits: map<string, int>)
    ensures LimitsText(limits) == SortedJoined(Limits(limits)) && |Limits(limits)| == |limits|
    ensures forall k :: k in limits ==> k + "=" + Itoa(limits[k]) in Limits(limits)
  {
    hide LimitText, Itoa, SortedJoined;
    SameLimitsText(limits);
    assert |multiset(SortedKeys(limits.Keys))| == |SortedKeys(limits.Keys)| && |multiset(limits.Keys)| == |limits.Keys|;
    forall k | k in limits
      ensures k + "=" + Itoa(limits[k]) in Limits(limits)
    {
      LimitIn(limits, k);
      LimitIs(limits, k);
    }
  }

  lemma LimitIs(limits: map<string, int>, k: string)
    requires k in limits
    ensures LimitText(limits, k) == k + "=" + Itoa(limits[k])
  {
  }
}
