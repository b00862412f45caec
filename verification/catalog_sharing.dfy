/**
 When two models share a row, and two rows a line, for every model and row: separators inside the
 fields count as separators, so what can be read back is the list of pieces between them.
 */
module CatalogSharing {
  import opened Sequences
  import opened Ordering
  import opened CatalogFingerprint
  import opened CatalogReading

  // ---- The pieces of joined text ----

  function SplitAt(s: string, c: char): (r: seq<string>)
    ensures r != []
  {
    if s == "" then [""]
    else
      var n := |s| - 1;
      var before := SplitAt(s[..n], c);
      var last := |before| - 1;
      if s[n] == c then before + [""] else before[..last] + [before[last] + [s[n]]]
  }

  /** The pieces of every part, in order. No part at all reads like one empty part. */
  function Pieces(parts: seq<string>, c: char): (r: seq<string>)
    ensures r != []
  {
    if parts == [] then [""]
    else if |parts| == 1 then SplitAt(parts[0], c)
    else Pieces(parts[..|parts| - 1], c) + SplitAt(parts[|parts| - 1], c)
  }

  lemma JoinPush(parts: seq<string>, last: string, c: char)
    requires parts != []
    ensures JoinText(parts + [last], [c]) == JoinText(parts, [c]) + [c] + last
  {
    assert (parts + [last])[..|parts|] == parts;
  }

  lemma JoinOne(part: string, c: char)
    ensures JoinText([part], [c]) == part
  {
  }

  lemma JoinGrowsLast(parts: seq<string>, last: string, b: char, c: char)
    ensures JoinText(parts + [last + [b]], [c]) == JoinText(parts + [last], [c]) + [b]
  {
    hide JoinText;
    if parts == [] {
      assert [] + [last] == [last] && [] + [last + [b]] == [last + [b]];
      JoinOne(last, c);
      JoinOne(last + [b], c);
    } else {
      JoinPush(parts, last, c);
      JoinPush(parts, last + [b], c);
      Regroup(JoinText(parts, [c]) + [c], last, [b]);
    }
  }

  /** The pieces lack the separator, and joined they are the text. */
  lemma {:induction false} SplitJoins(s: string, c: char)
    ensures AllLack(SplitAt(s, c), c) && JoinText(SplitAt(s, c), [c]) == s
  {
    if s != "" {
      var n := |s| - 1;
      var before := SplitAt(s[..n], c);
      SplitJoins(s[..n], c);
      assert s == s[..n] + [s[n]];
      if s[n] == c {
        JoinPush(before, "", c);
      } else {
        var k := |before| - 1;
        JoinGrowsLast(before[..k], before[k], s[n], c);
        assert before == before[..k] + [before[k]];
      }
    }
  }

  lemma {:induction false} JoinConcat(a: seq<string>, b: seq<string>, c: char)
    requires a != [] && b != []
    ensures JoinText(a + b, [c]) == JoinText(a, [c]) + [c] + JoinText(b, [c])
  {
    var n := |b| - 1;
    if n == 0 {
      assert b == [b[0]];
      JoinPush(a, b[0], c);
    } else {
      JoinConcat(a, b[..n], c);
      JoinPush(a + b[..n], b[n], c);
      assert a + b == a + b[..n] + [b[n]];
      assert JoinText(a, [c]) + [c] + (JoinText(b[..n], [c]) + [c] + b[n]) ==
        JoinText(a, [c]) + [c] + JoinText(b[..n], [c]) + [c] + b[n];
    }
  }

  lemma {:induction false} PiecesJoin(parts: seq<string>, c: char)
    ensures AllLack(Pieces(parts, c), c) && JoinText(Pieces(parts, c), [c]) == JoinText(parts, [c])
  {
    hide SplitAt, Lacks;
    if parts == [] {
      NothingLacks(c);
    } else {
      var n := |parts| - 1;
      SplitJoins(parts[n], c);
      if n > 0 {
        PiecesJoin(parts[..n], c);
        JoinConcat(Pieces(parts[..n], c), SplitAt(parts[n], c), c);
      }
    }
  }

  lemma NothingLacks(c: char)
    ensures Lacks("", c)
  {
  }

  /** Two lists join to the same text exactly if they have the same pieces. */
  lemma SameTextIff(a: seq<string>, b: seq<string>, c: char)
    ensures JoinText(a, [c]) == JoinText(b, [c]) <==> Pieces(a, c) == Pieces(b, c)
  {
    hide Pieces, JoinText, AllLack;
    PiecesJoin(a, c);
    PiecesJoin(b, c);
    if JoinText(a, [c]) == JoinText(b, [c]) {
      JoinInjective(Pieces(a, c), Pieces(b, c), c);
    }
  }

  // ---- Rows and lines ----

  /** The names, in order, have the same comma-separated pieces. */
  predicate SamePieces(a: seq<string>, b: seq<string>) {
    Pieces(Sort(a, TextLe), ',') == Pieces(Sort(b, TextLe), ',')
  }

  /** The two models share a row exactly if they differ at most in how their lists and limits are cut. */
  lemma RowSharedIff(a: ResolvedAlias, b: ResolvedAlias)
    ensures RowOf(a) == RowOf(b) <==>
      && a == b.(efforts := a.efforts, thinkingModes := a.thinkingModes, transportLimits := a.transportLimits)
      && SamePieces(a.efforts, b.efforts) && SamePieces(a.thinkingModes, b.thinkingModes)
      && SamePieces(Limits(a.transportLimits), Limits(b.transportLimits))
  {
    hide Sort, Pieces, JoinText, MapText, Limits;
    SameTextIff(Sort(a.efforts, TextLe), Sort(b.efforts, TextLe), ',');
    SameTextIff(Sort(a.thinkingModes, TextLe), Sort(b.thinkingModes, TextLe), ',');
    var x, y := Limits(a.transportLimits), Limits(b.transportLimits);
    SameTextIff(Sort(x, TextLe), Sort(y, TextLe), ',');
    SameLimitsText(a.transportLimits);
    SameLimitsText(b.transportLimits);
    hide LimitsText;
    if MapText(a.effortWireValues) == MapText(b.effortWireValues) {
      MapTextInjective(a.effortWireValues, b.effortWireValues);
    }
  }

  /** Two rows share a line exactly if their cells have the same tab-separated pieces. */
  lemma LineSharedIff(a: Row, b: Row)
    ensures RowText(a) == RowText(b) <==> Pieces(Cells(a), '\t') == Pieces(Cells(b), '\t')
  {
    hide Pieces, Cells, JoinText;
    var x, y := JoinText(Cells(a), "\t"), JoinText(Cells(b), "\t");
    assert x == (x + "\n")[..|x|] && y == (y + "\n")[..|y|];
    SameTextIff(Cells(a), Cells(b), '\t');
  }
}
