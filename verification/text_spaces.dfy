/** White space in text, and trimming it. */
module TextSpaces {
  import opened Sequences

  /** The characters with the Unicode White_Space property. */
  predicate IsSpace(c: char) {
    || '\t' <= c <= '\r' || c == ' ' || c == '\U{85}' || c == '\U{A0}' || c == '\U{1680}'
    || '\U{2000}' <= c <= '\U{200A}' || c == '\U{2028}' || c == '\U{2029}' || c == '\U{202F}'
      || c == '\U{205F}' || c == '\U{3000}'
  }

  predicate Blank(s: string) {
    forall i :: 0 <= i < |s| ==> IsSpace(s[i])
  }

  function TrimLeft(s: string): string {
    if s == "" || !IsSpace(s[0]) then s else TrimLeft(s[1..])
  }

  function TrimRight(s: string): string {
    if s == "" || !IsSpace(s[|s| - 1]) then s else TrimRight(s[..|s| - 1])
  }

  predicate Trimmed(s: string) {
    s == "" || (!IsSpace(s[0]) && !IsSpace(s[|s| - 1]))
  }

  function TrimSpace(s: string): string {
    TrimRight(TrimLeft(s))
  }

  lemma {:induction false} TrimLeftSplits(s: string) returns (before: string)
    ensures s == before + TrimLeft(s) && Blank(before) && (TrimLeft(s) == "" || !IsSpace(TrimLeft(s)[0]))
  {
    if s == "" || !IsSpace(s[0]) {
      before := "";
    } else {
      var rest := TrimLeftSplits(s[1..]);
      before := [s[0]] + rest;
      assert s == [s[0]] + s[1..];
    }
  }

  lemma {:induction false} TrimRightSplits(s: string) returns (after: string)
    ensures s == TrimRight(s) + after && Blank(after)
    ensures (TrimRight(s) == "" || !IsSpace(TrimRight(s)[|TrimRight(s)| - 1]))
  {
    if s == "" || !IsSpace(s[|s| - 1]) {
      after := "";
    } else {
      var rest := TrimRightSplits(s[..|s| - 1]);
      after := rest + [s[|s| - 1]];
      assert s == s[..|s| - 1] + [s[|s| - 1]];
    }
  }

  /** Trimming takes blanks off both ends and nothing else. */
  lemma TrimSplits(s: string) returns (before: string, after: string)
    ensures s == before + TrimSpace(s) + after && Blank(before) && Blank(after) && Trimmed(TrimSpace(s))
  {
    hide IsSpace, Blank, TrimLeft, TrimRight;
    before := TrimLeftSplits(s);
    after := TrimRightSplits(TrimLeft(s));
    Regroup(before, TrimSpace(s), after);
    if TrimSpace(s) != "" {
      assert TrimLeft(s)[0] == TrimSpace(s)[0];
    }
  }

  /** What starts and ends with something else than a blank is found again between blanks. */
  lemma TrimFinds(before: string, s: string, after: string)
    requires Blank(before) && Blank(after) && Trimmed(s) && s != ""
    ensures TrimSpace(before + s + after) == s
  {
    hide IsSpace, Blank, TrimLeft, TrimRight;
    assert (s + after)[0] == s[0];
    TrimLeftFinds(before, s + after);
    Regroup(before, s, after);
    TrimRightFinds(s, after);
  }

  lemma {:induction false} TrimLeftFinds(before: string, s: string)
    requires Blank(before) && s != "" && !IsSpace(s[0])
    ensures TrimLeft(before + s) == s
  {
    if before == "" {
      assert before + s == s;
    } else {
      assert (before + s)[1..] == before[1..] + s;
      TrimLeftFinds(before[1..], s);
    }
  }

  lemma {:induction false} TrimRightFinds(s: string, after: string)
    requires Blank(after) && s != "" && !IsSpace(s[|s| - 1])
    ensures TrimRight(s + after) == s
  {
    if after == "" {
      assert s + after == s;
    } else {
      assert (s + after)[..|s| + |after| - 1] == s + after[..|after| - 1];
      TrimRightFinds(s, after[..|after| - 1]);
    }
  }

  /** The characters that are trimmed: the Unicode White_Space property, by code point. */
  lemma SpacesSpelled(c: char)
    ensures TrimSpace([c]) == "" <==>
      var n := c as int;
      0x09 <= n <= 0x0D || n == 0x20 || n == 0x85 || n == 0xA0 || n == 0x1680 || 0x2000 <= n <= 0x200A
      || n == 0x2028 || n == 0x2029 || n == 0x202F || n == 0x205F || n == 0x3000
  {
    TrimBlank([c]);
    assert Blank([c]) <==> IsSpace([c][0]);
  }

  lemma TrimIdle(s: string)
    requires Trimmed(s)
    ensures TrimSpace(s) == s
  {
  }

  lemma {:induction false} TrimBlank(s: string)
    ensures TrimSpace(s) == "" <==> Blank(s)
  {
    var before, after := TrimSplits(s);
    if TrimSpace(s) != "" {
      var i := |before|;
      assert s[i] == TrimSpace(s)[0];
    }
  }
}
