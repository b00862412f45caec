/**
 Unwrapping JSON from the packaging language models put around it: code fences and prose.
 */
module CoerceJson {
  import opened Sequences
  import opened TextSpaces

  const FENCE := "```"

  predicate Opens(c: char) {
    c == '{' || c == '['
  }

  predicate Closes(c: char) {
    c == '}' || c == ']'
  }

  // ---- The pieces ----

  function StripPrefix(s: string, p: string): string {
    if p <= s then s[|p|..] else s
  }

  predicate FenceAt(s: string, i: nat) {
    i + |FENCE| <= |s| && s[i..i + |FENCE|] == FENCE
  }

  /** The last place at or before i where a fence starts, or -1. */
  function LastFenceFrom(s: string, i: int): int
    decreases i + 1
  {
    if i < 0 then -1 else if FenceAt(s, i) then i else LastFenceFrom(s, i - 1)
  }

  function CutLastFence(s: string): string {
    var i := LastFenceFrom(s, |s| - |FENCE|);
    if 0 <= i <= |s| then s[..i] else s
  }

  /** Without a fence at the front; the prefixes are taken off one after the other. */
  function Unfenced(s: string): string {
    if FENCE <= s then
      TrimSpace(CutLastFence(StripPrefix(StripPrefix(StripPrefix(s, FENCE + "json"), FENCE + "JSON"), FENCE)))
    else s
  }

  /** The first opening delimiter, or -1. */
  function FirstOpen(s: string): (r: int)
    ensures -1 <= r < |s|
    ensures r >= 0 ==> Opens(s[r]) && forall i :: 0 <= i < r ==> !Opens(s[i])
    ensures r < 0 ==> forall i :: 0 <= i < |s| ==> !Opens(s[i])
  {
    if s == "" then -1
    else
      var r := FirstOpen(s[..|s| - 1]);
      if r >= 0 then r else if Opens(s[|s| - 1]) then |s| - 1 else -1
  }

  /** The last closing delimiter, or -1. */
  function LastClose(s: string): (r: int)
    ensures -1 <= r < |s|
    ensures r >= 0 ==> Closes(s[r]) && forall i :: r < i < |s| ==> !Closes(s[i])
    ensures r < 0 ==> forall i :: 0 <= i < |s| ==> !Closes(s[i])
  {
    if s == "" then -1
    else if Closes(s[|s| - 1]) then |s| - 1
    else LastClose(s[..|s| - 1])
  }

  function FromOpen(s: string): string {
    if FirstOpen(s) > 0 then s[FirstOpen(s)..] else s
  }

  function ToClose(s: string): string {
    if LastClose(s) >= 0 then s[..LastClose(s) + 1] else s
  }

  function Coerced(text: string): string {
    ToClose(FromOpen(Unfenced(TrimSpace(text))))
  }

  // ---- The code ----

  method IndexOfFirstJsonDelim(s: string) returns (i: int)
    ensures i == FirstOpen(s)
  {
    for k := 0 to |s|
      invariant forall j :: 0 <= j < k ==> !Opens(s[j])
    {
      if Opens(s[k]) {
        return k;
      }
    }
    return -1;
  }

  method IndexOfLastJsonDelim(s: string) returns (last: int)
    ensures last == LastClose(s)
  {
    last := -1;
    for k := 0 to |s|
      invariant -1 <= last < k && (last >= 0 ==> Closes(s[last])) && forall j :: last < j < k ==> !Closes(s[j])
    {
      if Closes(s[k]) {
        last := k;
      }
    }
  }

  method CoerceJson(text: string) returns (r: string)
    ensures r == Coerced(text)
  {
    hide TrimSpace, CutLastFence, StripPrefix;
    r := TrimSpace(text);
    if r == "" {
      return;
    }
    if FENCE <= r {
      r := StripPrefix(r, FENCE + "json");
      r := StripPrefix(r, FENCE + "JSON");
      r := StripPrefix(r, FENCE);
      r := TrimSpace(CutLastFence(r));
    }
    var i := IndexOfFirstJsonDelim(r);
    if i > 0 {
      r := r[i..];
    }
    var end := IndexOfLastJsonDelim(r);
    if end >= 0 && end + 1 < |r| {
      r := r[..end + 1];
    }
  }

  // ---- What it recovers ----

  /** Starts with an opening and ends with a closing delimiter. */
  predicate Delimited(j: string) {
    j != "" && (j[0] == '{' || j[0] == '[') && (j[|j| - 1] == '}' || j[|j| - 1] == ']')
  }

  lemma FirstOpenAt(p: string, j: string)
    requires (forall i :: 0 <= i < |p| ==> !Opens(p[i])) && j != "" && Opens(j[0])
    ensures FirstOpen(p + j) == |p|
  {
    assert (p + j)[|p|] == j[0];
    assert forall i :: 0 <= i < |p| ==> (p + j)[i] == p[i];
  }

  lemma LastCloseAt(j: string, q: string)
    requires (forall i :: 0 <= i < |q| ==> !Closes(q[i])) && j != "" && Closes(j[|j| - 1])
    ensures LastClose(j + q) == |j| - 1
  {
    assert (j + q)[|j| - 1] == j[|j| - 1];
    assert forall i :: |j| <= i < |j + q| ==> (j + q)[i] == q[i - |j|];
  }

  /** Text before without an opening, text after without a closing delimiter: both come off. */
  lemma ProseComesOff(p: string, j: string, q: string)
    requires Delimited(j) && (forall i :: 0 <= i < |p| ==> !Opens(p[i])) && (forall i :: 0 <= i < |q| ==> !Closes(q[i]))
    ensures ToClose(FromOpen(p + j + q)) == j
  {
    Regroup(p, j, q);
    assert (j + q)[0] == j[0];
    FirstOpenAt(p, j + q);
    assert (p + (j + q))[|p|..] == j + q;
    LastCloseAt(j, q);
    assert (j + q)[..|j|] == j;
  }

  lemma DelimitedIsTrimmed(j: string)
    requires Delimited(j)
    ensures Trimmed(j)
  {
  }

  // ---- Prose ----

  lemma {:induction false} TrimLeftKeeps(p: string, t: string) returns (kept: string)
    requires t != "" && !IsSpace(t[0])
    ensures TrimLeft(p + t) == kept + t && |kept| <= |p| && kept == p[|p| - |kept|..]
  {
    if p == "" {
      kept := "";
      assert p + t == t;
    } else if IsSpace(p[0]) {
      assert (p + t)[1..] == p[1..] + t;
      kept := TrimLeftKeeps(p[1..], t);
    } else {
      kept := p;
      assert (p + t)[0] == p[0];
    }
  }

  lemma {:induction false} TrimRightKeeps(t: string, q: string) returns (kept: string)
    requires t != "" && !IsSpace(t[|t| - 1])
    ensures TrimRight(t + q) == t + kept && kept <= q
  {
    if q == "" {
      kept := "";
      assert t + q == t;
    } else if IsSpace(q[|q| - 1]) {
      assert (t + q)[..|t + q| - 1] == t + q[..|q| - 1];
      kept := TrimRightKeeps(t, q[..|q| - 1]);
    } else {
      kept := q;
      assert (t + q)[|t + q| - 1] == q[|q| - 1];
    }
  }

  /** Unfenced prose around the JSON comes off. */
  lemma ProseIsRemoved(p: string, j: string, q: string)
    requires Delimited(j) && '{' !in p && '[' !in p && '}' !in q && ']' !in q
    requires !("```" <= TrimSpace(p + j + q))
    ensures Coerced(p + j + q) == j
  {
    assert forall i :: 0 <= i < |p| ==> !Opens(p[i]);
    assert forall i :: 0 <= i < |q| ==> !Closes(q[i]);
    Regroup(p, j, q);
    assert (j + q)[0] == j[0];
    var left := TrimLeftKeeps(p, j + q);
    Regroup(left, j, q);
    assert (left + j)[|left + j| - 1] == j[|j| - 1];
    var right := TrimRightKeeps(left + j, q);
    assert TrimSpace(p + j + q) == left + j + right;
    ProseComesOff(left, j, right);
  }

  // ---- Fences ----

  predicate IsTag(tag: string) {
    tag == "json" || tag == "JSON" || tag == ""
  }

  /** Taking the prefixes off leaves what follows the tag. */
  lemma TagComesOff(tag: string, rest: string)
    requires IsTag(tag) && rest != "" && rest[0] != '`' && rest[0] != 'j' && rest[0] != 'J'
    ensures StripPrefix(StripPrefix(StripPrefix(FENCE + tag + rest, FENCE + "json"), FENCE + "JSON"), FENCE) == rest
  {
    var s := FENCE + tag + rest;
    if tag == "" {
      assert s[3] == rest[0];
      assert s == FENCE + rest;
    } else {
      assert s[3] == tag[0];
      assert s[7..] == rest;
    }
  }

  lemma LastFenceAtEnd(s: string)
    ensures CutLastFence(s + FENCE) == s
  {
    assert FenceAt(s + FENCE, |s|);
  }

  /** JSON in a code fence, with or without its tag and with any blanks around, comes out. */
  lemma FenceIsRemoved(w0: string, tag: string, w1: string, j: string, w2: string, w3: string)
    requires Delimited(j) && IsTag(tag) && Blank(w0) && Blank(w1) && Blank(w2) && Blank(w3)
    ensures Coerced(w0 + ("```" + tag + (w1 + j + w2 + "```")) + w3) == j
  {
    hide CutLastFence, StripPrefix, TrimSpace, ToClose, FromOpen;
    var body := w1 + j + w2;
    var rest := body + FENCE;
    var fenced := FENCE + tag + rest;
    assert fenced[0] == '`' && fenced[|fenced| - 1] == '`';
    TrimFinds(w0, fenced, w3);
    assert rest[0] == if w1 == "" then j[0] else w1[0];
    TagComesOff(tag, rest);
    assert FENCE <= fenced;
    LastFenceAtEnd(body);
    DelimitedIsTrimmed(j);
    TrimFinds(w1, j, w2);
    assert "" + j + "" == j;
    ProseComesOff("", j, "");
  }

  // ---- Substring, and doing it twice ----

  predicate PartOf(r: string, s: string, k: nat) {
    k + |r| <= |s| && r == s[k..k + |r|]
  }

  lemma PartOfPart(r: string, m: string, s: string, a: nat, b: nat)
    requires PartOf(r, m, a) && PartOf(m, s, b)
    ensures PartOf(r, s, a + b)
  {
    forall i | 0 <= i < |r|
      ensures r[i] == s[a + b + i]
    {
      assert r[i] == m[a..a + |r|][i];
      assert m[a + i] == s[b..b + |m|][a + i];
    }
  }

  lemma TrimIsPart(s: string) returns (k: nat)
    ensures PartOf(TrimSpace(s), s, k)
  {
    var before, after := TrimSplits(s);
    k := |before|;
  }

  lemma StripIsPart(s: string, p: string) returns (k: nat)
    ensures PartOf(StripPrefix(s, p), s, k)
  {
    k := if p <= s then |p| else 0;
  }

  lemma UnfencedIsPart(s: string) returns (k: nat)
    ensures PartOf(Unfenced(s), s, k)
    ensures FENCE <= s ==> |Unfenced(s)| < |s|
  {
    hide TrimSpace, StripPrefix, CutLastFence, PartOf;
    if FENCE <= s {
      var a := StripPrefix(s, FENCE + "json");
      var b := StripPrefix(a, FENCE + "JSON");
      var c := StripPrefix(b, FENCE);
      var d := CutLastFence(c);
      var ka := StripIsPart(s, FENCE + "json");
      var kb := StripIsPart(a, FENCE + "JSON");
      var kc := StripIsPart(b, FENCE);
      var kd := TrimIsPart(d);
      CutIsPart(c);
      PartOfPart(b, a, s, kb, ka);
      PartOfPart(c, b, s, kc, ka + kb);
      PartOfPart(d, c, s, 0, kc + (ka + kb));
      PartOfPart(TrimSpace(d), d, s, kd, kc + (ka + kb));
      k := kd + (kc + (ka + kb));
      StripShortens(s);
      PartIsShorter(TrimSpace(d), d, kd);
      PartIsShorter(d, c, 0);
    } else {
      k := 0;
      WholeIsPart(s);
    }
  }

  lemma PartIsShorter(r: string, s: string, k: nat)
    requires PartOf(r, s, k)
    ensures |r| <= |s|
  {
  }

  lemma WholeIsPart(s: string)
    ensures PartOf(s, s, 0)
  {
  }

  lemma CutsAreParts(s: string)
    ensures PartOf(FromOpen(s), s, if FirstOpen(s) > 0 then FirstOpen(s) else 0) && PartOf(ToClose(s), s, 0)
  {
  }

  lemma CutIsPart(s: string)
    ensures PartOf(CutLastFence(s), s, 0)
  {
  }

  lemma StripShortens(s: string)
    requires FENCE <= s
    ensures |StripPrefix(StripPrefix(StripPrefix(s, FENCE + "json"), FENCE + "JSON"), FENCE)| < |s|
  {
  }

  /** The result is a contiguous part of the text. */
  lemma CoercedIsPart(text: string) returns (k: nat)
    ensures PartOf(Coerced(text), text, k)
  {
    hide TrimSpace, Unfenced, FromOpen, ToClose, PartOf;
    var s := TrimSpace(text);
    var u := Unfenced(s);
    var o := FromOpen(u);
    CutsAreParts(u);
    CutsAreParts(o);
    var ks := TrimIsPart(text);
    var ku := UnfencedIsPart(s);
    var ko := if FirstOpen(u) > 0 then FirstOpen(u) else 0;
    PartOfPart(u, s, text, ku, ks);
    PartOfPart(o, u, text, ko, ku + ks);
    PartOfPart(ToClose(o), o, text, 0, ko + (ku + ks));
    k := ko + (ku + ks);
  }

  /** Nothing is left to trim, and no text before an opening or after a closing delimiter. */
  predicate Tight(r: string) {
    Trimmed(r) && FirstOpen(r) <= 0 && (LastClose(r) < 0 || LastClose(r) == |r| - 1)
  }

  lemma UnfencedIsTrimmed(s: string)
    requires Trimmed(s)
    ensures Trimmed(Unfenced(s))
  {
    hide StripPrefix, CutLastFence, TrimSpace;
    if FENCE <= s {
      var d := CutLastFence(StripPrefix(StripPrefix(StripPrefix(s, FENCE + "json"), FENCE + "JSON"), FENCE));
      var before, after := TrimSplits(d);
    }
  }

  lemma CutsAreTight(s: string)
    requires Trimmed(s)
    ensures Tight(ToClose(FromOpen(s)))
  {
    var o := FromOpen(s);
    assert FirstOpen(o) <= 0 && Trimmed(o);
    var r := ToClose(o);
    if LastClose(o) >= 0 {
      assert r[|r| - 1] == o[LastClose(o)];
    }
  }

  lemma CoercedIsTight(text: string)
    ensures Tight(Coerced(text))
  {
    hide TrimSpace, Unfenced, ToClose, FromOpen;
    var before, after := TrimSplits(text);
    UnfencedIsTrimmed(TrimSpace(text));
    CutsAreTight(Unfenced(TrimSpace(text)));
  }

  /** The result is stable exactly when it does not start with a fence. */
  lemma StableResult(text: string)
    ensures Coerced(Coerced(text)) == Coerced(text) <==> !(FENCE <= Coerced(text))
  {
    var r := Coerced(text);
    CoercedIsTight(text);
    TightStays(r);
    if FENCE <= r {
      var k := UnfencedIsPart(r);
      CutsShorten(Unfenced(r));
    }
  }

  /** A fence survives the cuts only where there is no opening delimiter to cut at. */
  lemma FenceSurvives(u: string)
    ensures FENCE <= ToClose(FromOpen(u)) <==> FENCE <= u && FirstOpen(u) < 0
  {
    var o := FromOpen(u);
    if FENCE <= u && FirstOpen(u) < 0 {
      assert forall i :: 0 <= i < |FENCE| ==> u[i] == FENCE[i] && !Closes(u[i]);
      assert LastClose(u) < 0 || LastClose(u) >= |FENCE|;
    } else if FirstOpen(u) >= 0 {
      assert Opens(o[0]) && (ToClose(o) == "" || ToClose(o)[0] == o[0]);
    }
  }

  /** What is inside the outer fence starts with a fence again and has no opening delimiter. */
  predicate NestsFence(text: string) {
    var inside := Unfenced(TrimSpace(text));
    FENCE <= inside && forall i :: 0 <= i < |inside| ==> !Opens(inside[i])
  }

  /**
   Doing it twice changes nothing, except exactly on text with a fence nested in its fence and no
   delimiter to cut at.
   */
  lemma IdempotentIff(text: string)
    ensures Coerced(Coerced(text)) == Coerced(text) <==> !NestsFence(text)
  {
    hide Unfenced, TrimSpace, ToClose, FromOpen;
    StableResult(text);
    FenceSurvives(Unfenced(TrimSpace(text)));
  }

  lemma TightStays(r: string)
    requires Tight(r)
    ensures TrimSpace(r) == r && ToClose(FromOpen(r)) == r
  {
    TrimIdle(r);
  }

  lemma CutsShorten(s: string)
    ensures |ToClose(FromOpen(s))| <= |s|
  {
  }

  /** A result that starts with an opening delimiter is stable. */
  lemma OpenedResultIsStable(text: string)
    requires Coerced(text) != "" && Opens(Coerced(text)[0])
    ensures Coerced(Coerced(text)) == Coerced(text)
  {
    hide Coerced;
    StableResult(text);
  }

  /** A fence inside a fence comes out as a new fence: the result is not stable. */
  lemma NestedFence()
    ensures
      var text := FENCE + "" + (" " + (FENCE + "b") + FENCE);
      Coerced(text) == FENCE + "b" && Coerced(Coerced(text)) != Coerced(text)
  {
    hide Unfenced, TrimSpace, ToClose, FromOpen;
    var text := FENCE + "" + (" " + (FENCE + "b") + FENCE);
    assert text[0] == '`' && text[|text| - 1] == '`';
    TrimIdle(text);
    InnerFence();
    NoDelimiters(FENCE + "b");
    StableResult(text);
  }

  lemma InnerFence()
    ensures Unfenced(FENCE + "" + (" " + (FENCE + "b") + FENCE)) == FENCE + "b"
  {
    hide StripPrefix, CutLastFence, TrimSpace;
    var inner := FENCE + "b";
    TagComesOff("", " " + inner + FENCE);
    LastFenceAtEnd(" " + inner);
    assert " " + inner + "" == " " + inner;
    assert inner[0] == '`' && inner[3] == 'b';
    TrimFinds(" ", inner, "");
  }

  lemma NoDelimiters(s: string)
    requires forall i :: 0 <= i < |s| ==> !Opens(s[i]) && !Closes(s[i])
    ensures ToClose(FromOpen(s)) == s
  {
  }
}
