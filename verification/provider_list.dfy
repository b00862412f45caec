/**
 Normalising the list of intercepted providers: entries are split, trimmed, lower-cased, checked,
 deduplicated and sorted.
 */
module ProviderList {
  import opened Wrappers
  import opened TextSpaces
  import opened Ordering

  const ALL := "all"

  // ---- Names ----

  predicate IsNameChar(c: char) {
    'a' <= c <= 'z' || '0' <= c <= '9' || c == '-' || c == '_' || c == '.'
  }

  predicate IsValidName(s: string) {
    s != "" && s != ALL && forall i :: 0 <= i < |s| ==> IsNameChar(s[i])
  }

  predicate IsSeparator(c: char) {
    c == ',' || c == ' ' || c == '\t' || c == '\n' || c == '\r'
  }

  /** What one more character does to the fields. */
  function WithChar(fields: seq<string>, inField: bool, c: char): seq<string> {
    if IsSeparator(c) then fields
    else if inField && fields != [] then fields[..|fields| - 1] + [fields[|fields| - 1] + [c]]
    else fields + [[c]]
  }

  /** The runs of characters that are not separators. */
  function Fields(s: string): seq<string> {
    if s == "" then []
    else
      var rest := s[..|s| - 1];
      WithChar(Fields(rest), rest != "" && !IsSeparator(rest[|rest| - 1]), s[|s| - 1])
  }

  function AllFields(providers: seq<string>): seq<string> {
    if providers == [] then [] else AllFields(providers[..|providers| - 1]) + Fields(providers[|providers| - 1])
  }

  /** Lower-casing works character by character; `lower` is the mapping. */
  function Lowered(s: string, lower: char -> char): (r: string)
    ensures |r| == |s| && forall i :: 0 <= i < |s| ==> r[i] == lower(s[i])
  {
    seq(|s|, i requires 0 <= i < |s| => lower(s[i]))
  }

  function Normal(s: string, lower: char -> char): string {
    Lowered(TrimSpace(s), lower)
  }

  /** A lower-casing leaves name characters alone. */
  ghost predicate KeepsNames(lower: char -> char) {
    forall c :: IsNameChar(c) ==> lower(c) == c
  }

  function Names(fields: seq<string>, lower: char -> char): (r: seq<string>)
    ensures |r| == |fields| && forall i :: 0 <= i < |r| ==> r[i] == Normal(fields[i], lower)
  {
    seq(|fields|, i requires 0 <= i < |fields| => Normal(fields[i], lower))
  }

  // ---- What the normaliser promises ----

  /** "all" alone, or a sorted list of valid names without a repetition. */
  predicate IsNormal(list: seq<string>) {
    || list == [ALL]
    || (list != [] && SortedBy(list, TextLe) && NoRepeats(list) && forall i :: 0 <= i < |list| ==> IsValidName(list[i]))
  }

  predicate NoRepeats(list: seq<string>) {
    forall i, j :: 0 <= i < j < |list| ==> list[i] != list[j]
  }

  /** Every name is "all" or valid, and "all" is not mixed with others. */
  predicate Acceptable(names: seq<string>) {
    && (forall i :: 0 <= i < |names| ==> names[i] == ALL || IsValidName(names[i]))
    && !(ALL in names && exists i :: 0 <= i < |names| && names[i] != ALL)
  }

  /** The result for a list of names. */
  ghost predicate IsOutcome(names: seq<string>, r: Result<seq<string>>) {
    if !Acceptable(names) then r == Err
    else
      && r.Ok? && IsNormal(r.value)
      && if names == [] || ALL in names then r.value == [ALL]
         else forall name :: name in r.value <==> name in names
  }

  // ---- The loops ----

  method ParseProviders(providers: seq<string>, lower: char -> char) returns (r: Result<seq<string>>)
    ensures IsOutcome(Names(AllFields(providers), lower), r)
  {
    var fields := AllFields(providers);
    ghost var names := Names(fields, lower);
    if |providers| == 0 {
      return Ok([ALL]);
    }
    var seen: set<string> := {};
    var normalized: seq<string> := [];
    var hasAll := false;
    for i := 0 to |fields|
      invariant forall j :: 0 <= j < i ==> names[j] == ALL || IsValidName(names[j])
      invariant hasAll <==> ALL in names[..i]
      invariant NoRepeats(normalized) && (forall name :: name in normalized <==> name in seen)
      invariant forall name :: name in normalized <==> name in names[..i] && name != ALL
    {
      var name := Normal(fields[i], lower);
      assert names[..i + 1] == names[..i] + [name];
      if name == ALL {
        hasAll := true;
      } else {
        if !IsValidName(name) {
          assert names[i] == name;
          return Err;
        }
        if name !in seen {
          seen := seen + {name};
          normalized := normalized + [name];
        }
      }
    }
    assert names[..|fields|] == names;
    if hasAll {
      if |normalized| > 0 {
        assert normalized[0] in normalized;
        return Err;
      }
      AllAlone(names, normalized);
      return Ok([ALL]);
    }
    if |normalized| == 0 {
      NoNames(names, normalized);
      return Ok([ALL]);
    }
    SortKeepsNames(names, normalized);
    return Ok(Sort(normalized, TextLe));
  }

  lemma AllAlone(names: seq<string>, normalized: seq<string>)
    requires normalized == [] && forall name :: name in normalized <==> name in names && name != ALL
    ensures forall i :: 0 <= i < |names| ==> names[i] == ALL
  {
    forall i | 0 <= i < |names|
      ensures names[i] == ALL
    {
      assert names[i] in names;
    }
  }

  lemma NoNames(names: seq<string>, normalized: seq<string>)
    requires normalized == [] && ALL !in names && forall name :: name in normalized <==> name in names && name != ALL
    ensures names == []
  {
    HasFirst(names);
    AllAlone(names, normalized);
  }

  lemma SortKeepsNames(names: seq<string>, normalized: seq<string>)
    requires NoRepeats(normalized) && normalized != [] && ALL !in names
    requires forall name :: name in normalized <==> name in names && name != ALL
    requires forall j :: 0 <= j < |names| ==> names[j] == ALL || IsValidName(names[j])
    ensures IsOutcome(names, Ok(Sort(normalized, TextLe)))
  {
    var sorted := Sort(normalized, TextLe);
    TextOrder();
    SortSorts(normalized, TextLe);
    SameElements(normalized, sorted);
    forall i | 0 <= i < |sorted|
      ensures IsValidName(sorted[i])
    {
      assert sorted[i] in normalized && sorted[i] in names;
    }
    RearrangedHasNoRepeats(normalized, sorted);
    assert normalized[0] in names;
  }

  lemma {:induction false} OneEach(s: seq<string>)
    ensures NoRepeats(s) <==> forall x :: multiset(s)[x] <= 1
  {
    if s != [] {
      var rest, last := s[..|s| - 1], s[|s| - 1];
      assert s == rest + [last];
      OneEach(rest);
      assert last in rest <==> last in multiset(rest);
      if forall x :: multiset(s)[x] <= 1 {
        assert multiset(s)[last] <= 1;
        assert forall x :: multiset(rest)[x] <= multiset(s)[x];
      }
      if NoRepeats(s) {
        forall i | 0 <= i < |rest|
          ensures rest[i] != last
        {
          assert rest[i] == s[i];
        }
      }
    }
  }

  lemma RearrangedHasNoRepeats(a: seq<string>, b: seq<string>)
    requires multiset(a) == multiset(b) && NoRepeats(a)
    ensures NoRepeats(b)
  {
    OneEach(a);
    OneEach(b);
  }

  // ---- Doing it twice ----

  /** The result is determined by the names. */
  lemma OutcomeIsUnique(names: seq<string>, a: Result<seq<string>>, b: Result<seq<string>>)
    requires IsOutcome(names, a) && IsOutcome(names, b)
    ensures a == b
  {
    hide TextLe, IsValidName;
    if Acceptable(names) && names != [] && ALL !in names {
      ListsNames(names, a.value);
      ListsNames(names, b.value);
      SameSet(a.value, b.value);
    }
  }

  lemma ListsNames(names: seq<string>, list: seq<string>)
    requires IsNormal(list) && names != [] && ALL !in names && forall name :: name in list <==> name in names
    ensures SortedBy(list, TextLe) && NoRepeats(list)
  {
    assert list == [ALL] ==> ALL in list;
  }

  lemma SameSet(a: seq<string>, b: seq<string>)
    requires SortedBy(a, TextLe) && SortedBy(b, TextLe) && NoRepeats(a) && NoRepeats(b)
      && forall x :: x in a <==> x in b
    ensures a == b
  {
    OneEach(a);
    OneEach(b);
    forall x
      ensures multiset(a)[x] == multiset(b)[x]
    {
      assert x in a <==> x in multiset(a);
      assert x in b <==> x in multiset(b);
      assert multiset(a)[x] <= 1 && multiset(b)[x] <= 1;
    }
    assert multiset(a) == multiset(b);
    TextOrder();
    SortedIsUnique(a, b, TextLe);
  }

  lemma {:induction false} OneField(s: string)
    requires s != "" && forall i :: 0 <= i < |s| ==> !IsSeparator(s[i])
    ensures Fields(s) == [s]
  {
    if |s| > 1 {
      var rest := s[..|s| - 1];
      OneField(rest);
      assert s == rest + [s[|s| - 1]];
    } else {
      assert Fields(s[..0]) == [];
      assert s == [s[0]];
    }
  }

  predicate Separates(c: char) {
    c in {',', ' ', '\t', '\n', '\r'}
  }

  lemma FieldsPush(s: string, c: char)
    ensures Fields(s + [c]) == WithChar(Fields(s), s != "" && !IsSeparator(s[|s| - 1]), c)
  {
    hide WithChar, IsSeparator;
    var t := s + [c];
    assert t[..|t| - 1] == s && t[|t| - 1] == c;
  }

  lemma WithCharAfter(a: seq<string>, b: seq<string>, inField: bool, c: char)
    requires inField ==> b != []
    ensures WithChar(a + b, inField, c) == a + WithChar(b, inField, c)
  {
    if !IsSeparator(c) && inField {
      assert (a + b)[..|a + b| - 1] == a + b[..|b| - 1];
    }
  }

  /** A comma, a space, a tab or a line break ends a field; empty fields do not count. */
  lemma {:induction false} FieldsSplit(a: string, c: char, b: string)
    requires Separates(c)
    ensures Fields(a + [c] + b) == Fields(a) + Fields(b)
    decreases |b|
  {
    hide Fields, WithChar;
    if b == "" {
      SeparatorAddsNothing(a, c);
      assert a + [c] + b == a + [c];
    } else {
      var n := |b| - 1;
      var t := a + [c] + b[..n];
      FieldsSplit(a, c, b[..n]);
      FieldsPush(t, b[n]);
      FieldsPush(b[..n], b[n]);
      var inField := n > 0 && !IsSeparator(b[n - 1]);
      if inField {
        EndsInField(b[..n]);
      }
      WithCharAfter(Fields(a), Fields(b[..n]), inField, b[n]);
      assert a + [c] + b == t + [b[n]] && b == b[..n] + [b[n]];
    }
  }

  lemma SeparatorAddsNothing(a: string, c: char)
    requires Separates(c)
    ensures Fields(a + [c]) == Fields(a) + Fields("")
  {
    FieldsPush(a, c);
  }

  lemma EndsInField(s: string)
    requires s != "" && !IsSeparator(s[|s| - 1])
    ensures Fields(s) != []
  {
  }

  /** Text without any of these is one field. */
  lemma OneFieldSpelled(s: string)
    requires s != "" && forall i :: 0 <= i < |s| ==> !Separates(s[i])
    ensures Fields(s) == [s] && Fields("") == []
  {
    OneField(s);
  }

  /** The letters of a provider's name, one by one. */
  lemma NamesSpelled(c: char, r: Result<seq<string>>)
    requires IsOutcome([[c]], r)
    ensures r == if 'a' <= c <= 'z' || '0' <= c <= '9' || c in {'-', '_', '.'} then Ok([[c]]) else Err
  {
    assert [[c]][0] == [c] && [c][0] == c;
    if IsNameChar(c) {
      assert IsNormal([[c]]);
      NormalIsAcceptable([[c]]);
      OutcomeIsUnique([[c]], r, Ok([[c]]));
    }
  }

  /** The word for all of them, also when nothing is named. */
  lemma AllSpelled(names: seq<string>, r: Result<seq<string>>)
    requires IsOutcome(names, r) && forall i :: 0 <= i < |names| ==> names[i] == "all"
    ensures r == Ok(["all"])
  {
    if names != [] {
      assert names[0] in names;
    }
  }

  predicate IsPlain(s: string) {
    s != "" && forall i :: 0 <= i < |s| ==> IsNameChar(s[i])
  }

  lemma {:induction false} PlainFields(list: seq<string>)
    requires forall i :: 0 <= i < |list| ==> IsPlain(list[i])
    ensures AllFields(list) == list
  {
    hide Fields, IsPlain;
    if list != [] {
      var rest, last := list[..|list| - 1], list[|list| - 1];
      PlainFields(rest);
      PlainField(last);
      assert list == rest + [last];
    }
  }

  lemma PlainField(s: string)
    requires IsPlain(s)
    ensures Fields(s) == [s]
  {
    OneField(s);
  }

  lemma PlainIsNormal(s: string, lower: char -> char)
    requires IsPlain(s) && KeepsNames(lower)
    ensures Normal(s, lower) == s
  {
    TrimIdle(s);
    assert Lowered(s, lower) == s;
  }

  lemma NormalIsPlain(list: seq<string>)
    requires IsNormal(list)
    ensures forall i :: 0 <= i < |list| ==> IsPlain(list[i])
  {
  }

  /** A normal list is its own names, whatever else the lower-casing does. */
  lemma NormalNames(list: seq<string>, lower: char -> char)
    requires IsNormal(list) && KeepsNames(lower)
    ensures Names(AllFields(list), lower) == list
  {
    hide IsNormal, Normal, IsPlain;
    NormalIsPlain(list);
    PlainFields(list);
    forall i | 0 <= i < |list|
      ensures Normal(list[i], lower) == list[i]
    {
      PlainIsNormal(list[i], lower);
    }
  }

  lemma NormalIsAcceptable(list: seq<string>)
    requires IsNormal(list)
    ensures IsOutcome(list, Ok(list))
  {
    assert list == [ALL] ==> list[0] == ALL;
    if list != [ALL] {
      assert forall i :: 0 <= i < |list| ==> list[i] != ALL;
    }
  }

  /** Normalising again changes nothing. */
  lemma ParseIsIdempotent(providers: seq<string>, lower: char -> char, first: Result<seq<string>>,
      second: Result<seq<string>>)
    requires KeepsNames(lower) && IsOutcome(Names(AllFields(providers), lower), first) && first.Ok?
    requires IsOutcome(Names(AllFields(first.value), lower), second)
    ensures second == first
  {
    hide IsOutcome, IsNormal;
    OutcomeIsNormal(Names(AllFields(providers), lower), first);
    NormalNames(first.value, lower);
    NormalIsAcceptable(first.value);
    OutcomeIsUnique(first.value, first, second);
  }

  lemma OutcomeIsNormal(names: seq<string>, r: Result<seq<string>>)
    requires IsOutcome(names, r) && r.Ok?
    ensures IsNormal(r.value)
  {
  }
}
