/** Sorting by a total order, and when the sorted arrangement is the only one. */
module Ordering {
  ghost predicate TotalOrder<T(!new)>(le: (T, T) -> bool) {
    && (forall a, b :: le(a, b) || le(b, a))
    && (forall a, b, c :: le(a, b) && le(b, c) ==> le(a, c))
  }

  predicate SortedBy<T>(s: seq<T>, le: (T, T) -> bool) {
    forall i, j :: 0 <= i < j < |s| ==> le(s[i], s[j])
  }

  function Insert<T>(s: seq<T>, x: T, le: (T, T) -> bool): (r: seq<T>)
    ensures multiset(r) == multiset(s) + multiset{x}
  {
    if s == [] || le(s[|s| - 1], x) then s + [x]
    else
      assert s == s[..|s| - 1] + [s[|s| - 1]];
      Insert(s[..|s| - 1], x, le) + [s[|s| - 1]]
  }

  function Sort<T>(s: seq<T>, le: (T, T) -> bool): (r: seq<T>)
    ensures multiset(r) == multiset(s)
  {
    if s == [] then []
    else
      assert s == s[..|s| - 1] + [s[|s| - 1]];
      Insert(Sort(s[..|s| - 1], le), s[|s| - 1], le)
  }

  lemma {:induction false} InsertSorted<T(!new)>(s: seq<T>, x: T, le: (T, T) -> bool)
    requires TotalOrder(le) && SortedBy(s, le)
    ensures SortedBy(Insert(s, x, le), le)
  {
    if s != [] && !le(s[|s| - 1], x) {
      var rest, last := s[..|s| - 1], s[|s| - 1];
      InsertSorted(rest, x, le);
      var r := Insert(rest, x, le);
      forall i | 0 <= i < |r|
        ensures le(r[i], last)
      {
        assert r[i] in multiset(r);
        if r[i] != x {
          assert r[i] in multiset(rest);
        }
      }
    }
  }

  lemma {:induction false} SortSorts<T(!new)>(s: seq<T>, le: (T, T) -> bool)
    requires TotalOrder(le)
    ensures SortedBy(Sort(s, le), le)
  {
    if s != [] {
      SortSorts(s[..|s| - 1], le);
      InsertSorted(Sort(s[..|s| - 1], le), s[|s| - 1], le);
    }
  }

  /** Elements that sort alike are the same. */
  predicate Antisymmetric<T(==)>(s: seq<T>, le: (T, T) -> bool) {
    forall i, j :: 0 <= i < |s| && 0 <= j < |s| && le(s[i], s[j]) && le(s[j], s[i]) ==> s[i] == s[j]
  }

  lemma {:induction false} SortedIsUnique<T(!new)>(a: seq<T>, b: seq<T>, le: (T, T) -> bool)
    requires TotalOrder(le) && SortedBy(a, le) && SortedBy(b, le) && multiset(a) == multiset(b) && Antisymmetric(a, le)
    ensures a == b
  {
    hide TotalOrder, SortedBy, Antisymmetric;
    SameLength(a, b);
    if a != [] {
      var n := |a| - 1;
      LastIsSame(a, b, le);
      WithoutLast(a, le);
      WithoutLast(b, le);
      AntisymmetricWithoutLast(a, le);
      SortedIsUnique(a[..n], b[..n], le);
      assert a == a[..n] + [a[n]] && b == b[..n] + [b[n]];
    }
  }

  lemma SameLength<T>(a: seq<T>, b: seq<T>)
    requires multiset(a) == multiset(b)
    ensures |a| == |b|
  {
    assert |multiset(a)| == |a| && |multiset(b)| == |b|;
  }

  lemma SameElements<T(!new)>(a: seq<T>, b: seq<T>)
    requires multiset(a) == multiset(b)
    ensures |a| == |b| && forall x :: x in a <==> x in b
  {
    SameLength(a, b);
    forall x
      ensures x in a <==> x in b
    {
      assert x in a <==> x in multiset(a);
      assert x in b <==> x in multiset(b);
    }
  }

  lemma WithoutLast<T>(s: seq<T>, le: (T, T) -> bool)
    requires s != [] && SortedBy(s, le)
    ensures SortedBy(s[..|s| - 1], le) && multiset(s[..|s| - 1]) == multiset(s) - multiset{s[|s| - 1]}
  {
    assert s == s[..|s| - 1] + [s[|s| - 1]];
  }

  lemma AntisymmetricWithoutLast<T>(s: seq<T>, le: (T, T) -> bool)
    requires s != [] && Antisymmetric(s, le)
    ensures Antisymmetric(s[..|s| - 1], le)
  {
  }

  lemma LastIsSame<T(!new)>(a: seq<T>, b: seq<T>, le: (T, T) -> bool)
    requires TotalOrder(le) && SortedBy(a, le) && SortedBy(b, le) && multiset(a) == multiset(b) && Antisymmetric(a, le)
    requires a != [] && |a| == |b|
    ensures a[|a| - 1] == b[|a| - 1]
  {
    var n := |a| - 1;
    assert a[n] in multiset(b) && b[n] in multiset(a);
    var i :| 0 <= i < |b| && b[i] == a[n];
    var j :| 0 <= j < |a| && a[j] == b[n];
    assert le(a[n], b[n]) || i == n;
    assert le(b[n], a[n]) || j == n;
  }

  /** Sorting forgets the order the elements came in. */
  lemma SortForgetsOrder<T(!new)>(a: seq<T>, b: seq<T>, le: (T, T) -> bool)
    requires TotalOrder(le) && multiset(a) == multiset(b) && Antisymmetric(a, le)
    ensures Sort(a, le) == Sort(b, le)
  {
    SortSorts(a, le);
    SortSorts(b, le);
    AntisymmetricPermutes(a, Sort(a, le), le);
    SortedIsUnique(Sort(a, le), Sort(b, le), le);
  }

  lemma AntisymmetricPermutes<T(!new)>(a: seq<T>, b: seq<T>, le: (T, T) -> bool)
    requires multiset(a) == multiset(b) && Antisymmetric(a, le)
    ensures Antisymmetric(b, le)
  {
    forall i, j | 0 <= i < |b| && 0 <= j < |b| && le(b[i], b[j]) && le(b[j], b[i])
      ensures b[i] == b[j]
    {
      assert b[i] in multiset(a) && b[j] in multiset(a);
    }
  }

  lemma HasFirst<T>(s: seq<T>)
    ensures s == [] || s[0] in s
  {
  }

  function MapSeq<S, T>(f: S -> T, s: seq<S>): (r: seq<T>)
    ensures |r| == |s| && forall i :: 0 <= i < |s| ==> r[i] == f(s[i])
  {
    if s == [] then [] else MapSeq(f, s[..|s| - 1]) + [f(s[|s| - 1])]
  }

  /** The sequence without its element at j. */
  function Without<T>(s: seq<T>, j: nat): (r: seq<T>)
    requires j < |s|
    ensures |r| == |s| - 1
  {
    s[..j] + s[j + 1..]
  }

  lemma TakeOut<T>(s: seq<T>, j: nat)
    requires j < |s|
    ensures multiset(s) == multiset(Without(s, j)) + multiset{s[j]}
    ensures multiset(Without(s, j)) == multiset(s) - multiset{s[j]}
  {
    assert s == s[..j] + [s[j]] + s[j + 1..];
  }

  lemma MapWithout<S, T>(f: S -> T, s: seq<S>, j: nat)
    requires j < |s|
    ensures MapSeq(f, Without(s, j)) == Without(MapSeq(f, s), j)
  {
    hide MapSeq, Without;
    var a, b := MapSeq(f, Without(s, j)), Without(MapSeq(f, s), j);
    forall i | 0 <= i < |a|
      ensures a[i] == b[i]
    {
      WithoutAt(s, j, i);
      WithoutAt(MapSeq(f, s), j, i);
    }
  }

  lemma WithoutAt<T>(s: seq<T>, j: nat, i: nat)
    requires j < |s| && i < |s| - 1
    ensures Without(s, j)[i] == if i < j then s[i] else s[i + 1]
  {
  }

  /** Mapping a rearrangement gives a rearrangement. */
  lemma {:induction false} MapSeqPermutes<S(!new), T(!new)>(f: S -> T, a: seq<S>, b: seq<S>)
    requires multiset(a) == multiset(b)
    ensures multiset(MapSeq(f, a)) == multiset(MapSeq(f, b))
    decreases |a|
  {
    hide Without, MapSeq;
    SameLength(a, b);
    if a != [] {
      var n := |a| - 1;
      assert a[n] in multiset(b);
      var j :| 0 <= j < |b| && b[j] == a[n];
      TakeOut(a, n);
      TakeOut(b, j);
      MapSeqPermutes(f, Without(a, n), Without(b, j));
      MapWithout(f, a, n);
      MapWithout(f, b, j);
      TakeOut(MapSeq(f, a), n);
      TakeOut(MapSeq(f, b), j);
    }
  }

  // ---- Text ----

  /** The order of strings by their characters. */
  predicate TextLe(a: string, b: string) {
    a == "" || (b != "" && (a[0] < b[0] || (a[0] == b[0] && TextLe(a[1..], b[1..]))))
  }

  lemma {:induction false} TextTotal(a: string, b: string)
    ensures TextLe(a, b) || TextLe(b, a)
  {
    if a != "" && b != "" && a[0] == b[0] {
      TextTotal(a[1..], b[1..]);
    }
  }

  lemma {:induction false} TextTransitive(a: string, b: string, c: string)
    requires TextLe(a, b) && TextLe(b, c)
    ensures TextLe(a, c)
  {
    if a != "" && b != "" && c != "" && a[0] == b[0] == c[0] {
      TextTransitive(a[1..], b[1..], c[1..]);
    }
  }

  lemma {:induction false} TextAntisymmetric(a: string, b: string)
    requires TextLe(a, b) && TextLe(b, a)
    ensures a == b
  {
    if a != "" {
      TextAntisymmetric(a[1..], b[1..]);
    }
  }

  lemma TextOrder()
    ensures TotalOrder(TextLe)
    ensures forall a, b :: TextLe(a, b) && TextLe(b, a) ==> a == b
  {
    forall a, b
      ensures TextLe(a, b) || TextLe(b, a)
    {
      TextTotal(a, b);
    }
    forall a, b, c | TextLe(a, b) && TextLe(b, c)
      ensures TextLe(a, c)
    {
      TextTransitive(a, b, c);
    }
    forall a, b | TextLe(a, b) && TextLe(b, a)
      ensures a == b
    {
      TextAntisymmetric(a, b);
    }
  }

  /** Smaller at the first place where they differ. */
  predicate SmallerAt(a: string, b: string, i: nat) {
    i < |a| && i < |b| && a[..i] == b[..i] && a[i] < b[i]
  }

  lemma SmallerDeeper(a: string, b: string, i: nat)
    requires a != "" && b != "" && a[0] == b[0]
    ensures SmallerAt(a[1..], b[1..], i) <==> SmallerAt(a, b, i + 1)
  {
    if i < |a| - 1 && i < |b| - 1 {
      assert a[..i + 1] == [a[0]] + a[1..][..i] && b[..i + 1] == [b[0]] + b[1..][..i];
      assert a[1..][..i] == a[..i + 1][1..] && b[1..][..i] == b[..i + 1][1..];
    }
  }

  lemma PrefixDeeper(a: string, b: string)
    requires a != "" && b != "" && a[0] == b[0]
    ensures a[1..] <= b[1..] <==> a <= b
  {
    assert a == [a[0]] + a[1..] && b == [b[0]] + b[1..];
  }

  lemma DifferAtStart(a: string, b: string)
    requires a != "" && b != "" && a[0] != b[0]
    ensures !(a <= b) && ((exists i: nat :: SmallerAt(a, b, i)) <==> a[0] < b[0])
  {
    if a[0] < b[0] {
      assert SmallerAt(a, b, 0);
    }
    if exists i: nat :: SmallerAt(a, b, i) {
      var i: nat :| SmallerAt(a, b, i);
      assert i > 0 ==> a[..i][0] == b[..i][0];
    }
  }

  /** One text comes before another if it is a start of it, or smaller at the first place where they differ. */
  lemma {:induction false} TextLeIff(a: string, b: string)
    ensures TextLe(a, b) <==> a <= b || exists i: nat :: SmallerAt(a, b, i)
  {
    hide SmallerAt;
    if a != "" && b != "" {
      if a[0] == b[0] {
        TextLeIff(a[1..], b[1..]);
        PrefixDeeper(a, b);
        SameSmaller(a, b);
      } else {
        DifferAtStart(a, b);
      }
    } else {
      NothingSmaller(a, b);
    }
  }

  lemma NothingSmaller(a: string, b: string)
    requires a == "" || b == ""
    ensures !exists i: nat :: SmallerAt(a, b, i)
  {
  }

  lemma SameSmaller(a: string, b: string)
    requires a != "" && b != "" && a[0] == b[0]
    ensures (exists i: nat :: SmallerAt(a[1..], b[1..], i)) <==> exists i: nat :: SmallerAt(a, b, i)
  {
    if exists i: nat :: SmallerAt(a[1..], b[1..], i) {
      var i: nat :| SmallerAt(a[1..], b[1..], i);
      SmallerDeeper(a, b, i);
    }
    if exists i: nat :: SmallerAt(a, b, i) {
      var i: nat :| SmallerAt(a, b, i);
      assert i > 0;
      SmallerDeeper(a, b, i - 1);
    }
  }

  /** Sorting strings forgets their order. */
  lemma SortTextForgetsOrder(a: seq<string>, b: seq<string>)
    requires multiset(a) == multiset(b)
    ensures Sort(a, TextLe) == Sort(b, TextLe)
  {
    TextOrder();
    SortForgetsOrder(a, b, TextLe);
  }

  function JoinText(parts: seq<string>, separator: string): string {
    if parts == [] then ""
    else if |parts| == 1 then parts[0]
    else JoinText(parts[..|parts| - 1], separator) + separator + parts[|parts| - 1]
  }
}
