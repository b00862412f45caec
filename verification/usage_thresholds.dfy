/**
 Normalising the usage thresholds that trigger a notice: checked, sorted, and compacted in place.
 The values are floating point numbers, NaN and the infinities included: a comparison with NaN is
 false, and sorting puts NaN first.
 */
module UsageThresholds {
  import opened Wrappers
  import opened Ordering

  datatype Float = NaN | NegInf | Num(value: real) | PosInf

  /** x < y on floating point numbers: false whenever one of them is NaN. */
  predicate Lt(x: Float, y: Float) {
    match x
    case NaN => false
    case NegInf => y.Num? || y.PosInf?
    case Num(v) => y.PosInf? || (y.Num? && v < y.value)
    case PosInf => false
  }

  /** x == y on floating point numbers: NaN is not even equal to itself. */
  predicate Eq(x: Float, y: Float) {
    !x.NaN? && x == y
  }

  predicate Le(x: Float, y: Float) {
    Lt(x, y) || Eq(x, y)
  }

  /** What the loop refuses. NaN is refused by neither comparison. */
  predicate Refused(x: Float) {
    Le(x, Num(0.0)) || Le(Num(100.0), x)
  }

  predicate InRange(x: Float) {
    Lt(Num(0.0), x) && Lt(x, Num(100.0))
  }

  predicate StrictlyIncreasing(s: seq<Float>) {
    forall i, j :: 0 <= i < j < |s| ==> Lt(s[i], s[j])
  }

  /** The order of the sort: NaN first. */
  predicate SortLe(x: Float, y: Float) {
    x.NaN? || Le(x, y)
  }

  lemma SortOrder()
    ensures TotalOrder(SortLe)
  {
  }

  // ---- What comes out ----

  /** n copies of NaN. */
  function Nans(n: nat): (r: seq<Float>)
    ensures |r| == n && forall i :: 0 <= i < n ==> r[i] == NaN
  {
    seq(n, _ => NaN)
  }

  /** Every NaN of the first list, and after them each of its numbers once, in increasing order. */
  ghost predicate Normalizes(raw: seq<Float>, list: seq<Float>, numbers: seq<Float>) {
    && list == Nans(multiset(raw)[NaN]) + numbers && StrictlyIncreasing(numbers)
    && forall x :: x in numbers <==> x in raw && !x.NaN?
  }

  ghost predicate IsOutcome(raw: seq<Float>, r: Result<seq<Float>>) {
    if exists i :: 0 <= i < |raw| && Refused(raw[i]) then r == Err
    else r.Ok? && exists numbers :: Normalizes(raw, r.value, numbers)
  }

  // ---- The loops ----

  /** The first list is what the loop has kept of the sorted second list. */
  ghost predicate Thinned(kept: seq<Float>, seen: seq<Float>, numbers: seq<Float>) {
    && Normalizes(seen, kept, numbers)
    && (seen != [] ==> kept != [] && kept[|kept| - 1] == seen[|seen| - 1])
  }

  lemma LastOf(a: seq<Float>, b: seq<Float>)
    ensures b == [] || (b[|b| - 1] in b && (a + b)[|a + b| - 1] == b[|b| - 1])
  {
  }

  lemma ThinnedNan(kept: seq<Float>, seen: seq<Float>, numbers: seq<Float>)
    requires Thinned(kept, seen, numbers) && (seen != [] ==> SortLe(seen[|seen| - 1], NaN))
    ensures Thinned(kept + [NaN], seen + [NaN], [])
  {
    LastOf(Nans(multiset(seen)[NaN]), numbers);
    HasFirst(numbers);
    assert numbers == [];
    assert multiset(seen + [NaN])[NaN] == multiset(seen)[NaN] + 1;
    assert Nans(multiset(seen)[NaN]) + [NaN] == Nans(multiset(seen)[NaN] + 1);
    assert kept + [NaN] == Nans(multiset(seen + [NaN])[NaN]) + [];
    forall x
      ensures x in [] <==> x in seen + [NaN] && !x.NaN?
    {
      assert x in seen + [NaN] <==> x in seen || x == NaN;
    }
  }

  lemma ThinnedRepeat(kept: seq<Float>, seen: seq<Float>, numbers: seq<Float>, x: Float)
    requires Thinned(kept, seen, numbers) && seen != [] && Eq(x, seen[|seen| - 1])
    ensures Thinned(kept, seen + [x], numbers)
  {
    assert x in seen && x in numbers;
    assert multiset(seen + [x])[NaN] == multiset(seen)[NaN];
    forall y
      ensures y in numbers <==> y in seen + [x] && !y.NaN?
    {
      assert y in seen + [x] <==> y in seen || y == x;
    }
  }

  lemma LastNumber(kept: seq<Float>, seen: seq<Float>, numbers: seq<Float>)
    requires Thinned(kept, seen, numbers) && numbers != []
    ensures seen != [] && numbers[|numbers| - 1] == seen[|seen| - 1]
  {
    HasFirst(numbers);
  }

  lemma ThinnedNumber(kept: seq<Float>, seen: seq<Float>, numbers: seq<Float>, x: Float)
    requires Thinned(kept, seen, numbers) && !x.NaN?
    requires seen != [] ==> SortLe(seen[|seen| - 1], x) && !Eq(x, seen[|seen| - 1])
    ensures Thinned(kept + [x], seen + [x], numbers + [x])
  {
    if numbers != [] {
      LastNumber(kept, seen, numbers);
      assert numbers[|numbers| - 1] in numbers;
    }
    NumberGrows(numbers, x);
    assert multiset(seen + [x])[NaN] == multiset(seen)[NaN];
    assert kept + [x] == Nans(multiset(seen + [x])[NaN]) + (numbers + [x]);
    forall y
      ensures y in numbers + [x] <==> y in seen + [x] && !y.NaN?
    {
      assert y in seen + [x] <==> y in seen || y == x;
      assert y in numbers + [x] <==> y in numbers || y == x;
    }
  }

  lemma NumberGrows(numbers: seq<Float>, x: Float)
    requires StrictlyIncreasing(numbers) && (numbers != [] ==> Lt(numbers[|numbers| - 1], x))
    ensures StrictlyIncreasing(numbers + [x])
  {
    forall i | 0 <= i < |numbers|
      ensures Lt(numbers[i], x)
    {
      assert i == |numbers| - 1 || Lt(numbers[i], numbers[|numbers| - 1]);
    }
  }

  /** Drops repetitions from a sorted array, writing over the part already read. */
  method Compact(a: array<Float>) returns (count: nat, ghost numbers: seq<Float>)
    requires SortedBy(a[..], SortLe)
    modifies a
    ensures count <= a.Length && Thinned(a[..count], old(a[..]), numbers)
  {
    hide Thinned;
    count, numbers := 0, [];
    var previous := Num(0.0);
    ghost var all := a[..];
    NothingThinned();
    for i := 0 to a.Length
      invariant 0 <= count <= i && (i > 0 ==> previous == all[i - 1])
      invariant Thinned(a[..count], all[..i], numbers)
      invariant a[i..] == all[i..]
    {
      var threshold := a[i];
      assert threshold == all[i] by { assert a[i] == a[i..][0]; }
      assert all[..i + 1] == all[..i] + [threshold];
      assert a[i + 1..] == all[i + 1..] by { assert a[i + 1..] == a[i..][1..]; }
      ghost var kept, seen := a[..count], all[..i];
      assert i > 0 ==> SortLe(all[i - 1], all[i]);
      if i > 0 && Eq(threshold, previous) {
        ThinnedRepeat(kept, seen, numbers, threshold);
      } else {
        a[count] := threshold;
        assert a[..count + 1] == kept + [threshold];
        if threshold.NaN? {
          ThinnedNan(kept, seen, numbers);
          numbers := [];
        } else {
          ThinnedNumber(kept, seen, numbers, threshold);
          numbers := numbers + [threshold];
        }
        count := count + 1;
        previous := threshold;
      }
    }
    assert all[..a.Length] == all;
  }

  lemma NothingThinned()
    ensures Thinned([], [], [])
  {
  }

  method NormalizeThresholds(raw: seq<Float>) returns (r: Result<seq<Float>>)
    ensures IsOutcome(raw, r)
  {
    hide Normalizes, Thinned;
    if |raw| == 0 {
      NothingNormal();
      return Ok([]);
    }
    for i := 0 to |raw|
      invariant forall j :: 0 <= j < i ==> !Refused(raw[j])
    {
      if Refused(raw[i]) {
        return Err;
      }
    }
    var sorted := Sort(raw, SortLe);
    SortOrder();
    SortSorts(raw, SortLe);
    var a := new Float[|sorted|](i requires 0 <= i < |sorted| => sorted[i]);
    assert a[..] == sorted;
    var count, numbers := Compact(a);
    SortedNormal(raw, sorted, a[..count], numbers);
    return Ok(a[..count]);
  }

  lemma NothingNormal()
    ensures Normalizes([], [], [])
  {
  }

  lemma SortedNormal(raw: seq<Float>, sorted: seq<Float>, list: seq<Float>, numbers: seq<Float>)
    requires multiset(raw) == multiset(sorted) && Thinned(list, sorted, numbers)
    ensures Normalizes(raw, list, numbers)
  {
    SameElements(raw, sorted);
  }

  /** Which numbers are out of range: those up to 0 and those from 100 on, the infinities included. */
  predicate OutOfRange(x: Float) {
    match x
    case NaN => false
    case NegInf => true
    case Num(v) => v <= 0.0 || v >= 100.0
    case PosInf => true
  }

  /** The list is refused exactly if a number in it is out of range. */
  lemma RefusedIff(raw: seq<Float>, r: Result<seq<Float>>)
    requires IsOutcome(raw, r)
    ensures r == Err <==> exists i :: 0 <= i < |raw| && OutOfRange(raw[i])
  {
    forall x
      ensures Refused(x) <==> OutOfRange(x)
    {
    }
  }

  /** The comparisons are those of the numbers. */
  lemma ComparesNumbers(a: real, b: real)
    ensures Lt(Num(a), Num(b)) <==> a < b
    ensures Lt(NegInf, Num(a)) && Lt(Num(a), PosInf) && !Lt(NaN, Num(a)) && !Lt(Num(a), NaN)
    ensures SortLe(Num(a), Num(b)) <==> a <= b
  {
  }

  // ---- When the promise holds ----

  lemma InList(raw: seq<Float>, list: seq<Float>, numbers: seq<Float>, x: Float)
    requires Normalizes(raw, list, numbers)
    ensures x in list <==> x in raw
    ensures NaN in raw <==> multiset(raw)[NaN] > 0
  {
    var nans := Nans(multiset(raw)[NaN]);
    assert x in list <==> x in nans || x in numbers;
    assert NaN in raw <==> NaN in multiset(raw);
    assert multiset(raw)[NaN] > 0 ==> nans[0] in nans;
  }

  /** Every value that comes out lies between 0 and 100 if and only if no NaN went in. */
  lemma InRangeIff(raw: seq<Float>, r: Result<seq<Float>>)
    requires IsOutcome(raw, r) && r.Ok?
    ensures (forall x :: x in r.value ==> InRange(x)) <==> NaN !in raw
  {
    hide Normalizes;
    var numbers :| Normalizes(raw, r.value, numbers);
    if NaN in raw {
      InList(raw, r.value, numbers, NaN);
    } else {
      forall x | x in r.value
        ensures InRange(x)
      {
        InList(raw, r.value, numbers, x);
        var i :| 0 <= i < |raw| && raw[i] == x;
        assert !Refused(raw[i]);
      }
    }
  }

  /** The result is strictly increasing if and only if no NaN went in, or nothing else did. */
  lemma IncreasingIff(raw: seq<Float>, r: Result<seq<Float>>)
    requires IsOutcome(raw, r) && r.Ok?
    ensures StrictlyIncreasing(r.value) <==> NaN !in raw || |raw| == 1
  {
    var numbers :| Normalizes(raw, r.value, numbers);
    InList(raw, r.value, numbers, NaN);
    var k := multiset(raw)[NaN];
    if k == 0 {
      assert r.value == numbers;
    } else if |raw| == 1 {
      assert raw == [raw[0]];
      HasFirst(numbers);
      assert r.value == [NaN];
    } else {
      TwoComeOut(raw, r.value, numbers);
      assert !Lt(r.value[0], r.value[1]);
    }
  }

  lemma TwoComeOut(raw: seq<Float>, list: seq<Float>, numbers: seq<Float>)
    requires Normalizes(raw, list, numbers) && multiset(raw)[NaN] > 0 && |raw| > 1
    ensures |list| > 1 && list[0] == NaN
  {
    if multiset(raw)[NaN] == 1 {
      var i :| 0 <= i < |raw| && raw[i] == NaN;
      var j := if i == 0 then 1 else 0;
      if raw[j].NaN? {
        CountsBoth(raw, i, j);
      } else {
        assert raw[j] in numbers;
      }
    }
  }

  lemma CountsBoth(s: seq<Float>, i: nat, j: nat)
    requires i < |s| && j < |s| && i != j && s[i] == s[j]
    ensures multiset(s)[s[i]] >= 2
  {
    var a, b := if i < j then i else j, if i < j then j else i;
    assert s == s[..b] + [s[b]] + s[b + 1..];
    assert s[..b] == s[..a] + [s[a]] + s[a + 1..b];
  }

  /** Two NaN come out as two NaN: neither in range nor increasing. */
  lemma NanComesThrough(r: Result<seq<Float>>)
    requires IsOutcome([NaN, NaN], r)
    ensures r == Ok([NaN, NaN]) && !StrictlyIncreasing(r.value) && !InRange(r.value[0])
  {
    var raw := [NaN, NaN];
    assert forall i :: 0 <= i < |raw| ==> !Refused(raw[i]);
    var numbers :| Normalizes(raw, r.value, numbers);
    NoNumbers(raw, r.value, numbers);
    assert multiset(raw) == multiset{NaN, NaN};
    assert |r.value| == 2 && r.value[0] == NaN && r.value[1] == NaN;
    assert r.value == raw;
    assert !Lt(r.value[0], r.value[1]);
  }

  lemma NoNumbers(raw: seq<Float>, list: seq<Float>, numbers: seq<Float>)
    requires Normalizes(raw, list, numbers) && forall i :: 0 <= i < |raw| ==> raw[i] == NaN
    ensures list == Nans(multiset(raw)[NaN])
  {
    HasFirst(numbers);
    assert numbers == [];
  }

  // ---- Doing it twice ----

  lemma {:induction false} IncreasingIsUnique(a: seq<Float>, b: seq<Float>)
    requires StrictlyIncreasing(a) && StrictlyIncreasing(b) && forall x :: x in a <==> x in b
    ensures a == b
  {
    if a == [] {
      HasFirst(b);
    } else {
      assert a[0] in a && b != [];
      LastIsMax(a, b);
      var n, k := |a| - 1, |b| - 1;
      forall x
        ensures x in a[..n] <==> x in b[..k]
      {
        assert x in a[..n] <==> x in a && x != a[n];
        assert x in b[..k] <==> x in b && x != b[k];
      }
      IncreasingIsUnique(a[..n], b[..k]);
      assert a == a[..n] + [a[n]] && b == b[..k] + [b[k]];
    }
  }

  lemma LastIsMax(a: seq<Float>, b: seq<Float>)
    requires StrictlyIncreasing(a) && StrictlyIncreasing(b) && (forall x :: x in a <==> x in b) && a != [] && b != []
    ensures a[|a| - 1] == b[|b| - 1]
  {
    var x, y := a[|a| - 1], b[|b| - 1];
    assert x in a && y in b && x in b && y in a;
    var i :| 0 <= i < |b| && b[i] == x;
    var j :| 0 <= j < |a| && a[j] == y;
  }

  lemma SameNormal(raw: seq<Float>, list: seq<Float>, numbers: seq<Float>, other: seq<Float>, others: seq<Float>)
    requires Normalizes(raw, list, numbers) && Normalizes(list, other, others)
    ensures other == list
  {
    var k := multiset(raw)[NaN];
    assert multiset(list) == multiset(Nans(k)) + multiset(numbers);
    AllNans(k);
    assert NaN !in numbers;
    assert NaN in multiset(numbers) <==> NaN in numbers;
    assert multiset(list)[NaN] == k;
    forall x
      ensures x in others <==> x in numbers
    {
      InList(raw, list, numbers, x);
    }
    IncreasingIsUnique(numbers, others);
  }

  lemma {:induction false} AllNans(k: nat)
    ensures multiset(Nans(k))[NaN] == k
  {
    if k > 0 {
      AllNans(k - 1);
      assert Nans(k) == Nans(k - 1) + [NaN];
    }
  }

  /** Normalising again changes nothing, NaN or not. */
  lemma ThresholdsAreIdempotent(raw: seq<Float>, first: Result<seq<Float>>, second: Result<seq<Float>>)
    requires IsOutcome(raw, first) && first.Ok? && IsOutcome(first.value, second)
    ensures second == first
  {
    hide Normalizes;
    var numbers :| Normalizes(raw, first.value, numbers);
    forall i | 0 <= i < |first.value|
      ensures !Refused(first.value[i])
    {
      var x := first.value[i];
      InList(raw, first.value, numbers, x);
      var j :| 0 <= j < |raw| && raw[j] == x;
    }
    var others :| Normalizes(first.value, second.value, others);
    SameNormal(raw, first.value, numbers, second.value, others);
  }
}
