/** Governance fairness: Gini coefficients of per-area access, usage and satisfaction, and the
    gap in digital access between high- and low-income residents. */
module Fairness {
  import opened Common
  import opened Records
  import Agents

  const AreaKey := "area"
  const DigitalAccess := "digital_access"

  /** Incomes above this count as high. */
  const IncomeThreshold: real := 6000.0

  datatype FairnessMetrics = FairnessMetrics(
    serviceAccessGini: real,
    usageDepthGini: real,
    satisfactionGini: real,
    digitalDivide: real)

  // ---------------------------------------------------------------------------
  // Per-area levels

  /** `resident.get('area', 'core_area')` */
  function AreaOfResident(r: map<string, Value>): string { TextOr(r, AreaKey, CoreArea) }

  /** `1.0 if r.get('digital_access', False) else 0.0` */
  function AccessScore(r: map<string, Value>): real { if FlagOr(r, DigitalAccess) then 1.0 else 0.0 }

  /** `r.get('service_usage_frequency', 0)` */
  function UsageDepth(r: map<string, Value>): real { NumOr(r, Agents.UsageFrequency, 0.0) }

  /** `r.get('satisfaction', 3.0)` */
  function SatisfactionOf(r: map<string, Value>): real { NumOr(r, Agents.Satisfaction, 3.0) }

  /** The residents of one area, in list order. */
  function InArea(rs: seq<map<string, Value>>, area: string): seq<map<string, Value>> {
    Filter(rs, (r: map<string, Value>) => AreaOfResident(r) == area)
  }

  /** The mean of `f` over the residents of one area, 0 for an area without residents. */
  function AreaLevel(rs: seq<map<string, Value>>, area: string, f: map<string, Value> -> real): real {
    var group := InArea(rs, area);
    if group == [] then 0.0 else Mean(MapSeq(group, f))
  }

  /** The three per-area levels in the order core, fringe, rural. */
  function AreaLevels(rs: seq<map<string, Value>>, f: map<string, Value> -> real): seq<real> {
    [AreaLevel(rs, CoreArea, f), AreaLevel(rs, FringeArea, f), AreaLevel(rs, RuralArea, f)]
  }

  /** `calculate_fairness` */
  function CalculateFairness(rs: seq<map<string, Value>>): (r: FairnessMetrics)
    ensures rs == [] ==> r == FairnessMetrics(0.0, 0.0, 0.0, 0.0)
  {
    if rs == [] then FairnessMetrics(0.0, 0.0, 0.0, 0.0)
    else FairnessMetrics(Gini(AreaLevels(rs, AccessScore)), Gini(AreaLevels(rs, UsageDepth)),
                         Gini(AreaLevels(rs, SatisfactionOf)), DigitalDivide(rs))
  }

  /** All four fairness metrics lie in [0, 1]. */
  lemma FairnessBounds(rs: seq<map<string, Value>>)
    ensures var m := CalculateFairness(rs);
      && 0.0 <= m.serviceAccessGini <= 1.0 && 0.0 <= m.usageDepthGini <= 1.0
      && 0.0 <= m.satisfactionGini <= 1.0 && 0.0 <= m.digitalDivide <= 1.0
  {
    DigitalDivideBounds(rs);
  }

  /** A resident without an area is grouped with the core area. */
  lemma MissingAreaIsCore(rs: seq<map<string, Value>>, i: nat)
    requires i < |rs| && AreaKey !in rs[i]
    ensures rs[i] in InArea(rs, CoreArea)
  {
    FilterKeeps(rs, (r: map<string, Value>) => AreaOfResident(r) == CoreArea, i);
  }

  lemma {:induction false} FilterKeeps<T>(xs: seq<T>, p: T -> bool, i: nat)
    requires i < |xs| && p(xs[i])
    ensures xs[i] in Filter(xs, p)
  {
    if i < |xs| - 1 {
      FilterKeeps(xs[..|xs| - 1], p, i);
    }
  }

  /** Each area's access level is the fraction of its residents with digital access. */
  lemma AccessLevelIsFraction(rs: seq<map<string, Value>>, area: string)
    requires InArea(rs, area) != []
    ensures AreaLevel(rs, area, AccessScore)
      == Ratio(Count(InArea(rs, area), (r: map<string, Value>) => FlagOr(r, DigitalAccess)), |InArea(rs, area)|)
  {
    MeanOfIndicators(InArea(rs, area), AccessScore, (r: map<string, Value>) => FlagOr(r, DigitalAccess));
  }

  // ---------------------------------------------------------------------------
  // Sorting

  predicate Sorted(s: seq<real>) {
    forall i, j :: 0 <= i < j < |s| ==> s[i] <= s[j]
  }

  /** Inserts `x` into an ascending list. */
  function Insert(x: real, s: seq<real>): (r: seq<real>)
    ensures |r| == |s| + 1
  {
    if s == [] || x <= s[0] then [x] + s else [s[0]] + Insert(x, s[1..])
  }

  /** `sorted(xs)` */
  function SortAscending(xs: seq<real>): (r: seq<real>)
    ensures |r| == |xs|
  {
    if xs == [] then [] else Insert(xs[0], SortAscending(xs[1..]))
  }

  lemma {:induction false} InsertPermutes(x: real, s: seq<real>)
    ensures multiset(Insert(x, s)) == multiset(s) + multiset{x}
  {
    if s != [] && x > s[0] {
      InsertPermutes(x, s[1..]);
      assert s == [s[0]] + s[1..];
    }
  }

  lemma {:induction false} InsertSorted(x: real, s: seq<real>)
    requires Sorted(s)
    ensures Sorted(Insert(x, s))
  {
    if s != [] && x > s[0] {
      var t := Insert(x, s[1..]);
      InsertSorted(x, s[1..]);
      InsertPermutes(x, s[1..]);
      forall k | 0 <= k < |t| ensures s[0] <= t[k] {
        assert t[k] in multiset(t);
        assert t[k] in multiset(s[1..]) || t[k] == x;
        if t[k] != x {
          var j :| 0 <= j < |s[1..]| && s[1..][j] == t[k];
          assert s[j + 1] == t[k];
        }
      }
    }
  }

  /** The sorted list is an ascending permutation of its input. */
  lemma {:induction false} SortSpec(xs: seq<real>)
    ensures Sorted(SortAscending(xs))
    ensures multiset(SortAscending(xs)) == multiset(xs)
  {
    if xs != [] {
      SortSpec(xs[1..]);
      InsertSorted(xs[0], SortAscending(xs[1..]));
      InsertPermutes(xs[0], SortAscending(xs[1..]));
      assert xs == [xs[0]] + xs[1..];
    }
  }

  /** An ascending list is determined by its multiset of values. */
  lemma {:induction false} SortedUnique(a: seq<real>, b: seq<real>)
    requires Sorted(a) && Sorted(b) && multiset(a) == multiset(b)
    ensures a == b
  {
    assert |a| == |multiset(a)| == |multiset(b)| == |b|;
    if a != [] {
      FirstIsLeast(a, b);
      FirstIsLeast(b, a);
      assert a[0] == b[0];
      assert multiset(a) == multiset{a[0]} + multiset(a[1..]) by { assert a == [a[0]] + a[1..]; }
      assert multiset(b) == multiset{b[0]} + multiset(b[1..]) by { assert b == [b[0]] + b[1..]; }
      SortedTail(a);
      SortedTail(b);
      assert multiset(a[1..]) == multiset(a) - multiset{a[0]};
      assert multiset(b[1..]) == multiset(b) - multiset{b[0]};
      SortedUnique(a[1..], b[1..]);
      assert a == [a[0]] + a[1..] && b == [b[0]] + b[1..];
    }
  }

  /** The head of an ascending list is at most every value of the same multiset. */
  lemma FirstIsLeast(a: seq<real>, b: seq<real>)
    requires a != [] && Sorted(b) && multiset(a) == multiset(b)
    ensures b != [] && b[0] <= a[0]
  {
    assert a[0] in multiset(a);
    var j :| 0 <= j < |b| && b[j] == a[0];
    if j > 0 {
      assert b[0] <= b[j];
    }
  }

  lemma SortedTail(s: seq<real>)
    requires s != [] && Sorted(s)
    ensures Sorted(s[1..])
  {
    forall i, j | 0 <= i < j < |s| - 1 ensures s[1..][i] <= s[1..][j] {
      assert s[1..][i] == s[i + 1] && s[1..][j] == s[j + 1];
    }
  }

  // ---------------------------------------------------------------------------
  // Gini coefficient

  /** `max(0, v)` */
  function NonNegative(v: real): real { Max(0.0, v) }

  /** `np.cumsum(s)`: the running totals. */
  function CumSums(s: seq<real>): (r: seq<real>)
    ensures |r| == |s|
  {
    if s == [] then [] else CumSums(s[..|s| - 1]) + [Sum(s)]
  }

  /** `all(v == s[0] for v in s)` */
  predicate AllEqual(s: seq<real>) {
    forall i :: 0 <= i < |s| ==> s[i] == s[0]
  }

  /** `calculate_gini`: (n + 1 - 2 * sum(cumsum) / total) / n over the ascending values with
      negatives raised to 0, clamped to [0, 1]; 0 for fewer than two values, for equal values
      and for a zero total. */
  function Gini(values: seq<real>): (r: real)
    ensures 0.0 <= r <= 1.0
    ensures |values| < 2 ==> r == 0.0
  {
    if |values| < 2 then 0.0 else GiniOfSorted(Prepared(values))
  }

  /** `sorted([max(0, v) for v in values])` */
  function Prepared(values: seq<real>): (r: seq<real>)
    ensures |r| == |values|
  {
    SortAscending(MapSeq(values, NonNegative))
  }

  /** The coefficient of values already raised to 0 and sorted. */
  function GiniOfSorted(s: seq<real>): (r: real)
    requires |s| >= 2
    ensures 0.0 <= r <= 1.0
  {
    if AllEqual(s) then 0.0
    else
      var n := |s| as real;
      var cs := CumSums(s);
      var total := cs[|cs| - 1];
      if total == 0.0 then 0.0 else Clamp01((n + 1.0 - 2.0 * Sum(cs) / total) / n)
  }

  /** Relabelling map: a permutation of the inputs is a permutation of the mapped lists. */
  lemma {:induction false} MapPermutes(xs: seq<real>, ys: seq<real>, f: real -> real)
    requires multiset(xs) == multiset(ys)
    ensures multiset(MapSeq(xs, f)) == multiset(MapSeq(ys, f))
    decreases |xs|
  {
    assert |xs| == |multiset(xs)| == |multiset(ys)| == |ys|;
    if xs != [] {
      var x := xs[|xs| - 1];
      var init := xs[..|xs| - 1];
      assert xs == init + [x];
      assert x in multiset(ys);
      var k :| 0 <= k < |ys| && ys[k] == x;
      var rest := ys[..k] + ys[k + 1..];
      assert ys == ys[..k] + [x] + ys[k + 1..];
      assert multiset(ys) == multiset(ys[..k]) + multiset{x} + multiset(ys[k + 1..]);
      assert multiset(xs) == multiset(init) + multiset{x};
      assert multiset(rest) == multiset(ys[..k]) + multiset(ys[k + 1..]);
      assert multiset(rest) == multiset(ys) - multiset{x};
      assert multiset(init) == multiset(xs) - multiset{x};
      MapPermutes(init, rest, f);
      MapAppend(init, [x], f);
      MapAppend(ys[..k], [x], f);
      MapAppend(ys[..k] + [x], ys[k + 1..], f);
      MapAppend(ys[..k], ys[k + 1..], f);
    }
  }

  lemma MapAppend(a: seq<real>, b: seq<real>, f: real -> real)
    ensures MapSeq(a + b, f) == MapSeq(a, f) + MapSeq(b, f)
  {
    var l, r := MapSeq(a + b, f), MapSeq(a, f) + MapSeq(b, f);
    assert |l| == |r|;
    forall i | 0 <= i < |l| ensures l[i] == r[i] {
      if i < |a| {
        assert (a + b)[i] == a[i];
      } else {
        assert (a + b)[i] == b[i - |a|];
      }
    }
  }

  /** The Gini coefficient does not depend on the order of its inputs. */
  lemma GiniPermutationInvariant(xs: seq<real>, ys: seq<real>)
    requires multiset(xs) == multiset(ys)
    ensures Gini(xs) == Gini(ys)
  {
    assert |xs| == |multiset(xs)| == |multiset(ys)| == |ys|;
    PreparedPermutation(xs, ys);
  }

  /** Permuted inputs prepare to the same sorted list. */
  lemma PreparedPermutation(xs: seq<real>, ys: seq<real>)
    requires multiset(xs) == multiset(ys)
    ensures Prepared(xs) == Prepared(ys)
  {
    var mx, my := MapSeq(xs, NonNegative), MapSeq(ys, NonNegative);
    MapPermutes(xs, ys, NonNegative);
    SortSpec(mx);
    SortSpec(my);
    SortedUnique(SortAscending(mx), SortAscending(my));
  }

  /** Negative inputs count as 0. */
  lemma GiniNegativesAsZero(xs: seq<real>)
    ensures Gini(xs) == Gini(MapSeq(xs, NonNegative))
  {
    var m := MapSeq(xs, NonNegative);
    var mm := MapSeq(m, NonNegative);
    forall i | 0 <= i < |m| ensures mm[i] == m[i] {}
    assert mm == m;
    assert Prepared(m) == Prepared(xs);
  }

  /** Equal inputs give 0. */
  lemma GiniOfEqualValues(xs: seq<real>)
    requires forall i :: 0 <= i < |xs| ==> xs[i] == xs[0]
    ensures Gini(xs) == 0.0
  {
    if |xs| >= 2 {
      var m := MapSeq(xs, NonNegative);
      var s := SortAscending(m);
      SortSpec(m);
      forall i | 0 <= i < |s| ensures s[i] == NonNegative(xs[0]) {
        assert s[i] in multiset(m);
      }
    }
  }

  /** One resident group with nothing and one with something: Gini 0.5. */
  lemma GiniOfZeroAndPositive(x: real)
    requires x > 0.0
    ensures Gini([0.0, x]) == 0.5
  {
    PreparedZeroAndPositive(x);
    assert Gini([0.0, x]) == GiniOfSorted([0.0, x]);
    assert [0.0, x][..1] == [0.0] && [0.0][..0] == [];
    assert Sum([0.0]) == 0.0;
    assert Sum([0.0, x]) == x;
    assert CumSums([0.0]) == [0.0];
    var cs := CumSums([0.0, x]);
    assert cs == [0.0, x];
    assert cs[..1] == [0.0];
    assert Sum(cs) == x;
    assert !AllEqual([0.0, x]);
    assert 2.0 * Sum(cs) / cs[1] == 2.0;
  }

  lemma PreparedZeroAndPositive(x: real)
    requires x > 0.0
    ensures Prepared([0.0, x]) == [0.0, x]
  {
    var m := MapSeq([0.0, x], NonNegative);
    assert m == [0.0, x];
    assert [0.0, x][1..] == [x];
    assert SortAscending([x]) == [x];
  }

  // ---------------------------------------------------------------------------
  // Digital divide

  predicate HighIncome(r: map<string, Value>) { NumOr(r, Agents.Income, 0.0) > IncomeThreshold }

  predicate LowIncome(r: map<string, Value>) { NumOr(r, Agents.Income, 0.0) <= IncomeThreshold }

  predicate HasAccess(r: map<string, Value>) { FlagOr(r, DigitalAccess) }

  /** The mean digital access of a non-empty group. */
  function AccessRate(group: seq<map<string, Value>>): real
    requires group != []
  {
    Mean(MapSeq(group, AccessScore))
  }

  /** `calculate_digital_divide`: the gap between the mean digital access of the two income groups,
      0 when either group is empty. */
  function DigitalDivide(rs: seq<map<string, Value>>): real {
    var high := Filter(rs, HighIncome);
    var low := Filter(rs, LowIncome);
    if rs == [] || high == [] || low == [] then 0.0
    else Abs(AccessRate(high) - AccessRate(low))
  }

  /** A group's access rate is the fraction of it with digital access. */
  lemma AccessRateIsFraction(group: seq<map<string, Value>>)
    requires group != []
    ensures AccessRate(group) == Ratio(Count(group, HasAccess), |group|)
  {
    MeanOfIndicators(group, AccessScore, HasAccess);
  }

  /** The divide is the gap between the fractions of each income group with digital access, so it
      lies in [0, 1]. */
  lemma DigitalDivideIsGap(rs: seq<map<string, Value>>)
    requires Filter(rs, HighIncome) != [] && Filter(rs, LowIncome) != []
    ensures var high, low := Filter(rs, HighIncome), Filter(rs, LowIncome);
      DigitalDivide(rs) == Abs(Ratio(Count(high, HasAccess), |high|) - Ratio(Count(low, HasAccess), |low|))
  {
    var high, low := Filter(rs, HighIncome), Filter(rs, LowIncome);
    assert rs != [];
    assert DigitalDivide(rs) == Abs(AccessRate(high) - AccessRate(low));
    AccessRateIsFraction(high);
    AccessRateIsFraction(low);
  }

  /** The divide lies in [0, 1]. */
  lemma DigitalDivideBounds(rs: seq<map<string, Value>>)
    ensures 0.0 <= DigitalDivide(rs) <= 1.0
  {
    var high, low := Filter(rs, HighIncome), Filter(rs, LowIncome);
    if rs != [] && high != [] && low != [] {
      AccessRateIsFraction(high);
      AccessRateIsFraction(low);
    }
  }
}
