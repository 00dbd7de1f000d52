/** Shared helpers: optional values, clamping, counting and averaging over sequences,
    and the Python string operations the simulation relies on (find, strip, split prefix). */
module Common {

  datatype Option<+T> = None | Some(value: T) {
    /** `d.get(key, default)` once the lookup has produced an Option. */
    function GetOr(default: T): T {
      match this
      case Some(v) => v
      case None => default
    }
  }

  /** Success or failure of an operation that can raise in the source. */
  datatype Outcome = Pass | Fail(error: string)

  datatype Result<+T> = Ok(value: T) | Err(error: string)

  function Min(a: real, b: real): real { if a <= b then a else b }

  function Max(a: real, b: real): real { if a >= b then a else b }

  /** `max(lo, min(hi, x))`. */
  function Clamp(lo: real, hi: real, x: real): (r: real)
    requires lo <= hi
    ensures lo <= r <= hi
    ensures lo <= x <= hi ==> r == x
    ensures x < lo ==> r == lo
    ensures hi < x ==> r == hi
  {
    Max(lo, Min(hi, x))
  }

  function Clamp01(x: real): (r: real)
    ensures 0.0 <= r <= 1.0
    ensures 0.0 <= x <= 1.0 ==> r == x
  {
    Clamp(0.0, 1.0, x)
  }

  /** `d.get(key, default)` on a numeric mapping. */
  function Get(m: map<string, real>, key: string, default: real): real {
    if key in m then m[key] else default
  }

  function Abs(x: real): real { if x < 0.0 then -x else x }

  // ---------------------------------------------------------------------------
  // Counting, summing and averaging

  /** `len([x for x in xs if p(x)])` */
  function Count<T>(xs: seq<T>, p: T -> bool): (n: nat)
    ensures n <= |xs|
  {
    if xs == [] then 0 else Count(xs[..|xs| - 1], p) + (if p(xs[|xs| - 1]) then 1 else 0)
  }

  /** `[x for x in xs if p(x)]` */
  function Filter<T>(xs: seq<T>, p: T -> bool): (r: seq<T>)
    ensures |r| == Count(xs, p)
    ensures forall x :: x in r ==> x in xs && p(x)
  {
    if xs == [] then [] else
      Filter(xs[..|xs| - 1], p) + (if p(xs[|xs| - 1]) then [xs[|xs| - 1]] else [])
  }

  /** `[f(x) for x in xs]` */
  function MapSeq<T, U>(xs: seq<T>, f: T -> U): (r: seq<U>)
    ensures |r| == |xs|
    ensures forall i :: 0 <= i < |xs| ==> r[i] == f(xs[i])
  {
    if xs == [] then [] else MapSeq(xs[..|xs| - 1], f) + [f(xs[|xs| - 1])]
  }

  function Sum(xs: seq<real>): real {
    if xs == [] then 0.0 else Sum(xs[..|xs| - 1]) + xs[|xs| - 1]
  }

  /** `np.mean(xs)` for a non-empty list. */
  function Mean(xs: seq<real>): real
    requires |xs| > 0
  {
    Sum(xs) / (|xs| as real)
  }

  /** `a / b` for counts, 0 when the denominator is 0 (the source's `x / n if n > 0 else 0.0`). */
  function Ratio(a: nat, b: nat): (r: real)
    ensures a <= b ==> 0.0 <= r <= 1.0
    ensures a == 0 || b == 0 ==> r == 0.0
    ensures b > 0 && a == b ==> r == 1.0
  {
    if b == 0 then 0.0 else (a as real) / (b as real)
  }

  /** Population variance, `np.var(xs)`. */
  function Variance(xs: seq<real>): real
    requires |xs| > 0
  {
    Mean(Deviations(xs, Mean(xs)))
  }

  /** The squared distances of the values from `m`. */
  function Deviations(xs: seq<real>, m: real): (r: seq<real>)
    ensures |r| == |xs|
    ensures forall i :: 0 <= i < |xs| ==> r[i] == (xs[i] - m) * (xs[i] - m)
  {
    if xs == [] then [] else Deviations(xs[..|xs| - 1], m) + [(xs[|xs| - 1] - m) * (xs[|xs| - 1] - m)]
  }

  function Repeat<T>(x: T, n: nat): (r: seq<T>)
    ensures |r| == n
    ensures forall y :: y in r ==> y == x
  {
    if n == 0 then [] else Repeat(x, n - 1) + [x]
  }

  predicate AllIn(xs: seq<real>, lo: real, hi: real) {
    forall i :: 0 <= i < |xs| ==> lo <= xs[i] <= hi
  }

  lemma {:induction false} SumBounds(xs: seq<real>, lo: real, hi: real)
    requires AllIn(xs, lo, hi)
    ensures lo * (|xs| as real) <= Sum(xs) <= hi * (|xs| as real)
  {
    if xs != [] {
      var init := xs[..|xs| - 1];
      var n := |init| as real;
      assert AllIn(init, lo, hi) by {
        forall i | 0 <= i < |init| ensures lo <= init[i] <= hi {
          assert init[i] == xs[i];
        }
      }
      SumBounds(init, lo, hi);
      assert Sum(xs) == Sum(init) + xs[|xs| - 1];
      assert lo <= xs[|xs| - 1] <= hi;
      assert (|xs| as real) == n + 1.0;
      assert lo * (n + 1.0) == lo * n + lo && hi * (n + 1.0) == hi * n + hi;
    }
  }

  /** A mean lies between any bounds of its inputs. */
  lemma MeanBounds(xs: seq<real>, lo: real, hi: real)
    requires |xs| > 0 && AllIn(xs, lo, hi)
    ensures lo <= Mean(xs) <= hi
  {
    SumBounds(xs, lo, hi);
    var n := |xs| as real;
    assert lo * n <= Sum(xs) <= hi * n;
    assert Sum(xs) / n >= lo by {
      assert Sum(xs) / n * n == Sum(xs);
    }
    assert Sum(xs) / n <= hi by {
      assert Sum(xs) / n * n == Sum(xs);
    }
  }

  /** A list of 0/1 scores sums to the number of its ones. */
  lemma {:induction false} SumOfIndicators<T>(ys: seq<T>, f: T -> real, p: T -> bool)
    requires forall y :: y in ys ==> f(y) == (if p(y) then 1.0 else 0.0)
    ensures Sum(MapSeq(ys, f)) == Count(ys, p) as real
  {
    if ys != [] {
      var init := ys[..|ys| - 1];
      var m := MapSeq(ys, f);
      assert m[..|m| - 1] == MapSeq(init, f);
      SumOfIndicators(init, f, p);
    }
  }

  /** The mean of 0/1 scores is the fraction of ones. */
  lemma MeanOfIndicators<T>(ys: seq<T>, f: T -> real, p: T -> bool)
    requires ys != []
    requires forall y :: y in ys ==> f(y) == (if p(y) then 1.0 else 0.0)
    ensures Mean(MapSeq(ys, f)) == Ratio(Count(ys, p), |ys|)
  {
    SumOfIndicators(ys, f, p);
  }

  /** The mean of a one-element list is its element. */
  lemma MeanSingle(v: real)
    ensures Mean([v]) == v
  {
    assert [v][..0] == [];
    assert Sum([v]) == v;
  }

  /** Per-element bounds carry over to the mapped list. */
  lemma MapBounds<T>(ys: seq<T>, f: T -> real, lo: real, hi: real)
    requires forall y :: y in ys ==> lo <= f(y) <= hi
    ensures AllIn(MapSeq(ys, f), lo, hi)
  {
    var m := MapSeq(ys, f);
    forall i | 0 <= i < |m| ensures lo <= m[i] <= hi {
      assert m[i] == f(ys[i]) && ys[i] in ys;
    }
  }

  lemma {:induction false} SumNonNegative(xs: seq<real>)
    requires forall i :: 0 <= i < |xs| ==> xs[i] >= 0.0
    ensures Sum(xs) >= 0.0
  {
    if xs != [] {
      SumNonNegative(xs[..|xs| - 1]);
    }
  }

  /** A population variance is never negative. */
  lemma VarianceNonNegative(xs: seq<real>)
    requires |xs| > 0
    ensures Variance(xs) >= 0.0
  {
    var m := Mean(xs);
    var sq := Deviations(xs, m);
    forall i | 0 <= i < |sq| ensures sq[i] >= 0.0 {
      SquareNonNegative(xs[i] - m);
    }
    SumNonNegative(sq);
  }

  /** A constant list has mean equal to its value and variance 0. */
  lemma VarianceOfConstant(xs: seq<real>)
    requires |xs| > 0 && forall i :: 0 <= i < |xs| ==> xs[i] == xs[0]
    ensures Mean(xs) == xs[0]
    ensures Variance(xs) == 0.0
  {
    var c := xs[0];
    assert AllIn(xs, c, c);
    MeanBounds(xs, c, c);
    var d := Deviations(xs, c);
    assert AllIn(d, 0.0, 0.0);
    MeanBounds(d, 0.0, 0.0);
  }

  lemma SquareNonNegative(d: real)
    ensures d * d >= 0.0
  {
    if d < 0.0 {
      assert (-d) * (-d) == d * d;
    }
  }

  /** Two disjoint tests never count more than the whole list together. */
  lemma {:induction false} CountDisjoint<T>(xs: seq<T>, p: T -> bool, q: T -> bool)
    requires forall x :: x in xs ==> !(p(x) && q(x))
    ensures Count(xs, p) + Count(xs, q) <= |xs|
  {
    if xs != [] {
      CountDisjoint(xs[..|xs| - 1], p, q);
    }
  }

  lemma {:induction false} CountAppend<T>(xs: seq<T>, ys: seq<T>, p: T -> bool)
    ensures Count(xs + ys, p) == Count(xs, p) + Count(ys, p)
  {
    if ys == [] {
      assert xs + ys == xs;
    } else {
      var zs := xs + ys;
      assert zs[..|zs| - 1] == xs + ys[..|ys| - 1];
      assert zs[|zs| - 1] == ys[|ys| - 1];
      CountAppend(xs, ys[..|ys| - 1], p);
    }
  }

  lemma {:induction false} CountMono<T>(xs: seq<T>, p: T -> bool, q: T -> bool)
    requires forall x :: x in xs && p(x) ==> q(x)
    ensures Count(xs, p) <= Count(xs, q)
  {
    if xs != [] {
      CountMono(xs[..|xs| - 1], p, q);
    }
  }

  lemma {:induction false} CountNone<T>(xs: seq<T>, p: T -> bool)
    requires forall x :: x in xs ==> !p(x)
    ensures Count(xs, p) == 0
  {
    if xs != [] {
      CountNone(xs[..|xs| - 1], p);
    }
  }

  lemma {:induction false} CountAll<T>(xs: seq<T>, p: T -> bool)
    requires forall x :: x in xs ==> p(x)
    ensures Count(xs, p) == |xs|
  {
    if xs != [] {
      CountAll(xs[..|xs| - 1], p);
    }
  }

  /** `sum(m.values())` over a numeric mapping; the order of the keys does not matter. */
  ghost function SumValues(m: map<string, real>): real
    decreases |m.Keys|
  {
    if m == map[] then 0.0
    else
      var k :| k in m.Keys;
      assert |(m - {k}).Keys| < |m.Keys| by { assert (m - {k}).Keys == m.Keys - {k}; }
      m[k] + SumValues(m - {k})
  }

  /** Any key may be taken out first: `sum` does not depend on the iteration order. */
  lemma {:induction false} SumValuesRemove(m: map<string, real>, a: string)
    requires a in m
    ensures SumValues(m) == m[a] + SumValues(m - {a})
    decreases |m.Keys|
  {
    var k :| k in m.Keys && SumValues(m) == m[k] + SumValues(m - {k});
    if k != a {
      assert (m - {k}).Keys == m.Keys - {k};
      assert (m - {a}).Keys == m.Keys - {a};
      SumValuesRemove(m - {k}, a);
      SumValuesRemove(m - {a}, k);
      assert (m - {k}) - {a} == (m - {a}) - {k};
    }
  }

  // ---------------------------------------------------------------------------
  // Python string operations

  /** Characters `str.strip()` removes (the ASCII whitespace set). */
  predicate IsSpace(c: char) {
    c == ' ' || c == '\t' || c == '\n' || c == '\r' || c == '\U{000B}' || c == '\U{000C}'
  }

  function StripLeft(s: string): (r: string)
    ensures |r| <= |s| && r == s[|s| - |r|..]
    ensures r != [] ==> !IsSpace(r[0])
  {
    if s != [] && IsSpace(s[0]) then StripLeft(s[1..]) else s
  }

  function StripRight(s: string): (r: string)
    ensures |r| <= |s| && r == s[..|r|]
    ensures r != [] ==> !IsSpace(r[|r| - 1])
  {
    if s != [] && IsSpace(s[|s| - 1]) then StripRight(s[..|s| - 1]) else s
  }

  /** `s.strip()` */
  function Strip(s: string): (r: string)
    ensures |r| <= |s|
    ensures r != [] ==> !IsSpace(r[0]) && !IsSpace(r[|r| - 1])
  {
    StripRight(StripLeft(s))
  }

  predicate OccursAt(s: string, pat: string, i: nat) {
    i + |pat| <= |s| && s[i..i + |pat|] == pat
  }

  /** `s.find(pat, start)`: the first index at or after `start` where `pat` occurs. */
  function Find(s: string, pat: string, start: nat): (r: Option<nat>)
    decreases |s| - start
    ensures r.Some? ==> start <= r.value && OccursAt(s, pat, r.value)
    ensures r.Some? ==> forall j :: start <= j < r.value ==> !OccursAt(s, pat, j)
    ensures r.None? ==> forall j :: start <= j ==> !OccursAt(s, pat, j)
  {
    if start + |pat| > |s| then None
    else if s[start..start + |pat|] == pat then Some(start)
    else Find(s, pat, start + 1)
  }

  /** `s.rfind(c)` for a single character. */
  function RFind(s: string, c: char): (r: Option<nat>)
    ensures r.Some? ==> r.value < |s| && s[r.value] == c
    ensures r.Some? ==> forall j :: r.value < j < |s| ==> s[j] != c
    ensures r.None? ==> c !in s
  {
    if s == [] then None
    else if s[|s| - 1] == c then Some(|s| - 1)
    else RFind(s[..|s| - 1], c)
  }

  /** Python slicing `s[a:b]` with non-negative bounds: out-of-range bounds are clipped. */
  function Slice(s: string, a: nat, b: nat): (r: string)
    ensures a <= b <= |s| ==> r == s[a..b]
    ensures b <= a ==> r == []
  {
    var hi := if b <= |s| then b else |s|;
    if a < hi then s[a..hi] else []
  }

  /** `s.split('_')[0]`: everything before the first underscore. */
  function PrefixBefore(s: string, sep: char): (r: string)
    ensures r <= s
    ensures sep !in r
    ensures sep !in s ==> r == s
  {
    if s == [] then []
    else if s[0] == sep then []
    else [s[0]] + PrefixBefore(s[1..], sep)
  }

  /** `s.replace(c, '')` for a single character. */
  function RemoveChar(s: string, c: char): (r: string)
    ensures c !in r
    ensures c !in s ==> r == s
    ensures |r| <= |s|
  {
    if s == [] then []
    else (if s[0] == c then [] else [s[0]]) + RemoveChar(s[1..], c)
  }

  predicate NoDuplicates<T(==)>(xs: seq<T>) {
    forall i, j :: 0 <= i < j < |xs| ==> xs[i] != xs[j]
  }
}
