/**
 * The histogram kept for objects outside the top: nearest-rank quantiles, and the
 * percentile read back from them. Values are exact rationals.
 */
module HotHistogram {
  import Sorting
  import opened RealArithmetic

  datatype Histogram = Histogram(deciles: seq<real>, upper: seq<real>, count: nat, sum: int, max: int)

  const DECILE_PROBS: seq<real> := [0.1, 0.2, 0.3, 0.4, 0.5, 0.6, 0.7, 0.8, 0.9]
  const UPPER_PROBS: seq<real> := [0.95, 0.99]

  /** The slack that keeps an exact rank from being rounded up. */
  const NUDGE := 0.000000001

  function Le(a: real, b: real): bool { a <= b }

  function Ceil(x: real): int { -((-x).Floor) }

  /** Nearest rank, 1-based. */
  function Rank(p: real, n: nat): (r: int)
    ensures n > 0 ==> 1 <= r <= n
  {
    var idx := Ceil(p * n as real - NUDGE);
    var idx := if idx < 1 then 1 else idx;
    if idx > n then n else idx
  }

  function Quantile(vals: seq<real>, p: real): real
    requires vals != []
  {
    Sorting.SortKeeps(vals, Le);
    var rank := Rank(p, |vals|);
    Sorting.Sort(vals, Le)[rank - 1]
  }

  function Quantiles(vals: seq<real>, probs: seq<real>): (r: seq<real>)
    ensures |r| == if vals == [] then 0 else |probs|
    ensures vals != [] ==> forall i :: 0 <= i < |probs| ==> r[i] == Quantile(vals, probs[i])
  {
    if vals == [] then [] else seq(|probs|, i requires 0 <= i < |probs| => Quantile(vals, probs[i]))
  }

  function Sum(keys: seq<int>): int {
    if keys == [] then 0 else Sum(keys[..|keys| - 1]) + keys[|keys| - 1]
  }

  /** The largest key, 0 for none. */
  function Max(keys: seq<int>): int {
    if keys == [] then 0
    else
      var m := Max(keys[..|keys| - 1]);
      if keys[|keys| - 1] > m then keys[|keys| - 1] else m
  }

  lemma {:induction false} MaxIsLargest(keys: seq<int>)
    requires forall i :: 0 <= i < |keys| ==> keys[i] >= 0
    ensures forall i :: 0 <= i < |keys| ==> keys[i] <= Max(keys)
    ensures keys != [] ==> Max(keys) in keys
  {
    if keys != [] {
      var front := keys[..|keys| - 1];
      MaxIsLargest(front);
      assert forall x :: x in front ==> x in keys;
      assert forall i :: 0 <= i < |keys| - 1 ==> keys[i] == front[i];
    }
  }

  function Reals(keys: seq<int>): (r: seq<real>)
    ensures |r| == |keys| && forall i :: 0 <= i < |keys| ==> r[i] == keys[i] as real
  {
    seq(|keys|, i requires 0 <= i < |keys| => keys[i] as real)
  }

  /** The histogram of a tail. */
  function Of(keys: seq<int>): Histogram {
    Histogram(Quantiles(Reals(keys), DECILE_PROBS), Quantiles(Reals(keys), UPPER_PROBS), |keys|, Sum(keys), Max(keys))
  }

  // ----- the ladder and its inverse

  /** Probabilities and values, origin first; the maximum tops it when it is above the rest. */
  function Ladder(h: Histogram): (l: (seq<real>, seq<real>))
    requires |h.deciles| == |DECILE_PROBS|
    ensures |l.0| == |l.1| >= 10 && l.0[0] == l.1[0] == 0.0
  {
    var probs, vals := [0.0] + DECILE_PROBS, [0.0] + h.deciles;
    var probs, vals := if |h.upper| == |UPPER_PROBS| then probs + UPPER_PROBS else probs,
                       if |h.upper| == |UPPER_PROBS| then vals + h.upper else vals;
    if h.max as real > vals[|vals| - 1] then (probs + [1.0], vals + [h.max as real]) else (probs, vals)
  }

  /** The first step from i on that v stays below, |vals| when there is none. */
  function Segment(vals: seq<real>, v: real, i: nat): (k: nat)
    requires 0 < i <= |vals| && v >= vals[i - 1]
    ensures i <= k <= |vals| && v >= vals[k - 1] && (k < |vals| ==> v < vals[k])
    decreases |vals| - i
  {
    if i < |vals| && v >= vals[i] then Segment(vals, v, i + 1) else i
  }

  function Interpolate(p: real, q: real, lo: real, hi: real, v: real): real
    requires lo <= v < hi
  {
    p + (q - p) * ((v - lo) / (hi - lo))
  }

  /** The probability at v: interpolated inside segment k, the top of the ladder above it. */
  function InSegment(probs: seq<real>, vals: seq<real>, v: real, k: nat): real
    requires |probs| == |vals| && 0 < k <= |vals| && v >= vals[k - 1] && (k < |vals| ==> v < vals[k])
  {
    if k == |vals| then probs[k - 1] else Interpolate(probs[k - 1], probs[k], vals[k - 1], vals[k], v)
  }

  function Percentile(h: Histogram, v: real): real {
    if |h.deciles| != |DECILE_PROBS| || v <= 0.0 then 0.0
    else var (probs, vals) := Ladder(h); InSegment(probs, vals, v, Segment(vals, v, 1))
  }

  // ----- what a quantile says about the sample

  function CountLe(vals: seq<real>, v: real): (n: nat)
    ensures n <= |vals|
  {
    if vals == [] then 0 else (if vals[0] <= v then 1 else 0) + CountLe(vals[1..], v)
  }

  lemma {:induction false} CountInsert(x: real, s: seq<real>, v: real)
    ensures CountLe(Sorting.Insert(x, s, Le), v) == (if x <= v then 1 else 0) + CountLe(s, v)
  {
    if s != [] && !Le(x, s[0]) {
      CountInsert(x, s[1..], v);
    }
  }

  lemma {:induction false} CountSorted(s: seq<real>, v: real)
    ensures CountLe(Sorting.Sort(s, Le), v) == CountLe(s, v)
  {
    if s != [] {
      CountSorted(s[1..], v);
      CountInsert(s[0], Sorting.Sort(s[1..], Le), v);
    }
  }

  lemma {:induction false} CountByRank(s: seq<real>, v: real, rank: nat)
    requires Sorting.Sorted(s, Le) && 1 <= rank <= |s|
    ensures v >= s[rank - 1] ==> CountLe(s, v) >= rank
    ensures v < s[rank - 1] ==> CountLe(s, v) < rank
  {
    if rank > 1 {
      CountByRank(s[1..], v, rank - 1);
    } else if v < s[0] {
      NoneLe(s, v);
    }
  }

  lemma {:induction false} NoneLe(s: seq<real>, v: real)
    requires forall i :: 0 <= i < |s| ==> v < s[i]
    ensures CountLe(s, v) == 0
  {
    if s != [] {
      NoneLe(s[1..], v);
    }
  }

  /** The nudge changes no rank: the smallest integer not below p * n, for a percentage p. */
  lemma RankExact(p: real, percent: nat, n: nat)
    requires p == percent as real / 100.0 && 1 <= percent <= 100 && n >= 1
    ensures 1 <= Rank(p, n) <= n
    ensures (Rank(p, n) - 1) as real < p * n as real <= Rank(p, n) as real
  {
    var a := percent * n;
    var q, r := a / 100, a % 100;
    assert a == 100 * q + r;
    assert 100 * q <= a <= 100 * n by {
      assert percent * n <= 100 * n;
    }
    assert p * n as real == a as real / 100.0 == q as real + r as real / 100.0;
    assert Ceil(p * n as real - NUDGE) == if r == 0 then q else q + 1;
    assert a >= 1;
  }

  // ----- monotone, and accurate to one step of the ladder

  /** A part of a segment lies inside it. */
  lemma Interpolates(p: real, q: real, lo: real, hi: real, v: real)
    requires p < q && lo <= v < hi
    ensures p <= Interpolate(p, q, lo, hi, v) < q
  {
    var t := (v - lo) / (hi - lo);
    QuotientCompare(v - lo, hi - lo, 0.0);
    QuotientBelow(v - lo, hi - lo, 1.0);
    ProductMonotone(0.0, t, q - p);
    ProductStrict(t, 1.0, q - p);
    assert 1.0 * (q - p) == q - p;
    assert t * (q - p) < q - p;
    assert Interpolate(p, q, lo, hi, v) == p + t * (q - p);
  }

  lemma InterpolatesMore(p: real, q: real, lo: real, hi: real, v: real, w: real)
    requires p < q && lo <= v <= w < hi
    ensures Interpolate(p, q, lo, hi, v) <= Interpolate(p, q, lo, hi, w)
  {
    var t, u := (v - lo) / (hi - lo), (w - lo) / (hi - lo);
    QuotientMonotone(v - lo, w - lo, hi - lo);
    ProductMonotone(t, u, q - p);
    assert Interpolate(p, q, lo, hi, v) == p + t * (q - p) && Interpolate(p, q, lo, hi, w) == p + u * (q - p);
  }

  predicate StrictlyRising(s: seq<real>) {
    forall i, j :: 0 <= i < j < |s| ==> s[i] < s[j]
  }

  /** The probability at v lies in its segment. */
  lemma SegmentBounds(probs: seq<real>, vals: seq<real>, v: real, k: nat)
    requires |probs| == |vals| && 0 < k <= |vals| && v >= vals[k - 1] && (k < |vals| ==> v < vals[k])
    requires StrictlyRising(probs)
    ensures probs[k - 1] <= InSegment(probs, vals, v, k)
    ensures k < |vals| ==> InSegment(probs, vals, v, k) < probs[k]
    ensures k == |vals| ==> InSegment(probs, vals, v, k) == probs[k - 1]
  {
    if k < |vals| {
      Interpolates(probs[k - 1], probs[k], vals[k - 1], vals[k], v);
    }
  }

  lemma {:induction false} SegmentMonotone(vals: seq<real>, v: real, w: real, i: nat)
    requires 0 < i <= |vals| && w >= v >= vals[i - 1]
    ensures Segment(vals, v, i) <= Segment(vals, w, i)
    decreases |vals| - i
  {
    if i < |vals| && v >= vals[i] {
      SegmentMonotone(vals, v, w, i + 1);
    }
  }

  lemma LadderProbs(h: Histogram)
    requires |h.deciles| == |DECILE_PROBS|
    ensures StrictlyRising(Ladder(h).0) && Ladder(h).0[|Ladder(h).0| - 1] <= 1.0
    ensures Ladder(h).0[0] == 0.0 && (forall i :: 0 <= i < |Ladder(h).0| ==> Ladder(h).0[i] >= 0.0)
    ensures |Ladder(h).0| <= 13 && forall i :: 0 <= i < |Ladder(h).0| ==> Ladder(h).0[i] <= 1.0
  {
  }

  /** The percentile of v > 0 lies in v's segment of the ladder. */
  lemma PercentileSegment(h: Histogram, v: real) returns (k: nat)
    requires |h.deciles| == |DECILE_PROBS| && v > 0.0
    ensures var (probs, vals) := Ladder(h);
      1 <= k <= |vals| && k == Segment(vals, v, 1) && v >= vals[k - 1] && (k < |vals| ==> v < vals[k])
      && Percentile(h, v) == InSegment(probs, vals, v, k) && StrictlyRising(probs)
      && probs[k - 1] <= Percentile(h, v) <= 1.0 && (k < |vals| ==> Percentile(h, v) < probs[k])
      && (k == |vals| ==> Percentile(h, v) == probs[k - 1])
  {
    var (probs, vals) := Ladder(h);
    k := Segment(vals, v, 1);
    LadderProbs(h);
    SegmentBounds(probs, vals, v, k);
  }

  /** Any stored histogram: a larger value never has a smaller percentile, and percentiles are fractions. */
  lemma PercentileMonotone(h: Histogram, v: real, w: real)
    requires v <= w
    ensures 0.0 <= Percentile(h, v) <= Percentile(h, w) <= 1.0
  {
    if |h.deciles| == |DECILE_PROBS| && w > 0.0 {
      LadderProbs(h);
      var l := PercentileSegment(h, w);
      if v > 0.0 {
        var k := PercentileSegment(h, v);
        SegmentMonotone(Ladder(h).1, v, w, 1);
        InSegmentMonotone(Ladder(h).0, Ladder(h).1, v, w, k, l);
      }
    }
  }

  lemma InSegmentMonotone(probs: seq<real>, vals: seq<real>, v: real, w: real, k: nat, l: nat)
    requires |probs| == |vals| && 0 < k <= l <= |vals| && v <= w && StrictlyRising(probs)
    requires v >= vals[k - 1] && (k < |vals| ==> v < vals[k])
    requires w >= vals[l - 1] && (l < |vals| ==> w < vals[l])
    ensures InSegment(probs, vals, v, k) <= InSegment(probs, vals, w, l)
  {
    SegmentBounds(probs, vals, v, k);
    SegmentBounds(probs, vals, w, l);
    if k == l < |vals| {
      InterpolatesMore(probs[k - 1], probs[k], vals[k - 1], vals[k], v, w);
    } else if k < l {
      assert probs[k] <= probs[l - 1];
    }
  }

  /** The ladder step a fraction belongs to. */
  function Step(x: real): nat {
    if x < 0.1 then 0 else if x < 0.2 then 1 else if x < 0.3 then 2 else if x < 0.4 then 3
    else if x < 0.5 then 4 else if x < 0.6 then 5 else if x < 0.7 then 6 else if x < 0.8 then 7
    else if x < 0.9 then 8 else if x < 0.95 then 9 else if x < 0.99 then 10 else 11
  }

  function Width(step: nat): real {
    if step < 9 then 0.1 else if step == 9 then 0.05 else if step == 10 then 0.04 else 0.01
  }

  /** The value at step i separates the samples as probability probs[i] says. */
  predicate Separates(n: nat, count: nat, prob: real, val: real, v: real) {
    (v >= val ==> count as real >= prob * n as real) && (v < val ==> (count as real) < prob * n as real)
  }

  lemma SortedSeparates(sorted: seq<real>, rank: int, x: real, v: real)
    requires Sorting.Sorted(sorted, Le) && 1 <= rank <= |sorted| && (rank - 1) as real < x <= rank as real
    ensures v >= sorted[rank - 1] ==> CountLe(sorted, v) as real >= x
    ensures v < sorted[rank - 1] ==> (CountLe(sorted, v) as real) < x
  {
    CountByRank(sorted, v, rank);
  }

  lemma SortedSample(vals: seq<real>, v: real)
    ensures var sorted := Sorting.Sort(vals, Le);
      Sorting.Sorted(sorted, Le) && |sorted| == |vals| && CountLe(sorted, v) == CountLe(vals, v)
  {
    Sorting.SortKeeps(vals, Le);
    LeOrder();
    Sorting.SortSorted(vals, Le);
    CountSorted(vals, v);
  }

  lemma RankSeparates(vals: seq<real>, p: real, rank: int, v: real)
    requires 1 <= rank <= |vals| && (rank - 1) as real < p * |vals| as real <= rank as real
    ensures |Sorting.Sort(vals, Le)| == |vals|
    ensures Separates(|vals|, CountLe(vals, v), p, Sorting.Sort(vals, Le)[rank - 1], v)
  {
    SortedSample(vals, v);
    SortedSeparates(Sorting.Sort(vals, Le), rank, p * |vals| as real, v);
  }

  /** A quantile separates the sample at its probability. */
  lemma QuantileSeparates(vals: seq<real>, percent: nat, p: real, v: real)
    requires vals != [] && 1 <= percent <= 100 && p == percent as real / 100.0
    ensures Separates(|vals|, CountLe(vals, v), p, Quantile(vals, p), v)
  {
    RankExact(p, percent, |vals|);
    RankSeparates(vals, p, Rank(p, |vals|), v);
  }

  lemma LeOrder()
    ensures Sorting.TotalPreorder(Le)
  {
  }

  lemma {:induction false} CountConcat(a: seq<real>, b: seq<real>, v: real)
    ensures CountLe(a + b, v) == CountLe(a, v) + CountLe(b, v)
  {
    if a == [] {
      assert a + b == b;
    } else {
      assert (a + b)[0] == a[0] && (a + b)[1..] == a[1..] + b;
      CountConcat(a[1..], b, v);
    }
  }

  lemma {:induction false} MaxCounts(keys: seq<int>, v: real)
    requires v > 0.0
    ensures v >= Max(keys) as real ==> CountLe(Reals(keys), v) == |keys|
    ensures v < Max(keys) as real ==> CountLe(Reals(keys), v) < |keys|
  {
    if keys != [] {
      var front, last := keys[..|keys| - 1], keys[|keys| - 1];
      MaxCounts(front, v);
      assert Reals(keys) == Reals(front) + [last as real];
      CountConcat(Reals(front), [last as real], v);
    }
  }

  lemma LadderSeparates(keys: seq<int>, v: real, j: nat)
    requires keys != [] && v > 0.0 && 1 <= j < |Ladder(Of(keys)).0|
    ensures var (probs, vals) := Ladder(Of(keys));
      Separates(|keys|, CountLe(Reals(keys), v), probs[j], vals[j], v)
  {
    var r, percent := Reals(keys), PercentAt(j);
    LadderAt(keys, j);
    if j <= 11 {
      QuantileSeparates(r, percent, percent as real / 100.0, v);
    } else {
      MaxCounts(keys, v);
    }
  }

  function PercentAt(j: nat): nat {
    if j <= 9 then 10 * j else if j == 10 then 95 else if j == 11 then 99 else 100
  }

  lemma LadderAt(keys: seq<int>, j: nat)
    requires keys != [] && 1 <= j < |Ladder(Of(keys)).0|
    ensures var (probs, vals) := Ladder(Of(keys));
      probs[j] == PercentAt(j) as real / 100.0 && j <= 12
      && (j <= 11 ==> vals[j] == Quantile(Reals(keys), PercentAt(j) as real / 100.0))
      && (j == 12 ==> vals[j] == Max(keys) as real)
  {
    var (probs, vals) := Ladder(Of(keys));
    var r := Reals(keys);
    if j <= 9 {
      assert probs[j] == DECILE_PROBS[j - 1] && vals[j] == Quantiles(r, DECILE_PROBS)[j - 1];
      assert DECILE_PROBS[j - 1] == (10 * j) as real / 100.0;
    } else if j <= 11 {
      assert probs[j] == UPPER_PROBS[j - 10] && vals[j] == Quantiles(r, UPPER_PROBS)[j - 10];
      assert UPPER_PROBS[j - 10] == PercentAt(j) as real / 100.0;
    }
  }

  /**
   * For the histogram of any tail, the percentile of v and the true fraction of keys
   * up to v lie in the same step of the ladder.
   */
  lemma PercentileAccurate(keys: seq<int>, v: real)
    requires keys != [] && v > 0.0
    ensures var r, f := Percentile(Of(keys), v), CountLe(Reals(keys), v) as real / |keys| as real;
      Step(r) == Step(f) && -Width(Step(f)) <= r - f <= Width(Step(f))
  {
    forall j | 1 <= j < |Ladder(Of(keys)).0|
      ensures SeparatesAt(Of(keys), j, |keys|, CountLe(Reals(keys), v), v)
    {
      LadderSeparates(keys, v, j);
    }
    SameStepIfSeparating(Of(keys), v, |keys|, CountLe(Reals(keys), v));
  }

  predicate SeparatesAt(h: Histogram, j: nat, n: nat, count: nat, v: real)
    requires |h.deciles| == |DECILE_PROBS| && j < |Ladder(h).0|
  {
    Separates(n, count, Ladder(h).0[j], Ladder(h).1[j], v)
  }

  lemma SameStepIfSeparating(h: Histogram, v: real, n: nat, count: nat)
    requires |h.deciles| == |DECILE_PROBS| && |h.upper| == |UPPER_PROBS| && v > 0.0 && 0 < n && count <= n
    requires forall j :: 1 <= j < |Ladder(h).0| ==> SeparatesAt(h, j, n, count, v)
    ensures var r, f := Percentile(h, v), count as real / n as real;
      Step(r) == Step(f) && -Width(Step(f)) <= r - f <= Width(Step(f))
  {
    var k := PercentileSegment(h, v);
    assert k > 1 ==> SeparatesAt(h, k - 1, n, count, v);
    assert k < |Ladder(h).0| ==> SeparatesAt(h, k, n, count, v);
    SameStepAsFraction(k, Percentile(h, v), count, n, h);
  }

  lemma SameStepAsFraction(k: nat, r: real, count: nat, n: nat, h: Histogram)
    requires |h.deciles| == |DECILE_PROBS| && |h.upper| == |UPPER_PROBS| && 0 < n && count <= n
    requires 1 <= k <= |Ladder(h).0| && Ladder(h).0[k - 1] <= r
    requires k > 1 ==> count as real >= Ladder(h).0[k - 1] * n as real
    requires k < |Ladder(h).0| ==> r < Ladder(h).0[k] && (count as real) < Ladder(h).0[k] * n as real
    requires k == |Ladder(h).0| ==> r == Ladder(h).0[k - 1]
    ensures var f := count as real / n as real;
      Step(r) == Step(f) && -Width(Step(f)) <= r - f <= Width(Step(f))
  {
    var probs := Ladder(h).0;
    FractionBounds(count, n, probs[k - 1], if k < |probs| then probs[k] else 2.0);
    SameStep(k, r, count as real / n as real, h);
  }

  lemma FractionBounds(count: nat, n: nat, lo: real, hi: real)
    requires n > 0 && count <= n && lo * n as real <= count as real && (count as real < hi * n as real || hi == 2.0)
    ensures lo <= count as real / n as real <= 1.0
    ensures count as real / n as real < hi
  {
    var x, d := count as real, n as real;
    QuotientCompare(x, d, lo);
    QuotientCompare(x, d, 1.0);
    if count as real < hi * n as real {
      QuotientBelow(x, d, hi);
    }
  }

  lemma SameStep(k: nat, r: real, f: real, h: Histogram)
    requires |h.deciles| == |DECILE_PROBS| && |h.upper| == |UPPER_PROBS|
    requires 1 <= k <= |Ladder(h).0| && f <= 1.0
    requires Ladder(h).0[k - 1] <= r && Ladder(h).0[k - 1] <= f
    requires k < |Ladder(h).0| ==> r < Ladder(h).0[k] && f < Ladder(h).0[k]
    requires k == |Ladder(h).0| ==> r == Ladder(h).0[k - 1]
    ensures Step(r) == Step(f) && -Width(Step(f)) <= r - f <= Width(Step(f))
  {
    var probs := Ladder(h).0;
    assert probs[..12] == [0.0] + DECILE_PROBS + UPPER_PROBS;
    if k <= 9 {
      assert probs[k - 1] == (k - 1) as real / 10.0;
      assert k < 9 ==> probs[k] == k as real / 10.0;
    }
  }

  // ----- between two values of the ladder

  /** The value kept for PercentAt(j) of the tail: nothing, the quantiles, the largest key. */
  function Mark(h: Histogram, j: nat): real
    requires |h.deciles| == 9 && |h.upper| == 2
  {
    if j == 0 then 0.0 else if j <= 9 then h.deciles[j - 1] else if j <= 11 then h.upper[j - 10] else h.max as real
  }

  predicate MarksRise(h: Histogram) {
    |h.deciles| == 9 && |h.upper| == 2 && forall i, j :: 0 <= i <= j <= 12 ==> Mark(h, i) <= Mark(h, j)
  }

  predicate NeverFalls(s: seq<real>) {
    forall i, j :: 0 <= i <= j < |s| ==> s[i] <= s[j]
  }

  /** The ladder goes along the marks, without the last when that is no higher. */
  predicate Along(h: Histogram, probs: seq<real>, vals: seq<real>)
    requires |h.deciles| == 9 && |h.upper| == 2
  {
    && |probs| == |vals| == (if Mark(h, 12) > Mark(h, 11) then 13 else 12)
    && forall j :: 0 <= j < |vals| ==> vals[j] == Mark(h, j) && probs[j] == PercentAt(j) as real / 100.0
  }

  lemma LadderIsMarks(h: Histogram)
    requires MarksRise(h)
    ensures Along(h, Ladder(h).0, Ladder(h).1) && NeverFalls(Ladder(h).1)
  {
    var probs, vals := [0.0] + DECILE_PROBS + UPPER_PROBS, [0.0] + h.deciles + h.upper;
    assert |vals| == 12 && vals[11] == h.upper[1];
    assert probs == Ladder(h).0[..12] && vals == Ladder(h).1[..12];
    forall j | 0 <= j < |Ladder(h).1|
      ensures Ladder(h).1[j] == Mark(h, j) && Ladder(h).0[j] == PercentAt(j) as real / 100.0
    {
      if 1 <= j <= 9 {
        assert probs[j] == DECILE_PROBS[j - 1] == (10 * j) as real / 100.0;
      } else if 10 <= j <= 11 {
        assert probs[j] == UPPER_PROBS[j - 10] && vals[j] == h.upper[j - 10];
      }
    }
  }

  lemma {:induction false} SegmentIs(vals: seq<real>, v: real, i: nat, k: nat)
    requires 0 < i <= k <= |vals| && v >= vals[i - 1] && (k < |vals| ==> v < vals[k])
    requires forall j :: i <= j < k ==> vals[j] <= v
    ensures Segment(vals, v, i) == k
    decreases k - i
  {
    if i < k {
      SegmentIs(vals, v, i + 1, k);
    }
  }

  lemma PartOf(lo: real, d: real, x: real, y: real, v: real)
    requires d > 0.0 && 0.0 <= x < 1.0 && y == x * d && v == lo + y
    ensures lo <= v < lo + d && (v - lo) / d == x
  {
    ProductMonotone(0.0, x, d);
    ProductStrict(x, 1.0, d);
    SameQuotient(x, d, v - lo);
  }

  lemma SameQuotient(x: real, d: real, y: real)
    requires d > 0.0 && y == x * d
    ensures y / d == x
  {
  }

  lemma BetweenValues(probs: seq<real>, vals: seq<real>, j: nat, p: real, q: real, x: real, d: real, v: real)
    requires |probs| == |vals| && j + 1 < |vals| && NeverFalls(vals) && d == vals[j + 1] - vals[j] > 0.0
    requires p == probs[j] && q == probs[j + 1] && vals[j] <= v < vals[j + 1] && (v - vals[j]) / d == x
    ensures v >= vals[0] && InSegment(probs, vals, v, Segment(vals, v, 1)) == p + (q - p) * x
  {
    SegmentIs(vals, v, 1, j + 1);
  }

  /** Above nothing, between the marks for p and q, the percentile grows in proportion. */
  lemma PercentileBetweenMarks(h: Histogram, j: nat, p: real, q: real, x: real, d: real, v: real)
    requires MarksRise(h) && j < 12 && p == PercentAt(j) as real / 100.0 && q == PercentAt(j + 1) as real / 100.0
    requires d == Mark(h, j + 1) - Mark(h, j) > 0.0 && 0.0 <= x < 1.0 && v == Mark(h, j) + x * d && v > 0.0
    ensures Percentile(h, v) == p + (q - p) * x
  {
    var probs, vals := LadderBetween(h, j, p, q, v);
    PartOf(vals[j], d, x, x * d, v);
    BetweenValues(probs, vals, j, p, q, x, d, v);
  }

  lemma LadderBetween(h: Histogram, j: nat, p: real, q: real, v: real) returns (probs: seq<real>, vals: seq<real>)
    requires MarksRise(h) && j < 12 && Mark(h, j) < Mark(h, j + 1) && v > 0.0
    requires p == PercentAt(j) as real / 100.0 && q == PercentAt(j + 1) as real / 100.0
    ensures |probs| == |vals| > j + 1 && vals[j] == Mark(h, j) && vals[j + 1] == Mark(h, j + 1) && NeverFalls(vals)
    ensures probs[j] == p && probs[j + 1] == q && v >= vals[0]
    ensures Percentile(h, v) == InSegment(probs, vals, v, Segment(vals, v, 1))
  {
    LadderIsMarks(h);
    probs, vals := Ladder(h).0, Ladder(h).1;
    AlongAt(h, probs, vals, j);
    AlongAt(h, probs, vals, j + 1);
    PercentileOnLadder(h, probs, vals, v);
  }

  lemma AlongAt(h: Histogram, probs: seq<real>, vals: seq<real>, j: nat)
    requires |h.deciles| == 9 && |h.upper| == 2 && Along(h, probs, vals)
    requires j <= 12 && (j == 12 ==> Mark(h, 11) < Mark(h, 12))
    ensures j < |vals| == |probs| && vals[j] == Mark(h, j) && probs[j] == PercentAt(j) as real / 100.0
  {
  }

  lemma PercentileOnLadder(h: Histogram, probs: seq<real>, vals: seq<real>, v: real)
    requires |h.deciles| == 9 && (probs, vals) == Ladder(h) && v > 0.0
    ensures Percentile(h, v) == InSegment(probs, vals, v, Segment(vals, v, 1))
  {
  }

  /** From the largest key on it is 100, or 99 when the largest is not above the mark for 99. */
  lemma PercentileAtTheTop(h: Histogram, v: real)
    requires MarksRise(h) && v > 0.0 && v >= h.max as real
    ensures Percentile(h, v) == if h.max as real > h.upper[1] then 1.0 else 0.99
  {
    LadderIsMarks(h);
    assert Mark(h, 11) == h.upper[1] <= h.max as real;
    SegmentIs(Ladder(h).1, v, 1, |Ladder(h).1|);
  }

  lemma RankRises(p: real, q: real, n: nat)
    requires p <= q && n > 0
    ensures Rank(p, n) <= Rank(q, n)
  {
    ProductMonotone(p, q, n as real);
    CeilRises(p * n as real - NUDGE, q * n as real - NUDGE);
  }

  lemma CeilRises(x: real, y: real)
    requires x <= y
    ensures Ceil(x) <= Ceil(y)
  {
  }

  lemma QuantileRises(vals: seq<real>, p: real, q: real)
    requires vals != [] && p <= q
    ensures Quantile(vals, p) <= Quantile(vals, q) && Quantile(vals, q) in vals && Quantile(vals, p) in vals
  {
    SortedSample(vals, 0.0);
    Sorting.SortKeeps(vals, Le);
    RankRises(p, q, |vals|);
    var sorted := Sorting.Sort(vals, Le);
    assert Rank(p, |vals|) < Rank(q, |vals|) ==> Le(sorted[Rank(p, |vals|) - 1], sorted[Rank(q, |vals|) - 1]);
    assert Quantile(vals, q) in multiset(sorted) && Quantile(vals, p) in multiset(sorted);
  }

  lemma MarkAt(keys: seq<int>, j: nat, p: real)
    requires keys != [] && 1 <= j <= 11 && p == PercentAt(j) as real / 100.0
    ensures |Of(keys).deciles| == 9 && |Of(keys).upper| == 2 && Mark(Of(keys), j) == Quantile(Reals(keys), p)
  {
    if j <= 9 {
      assert DECILE_PROBS[j - 1] == p;
    } else {
      assert UPPER_PROBS[j - 10] == p;
    }
  }

  lemma MarksInside(keys: seq<int>, i: nat, j: nat, p: real, q: real)
    requires keys != [] && (forall k :: 0 <= k < |keys| ==> keys[k] >= 0) && 1 <= i <= j <= 11
    requires p == PercentAt(i) as real / 100.0 && q == PercentAt(j) as real / 100.0 && p <= q
    ensures |Of(keys).deciles| == 9 && |Of(keys).upper| == 2
    ensures 0.0 <= Mark(Of(keys), i) <= Mark(Of(keys), j) <= Max(keys) as real
  {
    MaxIsLargest(keys);
    MarkAt(keys, i, p);
    MarkAt(keys, j, q);
    QuantileRises(Reals(keys), p, q);
  }

  /** The marks of a tail never fall, so these readings are all there are. */
  lemma MarksOfTail(keys: seq<int>)
    requires keys != [] && forall i :: 0 <= i < |keys| ==> keys[i] >= 0
    ensures MarksRise(Of(keys))
  {
    MaxIsLargest(keys);
    MarkAt(keys, 1, 0.1);
    forall i, j | 0 <= i <= j <= 12
      ensures Mark(Of(keys), i) <= Mark(Of(keys), j)
    {
      if 1 <= i && j <= 11 {
        MarksInside(keys, i, j, PercentAt(i) as real / 100.0, PercentAt(j) as real / 100.0);
      } else if 1 <= i <= 11 {
        MarksInside(keys, i, i, PercentAt(i) as real / 100.0, PercentAt(i) as real / 100.0);
      } else if 1 <= j <= 11 {
        MarksInside(keys, j, j, PercentAt(j) as real / 100.0, PercentAt(j) as real / 100.0);
      }
    }
  }

  // ----- as it runs

  method ComputeQuantiles(vals: seq<real>, probs: seq<real>) returns (out: seq<real>)
    ensures out == Quantiles(vals, probs)
  {
    if |vals| == 0 {
      return [];
    }
    var sorted := Sorting.Sort(vals, Le);
    Sorting.SortKeeps(vals, Le);
    out := [];
    for i := 0 to |probs|
      invariant |out| == i && forall j :: 0 <= j < i ==> out[j] == Quantile(vals, probs[j])
    {
      QuantileIs(vals, probs[i]);
      out := out + [sorted[Rank(probs[i], |sorted|) - 1]];
    }
  }

  lemma QuantileIs(vals: seq<real>, p: real)
    requires vals != []
    ensures var sorted := Sorting.Sort(vals, Le);
      |sorted| == |vals| && Quantile(vals, p) == sorted[Rank(p, |sorted|) - 1]
  {
    Sorting.SortKeeps(vals, Le);
  }

  method ComputePercentile(h: Histogram, v: real) returns (r: real)
    ensures r == Percentile(h, v)
  {
    if |h.deciles| != |DECILE_PROBS| || v <= 0.0 {
      return 0.0;
    }
    var probs, vals := [0.0], [0.0];
    probs, vals := probs + DECILE_PROBS, vals + h.deciles;
    if |h.upper| == |UPPER_PROBS| {
      probs, vals := probs + UPPER_PROBS, vals + h.upper;
    }
    if h.max as real > vals[|vals| - 1] {
      probs, vals := probs + [1.0], vals + [h.max as real];
    }
    assert (probs, vals) == Ladder(h);
    r := Invert(probs, vals, v);
  }

  method Invert(probs: seq<real>, vals: seq<real>, v: real) returns (r: real)
    requires |probs| == |vals| > 0 && v >= vals[0]
    ensures r == InSegment(probs, vals, v, Segment(vals, v, 1))
  {
    var i := 1;
    while i < |vals|
      invariant 1 <= i <= |vals| && v >= vals[i - 1]
      invariant Segment(vals, v, i) == Segment(vals, v, 1)
    {
      if v < vals[i] {
        return Interpolate(probs[i - 1], probs[i], vals[i - 1], vals[i], v);
      }
      i := i + 1;
    }
    return probs[|probs| - 1];
  }
}
