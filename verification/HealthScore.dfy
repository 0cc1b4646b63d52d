/**
 * The health score of an instance: category penalties weighted, categories without a
 * signal dropped, a ceiling for catastrophic conditions. Values are exact reals.
 */
module HealthScore {
  import opened HealthMetrics
  import opened HealthPenalties
  import opened RealArithmetic

  datatype Weights = Weights(
    connections: real, performance: real, storage: real, replication: real,
    maintenance: real, horizon: real, walCheckpoint: real, locks: real)

  datatype CategoryResult = CategoryResult(name: Category, score: real, weight: real, penalty: real)

  datatype Result = Result(score: real, categories: seq<CategoryResult>, hasReplication: bool, inRecovery: bool)

  const CRITICAL_SCORE_CEILING := 30.0
  const WEIGHT_TOLERANCE := 0.000000001

  const DEFAULT_WEIGHTS := Weights(0.15, 0.15, 0.10, 0.15, 0.15, 0.10, 0.10, 0.10)

  const ORDER: seq<Category> :=
    [Connections, Performance, Storage, Replication, Maintenance, Horizon, WalCheckpoint, Locks]

  // ----- weights

  function SumOf(w: Weights): real {
    w.connections + w.performance + w.storage + w.replication + w.maintenance + w.horizon + w.walCheckpoint + w.locks
  }

  function WeightOf(w: Weights, c: Category): real {
    match c
    case Connections => w.connections
    case Performance => w.performance
    case Storage => w.storage
    case Replication => w.replication
    case Maintenance => w.maintenance
    case Horizon => w.horizon
    case WalCheckpoint => w.walCheckpoint
    case Locks => w.locks
  }

  predicate NonNegative(w: Weights) {
    && w.connections >= 0.0 && w.performance >= 0.0 && w.storage >= 0.0 && w.replication >= 0.0
    && w.maintenance >= 0.0 && w.horizon >= 0.0 && w.walCheckpoint >= 0.0 && w.locks >= 0.0
  }

  /** None negative and not all zero. */
  predicate Valid(w: Weights) {
    NonNegative(w) && SumOf(w) > 0.0
  }

  function Abs(x: real): real { if x >= 0.0 then x else -x }

  function Normalize(w: Weights): Weights {
    var sum := SumOf(w);
    if sum <= 0.0 || Abs(sum - 1.0) < WEIGHT_TOLERANCE then w
    else
      Weights(w.connections / sum, w.performance / sum, w.storage / sum, w.replication / sum,
              w.maintenance / sum, w.horizon / sum, w.walCheckpoint / sum, w.locks / sum)
  }

  function Effective(w: Weights): Weights {
    Normalize(if Valid(w) then w else DEFAULT_WEIGHTS)
  }

  lemma QuotientSum(w: Weights, sum: real)
    requires sum > 0.0 && sum == SumOf(w)
    ensures w.connections / sum + w.performance / sum + w.storage / sum + w.replication / sum
      + w.maintenance / sum + w.horizon / sum + w.walCheckpoint / sum + w.locks / sum == 1.0
  {
    var inv := 1.0 / sum;
    assert inv * sum == 1.0;
    QuotientIsProduct(w.connections, sum);
    QuotientIsProduct(w.performance, sum);
    QuotientIsProduct(w.storage, sum);
    QuotientIsProduct(w.replication, sum);
    QuotientIsProduct(w.maintenance, sum);
    QuotientIsProduct(w.horizon, sum);
    QuotientIsProduct(w.walCheckpoint, sum);
    QuotientIsProduct(w.locks, sum);
    assert (w.connections + w.performance + w.storage + w.replication
      + w.maintenance + w.horizon + w.walCheckpoint + w.locks) * inv == 1.0;
  }

  lemma QuotientIsProduct(x: real, d: real)
    requires d != 0.0
    ensures x / d == x * (1.0 / d)
  {
  }

  lemma QuotientSign(x: real, d: real)
    requires x >= 0.0 && d > 0.0
    ensures x / d >= 0.0
  {
    QuotientMonotone(0.0, x, d);
  }

  /** x / d keeps the ratio of x to y. */
  lemma QuotientRatio(x: real, y: real, d: real)
    requires d != 0.0
    ensures (x / d) * y == (y / d) * x
  {
    QuotientIsProduct(x, d);
    QuotientIsProduct(y, d);
  }

  /** Valid weights end up non-negative and sum to one, exactly unless they were within the tolerance of it. */
  lemma NormalizeSumsToOne(w: Weights)
    requires Valid(w)
    ensures NonNegative(Normalize(w)) && Abs(SumOf(Normalize(w)) - 1.0) < WEIGHT_TOLERANCE
    ensures Abs(SumOf(w) - 1.0) >= WEIGHT_TOLERANCE ==> SumOf(Normalize(w)) == 1.0
  {
    var sum := SumOf(w);
    if Abs(sum - 1.0) >= WEIGHT_TOLERANCE {
      QuotientSum(w, sum);
      forall c
        ensures WeightOf(Normalize(w), c) >= 0.0
      {
        QuotientSign(WeightOf(w, c), sum);
      }
      NonNegativeEach(Normalize(w));
    }
  }

  function Scale(w: Weights): real {
    if Abs(SumOf(w) - 1.0) < WEIGHT_TOLERANCE then 1.0 else SumOf(w)
  }

  /** Normalising divides every weight by the same positive number, so it keeps their ratios. */
  lemma NormalizeKeepsRatios(w: Weights)
    requires Valid(w)
    ensures Scale(w) > 0.0 && forall c :: WeightOf(Normalize(w), c) == WeightOf(w, c) / Scale(w)
  {
    forall c
      ensures WeightOf(Normalize(w), c) == WeightOf(w, c) / Scale(w)
    {
    }
  }

  lemma NonNegativeEach(w: Weights)
    requires forall c :: WeightOf(w, c) >= 0.0
    ensures NonNegative(w)
  {
    assert WeightOf(w, Connections) >= 0.0 && WeightOf(w, Performance) >= 0.0 && WeightOf(w, Storage) >= 0.0;
    assert WeightOf(w, Replication) >= 0.0 && WeightOf(w, Maintenance) >= 0.0 && WeightOf(w, Horizon) >= 0.0;
    assert WeightOf(w, WalCheckpoint) >= 0.0 && WeightOf(w, Locks) >= 0.0;
  }

  lemma EffectiveIsNormal(w: Weights)
    ensures NonNegative(Effective(w)) && Abs(SumOf(Effective(w)) - 1.0) < WEIGHT_TOLERANCE
  {
    NormalizeSumsToOne(if Valid(w) then w else DEFAULT_WEIGHTS);
  }

  // ----- dropping categories

  function WeightSum(s: seq<CategoryResult>): real {
    if s == [] then 0.0 else WeightSum(s[..|s| - 1]) + s[|s| - 1].weight
  }

  function DroppedSum(s: seq<CategoryResult>, drop: set<Category>): real {
    if s == [] then 0.0
    else DroppedSum(s[..|s| - 1], drop) + (if s[|s| - 1].name in drop then s[|s| - 1].weight else 0.0)
  }

  function OtherSum(s: seq<CategoryResult>, drop: set<Category>): real {
    if s == [] then 0.0
    else OtherSum(s[..|s| - 1], drop) + (if s[|s| - 1].name in drop then 0.0 else s[|s| - 1].weight)
  }

  /** What a category of weight w takes over from the dropped ones. */
  function ShareOf(w: real, dropped: real, other: real): real
    requires other != 0.0
  {
    dropped * (w / other)
  }

  function Reweighted(c: CategoryResult, drop: set<Category>, dropped: real, other: real): CategoryResult {
    if c.name in drop then c.(weight := 0.0, penalty := 0.0)
    else if other == 0.0 then c
    else c.(weight := c.weight + ShareOf(c.weight, dropped, other))
  }

  function Redistributed(s: seq<CategoryResult>, drop: set<Category>): (r: seq<CategoryResult>)
    ensures |r| == |s|
  {
    var dropped, other := DroppedSum(s, drop), OtherSum(s, drop);
    if dropped == 0.0 then s
    else seq(|s|, i requires 0 <= i < |s| => Reweighted(s[i], drop, dropped, other))
  }

  predicate WeightsNonNegative(s: seq<CategoryResult>) {
    forall i :: 0 <= i < |s| ==> s[i].weight >= 0.0
  }

  lemma {:induction false} SumsSplit(s: seq<CategoryResult>, drop: set<Category>)
    requires WeightsNonNegative(s)
    ensures WeightSum(s) == DroppedSum(s, drop) + OtherSum(s, drop)
    ensures DroppedSum(s, drop) >= 0.0 && OtherSum(s, drop) >= 0.0
    ensures forall i :: 0 <= i < |s| && s[i].name in drop ==> s[i].weight <= DroppedSum(s, drop)
    ensures forall i :: 0 <= i < |s| && s[i].name !in drop ==> s[i].weight <= OtherSum(s, drop)
  {
    if s != [] {
      SumsSplit(s[..|s| - 1], drop);
    }
  }

  function SumOfReals(xs: seq<real>): real {
    if xs == [] then 0.0 else SumOfReals(xs[..|xs| - 1]) + xs[|xs| - 1]
  }

  /** What each category keeps: its weight, nothing when it is dropped. */
  function Kept(s: seq<CategoryResult>, drop: set<Category>): (r: seq<real>)
    ensures |r| == |s|
  {
    seq(|s|, i requires 0 <= i < |s| => if s[i].name in drop then 0.0 else s[i].weight)
  }

  function Shares(xs: seq<real>, dropped: real, other: real): (r: seq<real>)
    requires other != 0.0
    ensures |r| == |xs|
  {
    seq(|xs|, i requires 0 <= i < |xs| => ShareOf(xs[i], dropped, other))
  }

  lemma {:induction false} KeptSum(s: seq<CategoryResult>, drop: set<Category>)
    ensures SumOfReals(Kept(s, drop)) == OtherSum(s, drop)
  {
    if s != [] {
      KeptSum(s[..|s| - 1], drop);
      assert Kept(s, drop)[..|s| - 1] == Kept(s[..|s| - 1], drop);
    }
  }

  lemma {:induction false} SharesSum(xs: seq<real>, dropped: real, other: real)
    requires other > 0.0
    ensures SumOfReals(Shares(xs, dropped, other)) == ShareOf(SumOfReals(xs), dropped, other)
  {
    if xs == [] {
      ShareOfNothing(dropped, other);
    } else {
      var front, last := xs[..|xs| - 1], xs[|xs| - 1];
      SharesSum(front, dropped, other);
      assert Shares(xs, dropped, other)[..|xs| - 1] == Shares(front, dropped, other);
      ShareStep(SumOfReals(front), last, dropped, other);
    }
  }

  lemma {:induction false} IncreasedSum(r: seq<CategoryResult>, kept: seq<real>, shares: seq<real>)
    requires |r| == |kept| == |shares| && forall i :: 0 <= i < |r| ==> r[i].weight == kept[i] + shares[i]
    ensures WeightSum(r) == SumOfReals(kept) + SumOfReals(shares)
  {
    if r != [] {
      var n := |r| - 1;
      IncreasedSum(r[..n], kept[..n], shares[..n]);
    }
  }

  lemma ReweightedIs(s: seq<CategoryResult>, r: seq<CategoryResult>, drop: set<Category>, dropped: real, other: real)
    requires other > 0.0 && |r| == |s| && forall i :: 0 <= i < |s| ==> r[i] == Reweighted(s[i], drop, dropped, other)
    ensures var kept := Kept(s, drop); forall i :: 0 <= i < |r| ==> r[i].weight == kept[i] + Shares(kept, dropped, other)[i]
  {
    ShareOfNothing(dropped, other);
  }

  lemma ReweightedSum(s: seq<CategoryResult>, r: seq<CategoryResult>, drop: set<Category>, dropped: real, other: real)
    requires other > 0.0 && |r| == |s| && forall i :: 0 <= i < |s| ==> r[i] == Reweighted(s[i], drop, dropped, other)
    ensures WeightSum(r) == OtherSum(s, drop) + ShareOf(OtherSum(s, drop), dropped, other)
  {
    ShareOfNothing(dropped, other);
    KeptSum(s, drop);
    ReweightedIs(s, r, drop, dropped, other);
    SharesSum(Kept(s, drop), dropped, other);
    IncreasedSum(r, Kept(s, drop), Shares(Kept(s, drop), dropped, other));
  }

  lemma ShareOfNothing(d: real, o: real)
    requires o > 0.0
    ensures ShareOf(0.0, d, o) == 0.0
  {
  }

  lemma ShareStep(x: real, y: real, d: real, o: real)
    requires o > 0.0
    ensures ShareOf(x, d, o) + ShareOf(y, d, o) == ShareOf(x + y, d, o)
  {
    assert (x + y) / o == x / o + y / o;
  }

  lemma ShareSign(w: real, d: real, o: real)
    requires w >= 0.0 && d >= 0.0 && o > 0.0
    ensures d * (w / o) >= 0.0
  {
    QuotientSign(w, o);
  }

  lemma ShareRatio(x: real, y: real, d: real, o: real)
    requires o != 0.0
    ensures (x + d * (x / o)) * y == (y + d * (y / o)) * x
  {
    QuotientRatio(x, y, o);
    assert d * (x / o) * y == d * ((x / o) * y);
    assert d * (y / o) * x == d * ((y / o) * x);
  }

  /** Dropped categories weigh nothing, no weight turns negative, and the other penalties stay. */
  lemma DroppedWeighNothing(s: seq<CategoryResult>, drop: set<Category>)
    requires WeightsNonNegative(s)
    ensures var r := Redistributed(s, drop);
      && WeightsNonNegative(r)
      && (forall i :: 0 <= i < |s| ==> r[i].name == s[i].name)
      && (forall i :: 0 <= i < |s| && s[i].name in drop ==> r[i].weight == 0.0)
      && (forall i :: 0 <= i < |s| && s[i].name !in drop ==> r[i].penalty == s[i].penalty)
  {
    var dropped, other := DroppedSum(s, drop), OtherSum(s, drop);
    SumsSplit(s, drop);
    forall i | 0 <= i < |s|
      ensures Redistributed(s, drop)[i].weight >= 0.0
    {
      if other > 0.0 {
        ShareSign(s[i].weight, dropped, other);
      }
    }
  }

  /** x and y are to each other as u and v. */
  predicate SameRatio(x: real, y: real, u: real, v: real) {
    x * v == y * u
  }

  /** The others keep their ratios. */
  lemma RedistributeKeepsRatios(s: seq<CategoryResult>, drop: set<Category>, i: nat, j: nat)
    requires i < |s| && j < |s| && s[i].name !in drop && s[j].name !in drop
    ensures SameRatio(Redistributed(s, drop)[i].weight, Redistributed(s, drop)[j].weight, s[i].weight, s[j].weight)
  {
    var dropped, other := DroppedSum(s, drop), OtherSum(s, drop);
    if other != 0.0 {
      ShareRatio(s[i].weight, s[j].weight, dropped, other);
    }
  }

  /** The others take over the whole weight, or all weights are zero when nothing is left to take it. */
  lemma RedistributeKeepsSum(s: seq<CategoryResult>, drop: set<Category>)
    requires WeightsNonNegative(s)
    ensures WeightSum(Redistributed(s, drop)) == if OtherSum(s, drop) == 0.0 then 0.0 else WeightSum(s)
  {
    var dropped, other := DroppedSum(s, drop), OtherSum(s, drop);
    var r := Redistributed(s, drop);
    SumsSplit(s, drop);
    if other == 0.0 {
      DroppedWeighNothing(s, drop);
      forall i | 0 <= i < |s|
        ensures r[i].weight == 0.0
      {
        if s[i].name !in drop {
          assert s[i].weight <= other;
        }
      }
      AllZero(r);
    } else if dropped != 0.0 {
      ReweightedSum(s, r, drop, dropped, other);
      WholeShare(dropped, other);
    }
  }

  lemma WholeShare(d: real, o: real)
    requires o != 0.0
    ensures d * (o / o) == d
  {
  }

  lemma {:induction false} AllZero(s: seq<CategoryResult>)
    requires forall i :: 0 <= i < |s| ==> s[i].weight == 0.0
    ensures WeightSum(s) == 0.0
  {
    if s != [] {
      AllZero(s[..|s| - 1]);
    }
  }

  // ----- the score

  /** What a full disk, broken pages, wraparound, a blind autovacuum or a used-up sequence allow at most. */
  function CriticalCeiling(m: RawMetrics): real {
    if m.checksumFailuresRate > 0.0 then CRITICAL_SCORE_CEILING
    else if m.diskUsedRatio >= DISK_USED_CRITICAL then CRITICAL_SCORE_CEILING
    else if m.inRecovery then 100.0
    else if CriticalXidCeiling(MaxAge(m.maxRelfrozenxidAge, m.maxXidAge)) < 100.0 then CRITICAL_SCORE_CEILING
    else if !m.autovacuumEnabled || !m.trackCountsEnabled then CRITICAL_SCORE_CEILING
    else if SequenceLevel(FreePctOf(m.sequenceExhaustionMax), m.sequenceThresholds) == Error then CRITICAL_SCORE_CEILING
    else 100.0
  }

  function CriticalXidCeiling(age: nat): real {
    if age >= XID_FAILSAFE_AGE then CRITICAL_SCORE_CEILING else 100.0
  }

  predicate Floored(m: RawMetrics) {
    CriticalCeiling(m) < 100.0
  }

  function Dropped(m: RawMetrics): set<Category> {
    (if m.replicaCount > 0 then {} else {Replication}) + (if m.inRecovery then {Maintenance} else {})
  }

  /** Adjusted penalties with the weights before any category is dropped. */
  function Weighted(m: RawMetrics, w: Weights): (s: seq<CategoryResult>)
    ensures |s| == 8
  {
    seq(8, i requires 0 <= i < 8 => CategoryResult(ORDER[i], 0.0, WeightOf(w, ORDER[i]), Penalty(ORDER[i], m)))
  }

  function Total(s: seq<CategoryResult>): real {
    if s == [] then 0.0 else Total(s[..|s| - 1]) + s[|s| - 1].penalty * s[|s| - 1].weight
  }

  function Graded(m: RawMetrics, w: Weights): (s: seq<CategoryResult>)
    ensures |s| == 8
  {
    Redistributed(Weighted(m, Effective(w)), Dropped(m))
  }

  lemma ScaledRatio(m: RawMetrics, w: Weights, n: Weights, d: real, g: seq<CategoryResult>, i: nat, j: nat)
    requires d > 0.0 && (forall c :: WeightOf(n, c) == WeightOf(w, c) / d) && g == Redistributed(Weighted(m, n), Dropped(m))
    requires i < 8 && j < 8 && ORDER[i] !in Dropped(m) && ORDER[j] !in Dropped(m)
    ensures SameRatio(g[i].weight, g[j].weight, WeightOf(w, ORDER[i]), WeightOf(w, ORDER[j]))
  {
    var s := Weighted(m, n);
    RedistributeKeepsRatios(s, Dropped(m), i, j);
    Rescaled(g[i].weight, g[j].weight, s[i].weight, s[j].weight, WeightOf(w, ORDER[i]), WeightOf(w, ORDER[j]), d);
  }

  /** The weights a valid choice ends with keep its ratios, category by category, among those that count. */
  lemma FinalWeightsKeepRatios(m: RawMetrics, w: Weights, i: nat, j: nat)
    requires Valid(w) && i < 8 && j < 8 && ORDER[i] !in Dropped(m) && ORDER[j] !in Dropped(m)
    ensures SameRatio(Graded(m, w)[i].weight, Graded(m, w)[j].weight, WeightOf(w, ORDER[i]), WeightOf(w, ORDER[j]))
  {
    NormalizeKeepsRatios(w);
    ScaledRatio(m, w, Normalize(w), Scale(w), Graded(m, w), i, j);
  }

  lemma Rescaled(x: real, y: real, u': real, v': real, u: real, v: real, d: real)
    requires d > 0.0 && u' == u / d && v' == v / d && SameRatio(x, y, u', v')
    ensures SameRatio(x, y, u, v)
  {
    assert x * v == x * v' * d && y * u == y * u' * d;
  }

  function Clamp(x: real): real {
    MaxReal(0.0, MinReal(100.0, x))
  }

  function ScoreOf(m: RawMetrics, w: Weights): real {
    Round1(MinReal(Clamp(100.0 - Total(Graded(m, w))), CriticalCeiling(m)))
  }

  // ----- the score is antitone

  lemma {:induction false} SumsOfSameWeights(s: seq<CategoryResult>, t: seq<CategoryResult>, drop: set<Category>)
    requires |s| == |t| && forall i :: 0 <= i < |s| ==> s[i].name == t[i].name && s[i].weight == t[i].weight
    ensures DroppedSum(s, drop) == DroppedSum(t, drop) && OtherSum(s, drop) == OtherSum(t, drop)
  {
    if s != [] {
      SumsOfSameWeights(s[..|s| - 1], t[..|s| - 1], drop);
    }
  }

  predicate NoBetter(s: seq<CategoryResult>, t: seq<CategoryResult>) {
    && |s| == |t|
    && forall i :: 0 <= i < |s| ==> s[i].name == t[i].name && s[i].weight == t[i].weight && s[i].penalty <= t[i].penalty
  }

  lemma {:induction false} TotalMonotone(s: seq<CategoryResult>, t: seq<CategoryResult>)
    requires NoBetter(s, t) && WeightsNonNegative(s)
    ensures Total(s) <= Total(t)
  {
    if s != [] {
      var n := |s| - 1;
      TotalMonotone(s[..n], t[..n]);
      ProductMonotone(s[n].penalty, t[n].penalty, s[n].weight);
    }
  }

  lemma WeightedNonNegative(m: RawMetrics, w: Weights)
    ensures WeightsNonNegative(Weighted(m, Effective(w)))
  {
    EffectiveIsNormal(w);
  }

  lemma RedistributedMonotone(s: seq<CategoryResult>, t: seq<CategoryResult>, drop: set<Category>)
    requires NoBetter(s, t)
    ensures NoBetter(Redistributed(s, drop), Redistributed(t, drop))
  {
    SumsOfSameWeights(s, t, drop);
  }

  lemma WeightedMonotone(a: RawMetrics, b: RawMetrics, w: Weights)
    requires Worse(a, b)
    ensures NoBetter(Weighted(a, w), Weighted(b, w))
  {
    var s, t := Weighted(a, w), Weighted(b, w);
    forall i | 0 <= i < 8
      ensures s[i].name == t[i].name && s[i].weight == t[i].weight && s[i].penalty <= t[i].penalty
    {
      PenaltyAntitone(ORDER[i], a, b);
    }
  }

  lemma TotalAntitone(a: RawMetrics, b: RawMetrics, w: Weights)
    requires Worse(a, b)
    ensures Total(Graded(a, w)) <= Total(Graded(b, w))
  {
    WeightedMonotone(a, b, Effective(w));
    assert Dropped(a) == Dropped(b);
    RedistributedMonotone(Weighted(a, Effective(w)), Weighted(b, Effective(w)), Dropped(a));
    WeightedNonNegative(a, w);
    DroppedWeighNothing(Weighted(a, Effective(w)), Dropped(a));
    TotalMonotone(Graded(a, w), Graded(b, w));
  }

  /** Nothing that gets worse takes a catastrophic condition away. */
  lemma CeilingAntitone(a: RawMetrics, b: RawMetrics)
    requires Worse(a, b)
    ensures CriticalCeiling(b) <= CriticalCeiling(a)
    ensures Floored(a) ==> Floored(b)
  {
  }

  lemma ClampedAntitone(x: real, y: real, c: real, d: real)
    requires x <= y && d <= c
    ensures Round1(MinReal(Clamp(100.0 - y), d)) <= Round1(MinReal(Clamp(100.0 - x), c))
  {
    Round1Monotone(MinReal(Clamp(100.0 - y), d), MinReal(Clamp(100.0 - x), c));
  }

  /** With role, sizes, settings and weights fixed, getting worse in any graded metric never raises the score. */
  lemma ScoreAntitone(a: RawMetrics, b: RawMetrics, w: Weights)
    requires Worse(a, b)
    ensures ScoreOf(b, w) <= ScoreOf(a, w)
  {
    TotalAntitone(a, b, w);
    CeilingAntitone(a, b);
    ClampedAntitone(Total(Graded(a, w)), Total(Graded(b, w)), CriticalCeiling(a), CriticalCeiling(b));
  }

  lemma {:induction false} TotalBound(s: seq<CategoryResult>)
    requires WeightsNonNegative(s) && forall i :: 0 <= i < |s| ==> 0.0 <= s[i].penalty <= 100.0
    ensures 0.0 <= Total(s) <= 100.0 * WeightSum(s)
  {
    if s != [] {
      var n := |s| - 1;
      TotalBound(s[..n]);
      ProductMonotone(0.0, s[n].penalty, s[n].weight);
      ProductMonotone(s[n].penalty, 100.0, s[n].weight);
    }
  }

  lemma WeightedSum(m: RawMetrics, w: Weights)
    ensures WeightSum(Weighted(m, w)) == SumOf(w)
  {
    var s := Weighted(m, w);
    forall i | 0 <= i < 8
      ensures s[i].weight == WeightOf(w, ORDER[i])
    {
    }
    EightWeights(s);
  }

  lemma EightWeights(s: seq<CategoryResult>)
    requires |s| == 8
    ensures WeightSum(s) == s[0].weight + s[1].weight + s[2].weight + s[3].weight
      + s[4].weight + s[5].weight + s[6].weight + s[7].weight
  {
    OneMoreWeight(s, 0);
    OneMoreWeight(s, 1);
    OneMoreWeight(s, 2);
    OneMoreWeight(s, 3);
    OneMoreWeight(s, 4);
    OneMoreWeight(s, 5);
    OneMoreWeight(s, 6);
    OneMoreWeight(s, 7);
    assert s[..8] == s;
  }

  lemma OneMoreWeight(s: seq<CategoryResult>, k: nat)
    requires k < |s|
    ensures WeightSum(s[..k + 1]) == WeightSum(s[..k]) + s[k].weight
  {
    assert s[..k + 1][..k] == s[..k];
  }

  /** The weighted sum stays in 0..100 up to the tolerance, the score in 0..100, and at most 30 when floored. */
  lemma ScoreInRange(m: RawMetrics, w: Weights)
    requires m.maxDeadRatio >= 0.0
    ensures 0.0 <= Total(Graded(m, w)) <= 100.0 * (1.0 + WEIGHT_TOLERANCE)
    ensures 0.0 <= ScoreOf(m, w) <= 100.0
    ensures Floored(m) ==> ScoreOf(m, w) <= CRITICAL_SCORE_CEILING
  {
    var s := Weighted(m, Effective(w));
    forall c
      ensures 0.0 <= Penalty(c, m) <= 100.0
    {
      PenaltyInRange(c, m);
    }
    EffectiveIsNormal(w);
    WeightedNonNegative(m, w);
    WeightedSum(m, Effective(w));
    DroppedWeighNothing(s, Dropped(m));
    RedistributeKeepsSum(s, Dropped(m));
    TotalBound(Graded(m, w));
    Round1Between(MinReal(Clamp(100.0 - Total(Graded(m, w))), CriticalCeiling(m)));
  }

  /** Nothing but the checkpoints counts. */
  const WAL_ONLY := Weights(0.0, 0.0, 0.0, 0.0, 0.0, 0.0, 1.0, 0.0)

  /** Healthy metrics of a primary with one replica and the given checkpoints. */
  function Healthy(timed: nat, requested: nat): RawMetrics {
    RawMetrics(false, 0, 0, 0.0, 100, 100.0, 0, true, 0.0, 0.0, 0, 1, 0.0, 0, 0, 0, 0, 0.0, 0, true, true, 0, 0, 0, 0.0, 0,
               0, timed, requested, 0, 0.0, 0, 0, 0, 64, 1.0, 0.0, 0, Replica, 0, false,
               SequenceThresholds(5.0, 10.0, 20.0), 0.0, 0.0, 0.0, 0.0, 0.0, 0.0, 0.0, 0.0, 0.0)
  }

  function WalPoints(timed: nat, requested: nat): real {
    Round1(Cap(Round1(Cap(Checkpoints(timed, requested)))))
  }

  lemma HealthyPenalties(timed: nat, requested: nat, c: Category)
    ensures Penalty(c, Healthy(timed, requested)) ==
      if c == WalCheckpoint then WalPoints(timed, requested) else 0.0
  {
    var m := Healthy(timed, requested);
    assert RoundAway(0.0) == 0 && Round1(0.0) == 0.0;
    assert Ratio(0, 100) == 0.0;
    assert LockSaturation(m) == 0.0;
    assert Extra(c, m) == 0.0;
  }

  lemma {:induction false} TotalOfOne(s: seq<CategoryResult>, i: nat)
    requires i < |s| && forall j :: 0 <= j < |s| && j != i ==> s[j].penalty == 0.0
    ensures Total(s) == s[i].penalty * s[i].weight
  {
    var n := |s| - 1;
    if i < n {
      TotalOfOne(s[..n], i);
    } else {
      NoTotal(s[..n]);
    }
  }

  lemma {:induction false} NoTotal(s: seq<CategoryResult>)
    requires forall j :: 0 <= j < |s| ==> s[j].penalty == 0.0
    ensures Total(s) == 0.0
  {
    if s != [] {
      NoTotal(s[..|s| - 1]);
    }
  }

  lemma {:induction false} NothingDropped(s: seq<CategoryResult>)
    ensures DroppedSum(s, {}) == 0.0
  {
    if s != [] {
      NothingDropped(s[..|s| - 1]);
    }
  }

  predicate OnlyOne(s: seq<CategoryResult>, i: nat, penalty: real, weight: real) {
    && i < |s| && (forall j :: 0 <= j < |s| && j != i ==> s[j].penalty == 0.0)
    && s[i].penalty == penalty && s[i].weight == weight
  }

  lemma OneTotal(s: seq<CategoryResult>, i: nat, penalty: real, weight: real)
    requires OnlyOne(s, i, penalty, weight)
    ensures Total(s) == penalty * weight
  {
    TotalOfOne(s, i);
  }

  lemma AllGraded(m: RawMetrics, w: Weights)
    requires (w == DEFAULT_WEIGHTS || w == WAL_ONLY) && m.replicaCount > 0 && !m.inRecovery
    ensures Graded(m, w) == Weighted(m, w)
  {
    assert Dropped(m) == {};
    NothingDropped(Weighted(m, w));
  }

  lemma HealthyCategories(m: RawMetrics, timed: nat, requested: nat, w: Weights, points: real)
    requires m == Healthy(timed, requested) && points == WalPoints(timed, requested)
    ensures OnlyOne(Weighted(m, w), 6, points, w.walCheckpoint)
  {
    forall c
      ensures Penalty(c, m) == if c == WalCheckpoint then points else 0.0
    {
      HealthyPenalties(timed, requested, c);
    }
  }

  function Left(penalty: real): real {
    Round1(MinReal(Clamp(100.0 - penalty), 100.0))
  }

  lemma OneScore(m: RawMetrics, w: Weights, s: seq<CategoryResult>, i: nat, penalty: real, weight: real)
    requires Graded(m, w) == s && OnlyOne(s, i, penalty, weight) && CriticalCeiling(m) == 100.0
    ensures ScoreOf(m, w) == Left(penalty * weight)
  {
    OneTotal(s, i, penalty, weight);
  }

  lemma HealthyCeiling(m: RawMetrics, timed: nat, requested: nat)
    requires m == Healthy(timed, requested)
    ensures CriticalCeiling(m) == 100.0
  {
  }

  lemma WalPointsAtTheGate()
    ensures WalPoints(8, 2) == 70.0 && WalPoints(7, 2) == 0.0
  {
    assert Ratio(2, 10) == 0.2 && Checkpoints(8, 2) == 70.0 && Checkpoints(7, 2) == 0.0;
    assert RoundAway(700.0) == 700 && RoundAway(0.0) == 0;
  }

  lemma HealthyScore(t: nat, r: nat)
    ensures ScoreOf(Healthy(t, r), DEFAULT_WEIGHTS) == Left(WalPoints(t, r) * 0.10)
  {
    AllGraded(Healthy(t, r), DEFAULT_WEIGHTS);
    HealthyCeiling(Healthy(t, r), t, r);
    HealthyCategories(Healthy(t, r), t, r, DEFAULT_WEIGHTS, WalPoints(t, r));
    OneScore(Healthy(t, r), DEFAULT_WEIGHTS, Weighted(Healthy(t, r), DEFAULT_WEIGHTS), 6, WalPoints(t, r), 0.10);
  }

  /** One timed checkpoint fewer takes the sample below ten and the score from 93 to 100. */
  lemma FewerTimedCheckpointsRaiseTheScore(timed: nat, requested: nat)
    requires timed == 8 && requested == 2
    ensures !StillGraded(timed, requested, timed - 1, requested)
    ensures ScoreOf(Healthy(timed, requested), DEFAULT_WEIGHTS) == 93.0
    ensures ScoreOf(Healthy(timed - 1, requested), DEFAULT_WEIGHTS) == 100.0
  {
    WalPointsAtTheGate();
    HealthyScore(timed, requested);
    HealthyScore(timed - 1, requested);
    assert RoundAway(930.0) == 930 && RoundAway(1000.0) == 1000;
  }

  // ----- when fewer checkpoints are no better

  lemma WalPointsShow(t: nat, r: nat)
    requires 10 <= t + r < 200 && 20 * r > t + r
    ensures WalPoints(t, r) >= 0.1
  {
    ShareShows(t, r);
    CappedMonotone(0.05, Checkpoints(t, r));
    assert RoundAway(0.5) == 1;
    CappedMonotone(0.1, Round1(Cap(Checkpoints(t, r))));
    assert RoundAway(1.0) == 1;
  }

  lemma NoWalPoints(t: nat, r: nat)
    requires t + r < 10
    ensures WalPoints(t, r) == 0.0
  {
    assert RoundAway(0.0) == 0;
  }

  /** With only the checkpoints weighted, losing the sample raises the score to 100. */
  lemma LosingTheSampleHelps(t: nat, r: nat, t': nat, r': nat)
    requires r <= r' && t' <= t && !StillGraded(t, r, t', r')
    ensures ScoreOf(Healthy(t, r), WAL_ONLY) < 100.0 == ScoreOf(Healthy(t', r'), WAL_ONLY)
  {
    WalPointsShow(t, r);
    NoWalPoints(t', r');
    AllGraded(Healthy(t, r), WAL_ONLY);
    HealthyCeiling(Healthy(t, r), t, r);
    HealthyCategories(Healthy(t, r), t, r, WAL_ONLY, WalPoints(t, r));
    OneScore(Healthy(t, r), WAL_ONLY, Weighted(Healthy(t, r), WAL_ONLY), 6, WalPoints(t, r), WAL_ONLY.walCheckpoint);
    AllGraded(Healthy(t', r'), WAL_ONLY);
    HealthyCeiling(Healthy(t', r'), t', r');
    HealthyCategories(Healthy(t', r'), t', r', WAL_ONLY, WalPoints(t', r'));
    OneScore(Healthy(t', r'), WAL_ONLY, Weighted(Healthy(t', r'), WAL_ONLY), 6, WalPoints(t', r'), WAL_ONLY.walCheckpoint);
    Round1Monotone(MinReal(Clamp(100.0 - WalPoints(t, r)), 100.0), 99.9);
    assert RoundAway(999.0) == 999 && RoundAway(1000.0) == 1000;
  }

  /** The checkpoints of a and b, everything else worse in b. */
  predicate WorseWith(a: RawMetrics, b: RawMetrics, t: nat, r: nat, t': nat, r': nat) {
    && WorseApart(a, b) && a.timedCheckpoints == t && a.requestedCheckpoints == r
    && b.timedCheckpoints == t' && b.requestedCheckpoints == r'
  }

  /**
   * More requested and fewer timed checkpoints never raise a score, whatever else gets
   * worse and whatever the weights, exactly when the sample stays gradable or there was
   * nothing to lose.
   */
  lemma CheckpointsAndTheScore(t: nat, r: nat, t': nat, r': nat)
    requires r <= r' && t' <= t
    ensures (forall a, b, w :: WorseWith(a, b, t, r, t', r') ==> ScoreOf(b, w) <= ScoreOf(a, w)) <==> StillGraded(t, r, t', r')
  {
    if StillGraded(t, r, t', r') {
      forall a, b, w | WorseWith(a, b, t, r, t', r')
        ensures ScoreOf(b, w) <= ScoreOf(a, w)
      {
        ScoreAntitone(a, b, w);
      }
    } else {
      LosingTheSampleHelps(t, r, t', r');
      assert WorseWith(Healthy(t, r), Healthy(t', r'), t, r, t', r');
    }
  }
}
