/** The health score spelled out: from the charges through the eight weights, by name, to the ceiling. */
module HealthFormula {
  import opened Common
  import opened HealthMetrics
  import opened HealthPenalties
  import opened HealthScore
  import opened HealthRules
  import opened HealthCharges
  import opened RealArithmetic

  // ----- rounding

  /** x rounded to one decimal place is a whole number of tenths, at most half a tenth off, and by half a tenth only away from zero. */
  lemma RoundedIsNear(x: real) returns (k: int)
    ensures Round1(x) * 10.0 == k as real && -0.05 <= Round1(x) - x <= 0.05
    ensures if x >= 0.0 then Round1(x) - x > -0.05 else Round1(x) - x < 0.05
  {
    k := RoundAway(x * 10.0);
  }

  function AtMost100(x: real): real {
    if x > 100.0 then 100.0 else x
  }

  function Larger(a: real, b: real): real {
    if a >= b then a else b
  }

  // ----- penalties

  /** p is made of the points summed by the penalty function and those added for the instance, capped and rounded. */
  predicate MadeOf(p: real, own: real, added: real) {
    p == Round1(AtMost100(Round1(AtMost100(own)) + added))
  }

  /** The penalty of every category, from the charges of its rules. */
  predicate PenaltyIs(c: Category, m: RawMetrics, p: real) {
    match c
    case Connections =>
      MadeOf(p, Charge(HighConnectionRatio, m) + Charge(IdleInTransaction, m) + Charge(LongRunningTransaction, m),
             Charge(HostCpuSaturation, m) + Charge(PoolerSaturation, m))
    case Performance =>
      MadeOf(p, Charge(LowCacheHitRatio, m),
             Charge(TrackIoTimingDisabled, m) + Charge(LatencyRegression, m) + Charge(SeqScanRegression, m))
    case Storage =>
      MadeOf(p, Charge(HighMaxDeadRatio, m) + Charge(HighAvgDeadRatio, m) + Charge(ManyBloatedTables, m) + Charge(HighNewpageUpdateRatio, m),
             Charge(LowHotUpdateRatio, m) + Charge(HostDiskSpace, m))
    case Replication =>
      MadeOf(p, Charge(ReplicationLagTime, m) + Charge(ReplicationLagBytes, m) + Charge(DisconnectedReplicas, m), 0.0)
    case Maintenance =>
      MadeOf(p, Larger(Charge(RelfrozenxidAgeOutlier, m), Charge(XidWraparoundRisk, m)) + Charge(StaleVacuum, m) + Charge(VacuumBacklog, m)
               + Charge(TablesNeverVacuumed, m) + Charge(TablesWithAutovacuumOff, m) + Charge(StalePlannerStats, m),
             Charge(AutovacuumDisabled, m) + Charge(TrackCountsDisabled, m))
    case Horizon => MadeOf(p, Charge(HorizonLagXids, m), 0.0)
    case WalCheckpoint =>
      MadeOf(p, Charge(RequestedCheckpointRatio, m), Charge(WalLevelMinimalWithReplicas, m) + Charge(WalLevelLogicalWithoutPublications, m))
    case Locks =>
      MadeOf(p, Charge(ActiveLockWaiters, m) + Charge(LongestLockWaitSeconds, m) + Charge(UngrantedLocks, m)
               + Charge(LockPoolSaturation, m) + Charge(DeadlocksRate, m), 0.0)
  }

  lemma Made(c: Category, m: RawMetrics, own: seq<RuleId>, added: seq<RuleId>, x: real, y: real)
    requires own == Summed(c, m) && added == Added(c) && x == Sum(own, m) && y == Sum(added, m)
    ensures MadeOf(Penalty(c, m), x, y)
  {
    PenaltyIsCharges(c, m);
  }

  lemma OlderIsLarger(m: RawMetrics)
    ensures Charge(OlderRule(m), m) == Larger(Charge(RelfrozenxidAgeOutlier, m), Charge(XidWraparoundRisk, m))
  {
    OlderIsCharged(m);
  }

  lemma ConnectionsMade(m: RawMetrics)
    ensures PenaltyIs(Connections, m, Penalty(Connections, m))
  {
    var own, added := Summed(Connections, m), Added(Connections);
    SumThree(own, own[0], own[1], own[2], m);
    SumTwo(added, added[0], added[1], m);
    Made(Connections, m, own, added, Sum(own, m), Sum(added, m));
  }

  lemma PerformanceMade(m: RawMetrics)
    ensures PenaltyIs(Performance, m, Penalty(Performance, m))
  {
    var own, added := Summed(Performance, m), Added(Performance);
    SumOne(own, own[0], m);
    SumThree(added, added[0], added[1], added[2], m);
    Made(Performance, m, own, added, Sum(own, m), Sum(added, m));
  }

  lemma StorageMade(m: RawMetrics)
    ensures PenaltyIs(Storage, m, Penalty(Storage, m))
  {
    var own, added := Summed(Storage, m), Added(Storage);
    SumFour(own, own[0], own[1], own[2], own[3], m);
    SumTwo(added, added[0], added[1], m);
    Made(Storage, m, own, added, Sum(own, m), Sum(added, m));
  }

  lemma ReplicationMade(m: RawMetrics)
    ensures PenaltyIs(Replication, m, Penalty(Replication, m))
  {
    var own, added := Summed(Replication, m), Added(Replication);
    SumThree(own, own[0], own[1], own[2], m);
    Made(Replication, m, own, added, Sum(own, m), Sum(added, m));
  }

  lemma MaintenanceMade(m: RawMetrics)
    ensures PenaltyIs(Maintenance, m, Penalty(Maintenance, m))
  {
    var own, added := Summed(Maintenance, m), Added(Maintenance);
    SumSix(own, own[0], own[1], own[2], own[3], own[4], own[5], m);
    SumTwo(added, added[0], added[1], m);
    OlderIsLarger(m);
    Made(Maintenance, m, own, added, Sum(own, m), Sum(added, m));
  }

  lemma HorizonMade(m: RawMetrics)
    ensures PenaltyIs(Horizon, m, Penalty(Horizon, m))
  {
    var own, added := Summed(Horizon, m), Added(Horizon);
    SumOne(own, own[0], m);
    Made(Horizon, m, own, added, Sum(own, m), Sum(added, m));
  }

  lemma WalCheckpointMade(m: RawMetrics)
    ensures PenaltyIs(WalCheckpoint, m, Penalty(WalCheckpoint, m))
  {
    var own, added := Summed(WalCheckpoint, m), Added(WalCheckpoint);
    SumOne(own, own[0], m);
    SumTwo(added, added[0], added[1], m);
    Made(WalCheckpoint, m, own, added, Sum(own, m), Sum(added, m));
  }

  lemma LocksMade(m: RawMetrics)
    ensures PenaltyIs(Locks, m, Penalty(Locks, m))
  {
    var own, added := Summed(Locks, m), Added(Locks);
    SumFive(own, own[0], own[1], own[2], own[3], own[4], m);
    Made(Locks, m, own, added, Sum(own, m), Sum(added, m));
  }

  /** Each category's penalty, rule by rule. */
  lemma PenaltySpelled(c: Category, m: RawMetrics)
    ensures PenaltyIs(c, m, Penalty(c, m))
  {
    match c
    case Connections => ConnectionsMade(m);
    case Performance => PerformanceMade(m);
    case Storage => StorageMade(m);
    case Replication => ReplicationMade(m);
    case Maintenance => MaintenanceMade(m);
    case Horizon => HorizonMade(m);
    case WalCheckpoint => WalCheckpointMade(m);
    case Locks => LocksMade(m);
  }

  // ----- weights

  /** The weights of the categories that count. */
  function CountedWeights(m: RawMetrics, w: Weights): real {
    w.connections + w.performance + w.storage + (if m.replicaCount > 0 then w.replication else 0.0)
    + (if m.inRecovery then 0.0 else w.maintenance) + w.horizon + w.walCheckpoint + w.locks
  }

  function AllWeights(w: Weights): real {
    w.connections + w.performance + w.storage + w.replication + w.maintenance + w.horizon + w.walCheckpoint + w.locks
  }

  /** What the weights add up to in the end: one, or what they were when that was close enough. */
  function Whole(w: Weights): real {
    if -0.000000001 < AllWeights(w) - 1.0 < 0.000000001 then AllWeights(w) else 1.0
  }

  /** What a category takes off the score. */
  function Part(c: CategoryResult): real {
    c.penalty * c.weight
  }

  lemma OneMoreTotal(s: seq<CategoryResult>, k: nat)
    requires k < |s|
    ensures Total(s[..k + 1]) == Total(s[..k]) + Part(s[k])
  {
    assert s[..k + 1][..k] == s[..k];
  }

  lemma EightTotals(s: seq<CategoryResult>)
    requires |s| == 8
    ensures Total(s) == Part(s[0]) + Part(s[1]) + Part(s[2]) + Part(s[3]) + Part(s[4]) + Part(s[5]) + Part(s[6]) + Part(s[7])
  {
    OneMoreTotal(s, 0);
    OneMoreTotal(s, 1);
    OneMoreTotal(s, 2);
    OneMoreTotal(s, 3);
    OneMoreTotal(s, 4);
    OneMoreTotal(s, 5);
    OneMoreTotal(s, 6);
    OneMoreTotal(s, 7);
    assert s[..8] == s;
  }

  lemma OneMoreOther(s: seq<CategoryResult>, drop: set<Category>, k: nat)
    requires k < |s|
    ensures OtherSum(s[..k + 1], drop) == OtherSum(s[..k], drop) + (if s[k].name in drop then 0.0 else s[k].weight)
  {
    assert s[..k + 1][..k] == s[..k];
  }

  lemma EightOthers(s: seq<CategoryResult>, drop: set<Category>)
    requires |s| == 8
    ensures OtherSum(s, drop) ==
      (if s[0].name in drop then 0.0 else s[0].weight) + (if s[1].name in drop then 0.0 else s[1].weight)
      + (if s[2].name in drop then 0.0 else s[2].weight) + (if s[3].name in drop then 0.0 else s[3].weight)
      + (if s[4].name in drop then 0.0 else s[4].weight) + (if s[5].name in drop then 0.0 else s[5].weight)
      + (if s[6].name in drop then 0.0 else s[6].weight) + (if s[7].name in drop then 0.0 else s[7].weight)
  {
    OneMoreOther(s, drop, 0);
    OneMoreOther(s, drop, 1);
    OneMoreOther(s, drop, 2);
    OneMoreOther(s, drop, 3);
    OneMoreOther(s, drop, 4);
    OneMoreOther(s, drop, 5);
    OneMoreOther(s, drop, 6);
    OneMoreOther(s, drop, 7);
    assert s[..8] == s;
  }

  // ----- the weighted sum

  lemma EightQuotients(a: real, b: real, c: real, e: real, f: real, g: real, h: real, i: real, d: real)
    requires d > 0.0
    ensures a / d + b / d + c / d + e / d + f / d + g / d + h / d + i / d == (a + b + c + e + f + g + h + i) / d
  {
    QuotientIsProduct(a, d);
    QuotientIsProduct(b, d);
    QuotientIsProduct(c, d);
    QuotientIsProduct(e, d);
    QuotientIsProduct(f, d);
    QuotientIsProduct(g, d);
    QuotientIsProduct(h, d);
    QuotientIsProduct(i, d);
    QuotientIsProduct(a + b + c + e + f + g + h + i, d);
  }

  lemma KeptShare(x: real, y: real, o: real, d: real, dropped: real, whole: real)
    requires o > 0.0 && dropped + o == whole && y == x + dropped * (x / o)
    ensures y * o == x * whole
  {
    assert x / o * o == x;
    assert y * o == x * o + dropped * (x / o * o);
  }

  lemma FinalShare(w: real, x: real, y: real, d: real, o: real, kept: real, whole: real)
    requires d > 0.0 && x * d == w && o * d == kept && y * o == x * whole
    ensures y * kept == whole * w
  {
    assert y * kept == y * o * d;
    assert y * o * d == x * whole * d;
    assert x * whole * d == x * d * whole;
  }

  /** What the weights before redistribution are. */
  ghost predicate Normal(m: RawMetrics, w: Weights, n: Weights, d: real) {
    && d > 0.0 && NonNegative(n) && (forall c :: WeightOf(n, c) == WeightOf(w, c) / d) && AllWeights(n) == Whole(w)
  }

  lemma NormalizedIsNormal(m: RawMetrics, w: Weights)
    requires Valid(w)
    ensures Normal(m, w, Normalize(w), Scale(w))
  {
    NormalizeKeepsRatios(w);
    NormalizeSumsToOne(w);
  }

  lemma CountedSum(m: RawMetrics, w: Weights, n: Weights, d: real, s: seq<CategoryResult>)
    requires Normal(m, w, n, d) && s == Weighted(m, n)
    ensures OtherSum(s, Dropped(m)) == CountedWeights(m, w) / d
    ensures DroppedSum(s, Dropped(m)) + OtherSum(s, Dropped(m)) == Whole(w)
    ensures WeightsNonNegative(s)
  {
    WholeSum(m, w, n, d, s);
    OtherIs(m, w, n, d, s);
  }

  lemma WholeSum(m: RawMetrics, w: Weights, n: Weights, d: real, s: seq<CategoryResult>)
    requires Normal(m, w, n, d) && s == Weighted(m, n)
    ensures DroppedSum(s, Dropped(m)) + OtherSum(s, Dropped(m)) == Whole(w) && WeightsNonNegative(s)
  {
    assert forall c :: WeightOf(n, c) >= 0.0;
    SumsSplit(s, Dropped(m));
    WeightSumIs(m, n, s);
  }

  lemma WeightSumIs(m: RawMetrics, n: Weights, s: seq<CategoryResult>)
    requires s == Weighted(m, n)
    ensures WeightSum(s) == AllWeights(n)
  {
    EightWeights(s);
  }

  lemma OtherIs(m: RawMetrics, w: Weights, n: Weights, d: real, s: seq<CategoryResult>)
    requires d > 0.0 && (forall c :: WeightOf(n, c) == WeightOf(w, c) / d) && s == Weighted(m, n)
    ensures OtherSum(s, Dropped(m)) == CountedWeights(m, w) / d
  {
    EightOthers(s, Dropped(m));
    assert 0.0 / d == 0.0;
    EightQuotients(w.connections, w.performance, w.storage, if m.replicaCount > 0 then w.replication else 0.0,
                   if m.inRecovery then 0.0 else w.maintenance, w.horizon, w.walCheckpoint, w.locks, d);
    assert WeightOf(n, Connections) == w.connections / d && WeightOf(n, Performance) == w.performance / d;
    assert WeightOf(n, Storage) == w.storage / d && WeightOf(n, Replication) == w.replication / d;
    assert WeightOf(n, Maintenance) == w.maintenance / d && WeightOf(n, Horizon) == w.horizon / d;
    assert WeightOf(n, WalCheckpoint) == w.walCheckpoint / d && WeightOf(n, Locks) == w.locks / d;
  }

  /** A category counts with its share of what the counted weights make up. */
  predicate Share(y: real, w: real, kept: real, whole: real) {
    y * kept == whole * w
  }

  lemma KeptCounts(x: real, y: real, o: real, dropped: real, kept: real, whole: real, w: real, d: real)
    requires d > 0.0 && x == w / d && o == kept / d && kept > 0.0 && dropped + o == whole
    requires o > 0.0 && y == if dropped == 0.0 then x else x + ShareOf(x, dropped, o)
    ensures Share(y, w, kept, whole)
  {
    Divided(w, d);
    Divided(kept, d);
    if dropped != 0.0 {
      KeptShare(x, y, o, d, dropped, whole);
    }
    FinalShare(w, x, y, d, o, kept, whole);
  }

  lemma Divided(x: real, d: real)
    requires d > 0.0
    ensures x / d * d == x && (x > 0.0 ==> x / d > 0.0)
  {
    if x > 0.0 && x / d <= 0.0 {
      ProductMonotone(x / d, 0.0, d);
    }
  }

  lemma ReweightedAt(s: seq<CategoryResult>, drop: set<Category>, i: nat)
    requires i < |s|
    ensures var g, dropped, other := Redistributed(s, drop)[i], DroppedSum(s, drop), OtherSum(s, drop);
      && g.name == s[i].name
      && (s[i].name !in drop ==> g.penalty == s[i].penalty)
      && (s[i].name !in drop && other != 0.0 ==> g.weight == if dropped == 0.0 then s[i].weight else s[i].weight + ShareOf(s[i].weight, dropped, other))
  {
  }

  /** What the i-th category ends with. */
  predicate EndsWith(g: CategoryResult, name: Category, penalty: real, counts: bool, w: real, kept: real, whole: real) {
    g.name == name && if counts then g.penalty == penalty && Share(g.weight, w, kept, whole) else g.weight == 0.0
  }

  /** The sums over s are those of weights that were divided by d. */
  ghost predicate Shared(s: seq<CategoryResult>, drop: set<Category>, d: real, kept: real, whole: real) {
    && WeightsNonNegative(s) && d > 0.0 && kept > 0.0
    && OtherSum(s, drop) == kept / d && DroppedSum(s, drop) + OtherSum(s, drop) == whole
  }

  lemma DroppedEnds(s: seq<CategoryResult>, drop: set<Category>, i: nat)
    requires WeightsNonNegative(s) && i < |s| && s[i].name in drop
    ensures Redistributed(s, drop)[i].name == s[i].name && Redistributed(s, drop)[i].weight == 0.0
  {
    DroppedWeighNothing(s, drop);
  }

  lemma OneCategory(s: seq<CategoryResult>, drop: set<Category>, i: nat, x: real, d: real, kept: real, whole: real)
    requires Shared(s, drop, d, kept, whole) && i < |s| && s[i].weight == x / d
    ensures EndsWith(Redistributed(s, drop)[i], s[i].name, s[i].penalty, s[i].name !in drop, x, kept, whole)
  {
    if s[i].name in drop {
      DroppedEnds(s, drop, i);
    } else {
      Divided(kept, d);
      ReweightedAt(s, drop, i);
      KeptCounts(s[i].weight, Redistributed(s, drop)[i].weight, OtherSum(s, drop), DroppedSum(s, drop), kept, whole, x, d);
    }
  }

  lemma WeightedAt(m: RawMetrics, w: Weights, n: Weights, d: real, i: nat, name: Category)
    requires Normal(m, w, n, d) && i < 8 && ORDER[i] == name
    ensures var c := Weighted(m, n)[i]; c.name == name && c.penalty == Penalty(name, m) && c.weight == WeightOf(w, name) / d
  {
  }

  lemma FinalCategory(m: RawMetrics, w: Weights, n: Weights, d: real, i: nat, name: Category, x: real, kept: real, whole: real)
    requires Normal(m, w, n, d) && Shared(Weighted(m, n), Dropped(m), d, kept, whole) && i < 8 && ORDER[i] == name && x == WeightOf(w, name)
    ensures EndsWith(Redistributed(Weighted(m, n), Dropped(m))[i], name, Penalty(name, m), name !in Dropped(m), x, kept, whole)
  {
    WeightedAt(m, w, n, d, i, name);
    OneCategory(Weighted(m, n), Dropped(m), i, x, d, kept, whole);
  }

  /** The category of that name counts with w, or not at all. */
  predicate Weighed(g: CategoryResult, name: Category, counts: bool, w: real, kept: real, whole: real) {
    g.name == name && if counts then Share(g.weight, w, kept, whole) else g.weight == 0.0
  }

  /**
   * Under which weight each category counts, by name: the weights given, as shares of
   * those that count. Replication does not count without replicas, maintenance not in
   * recovery. Every category that counts has its own penalty.
   */
  predicate WeighedByName(m: RawMetrics, w: Weights, g: seq<CategoryResult>) {
    var kept, whole := CountedWeights(m, w), Whole(w);
    && |g| == 8
    && Weighed(g[0], Connections, true, w.connections, kept, whole)
    && Weighed(g[1], Performance, true, w.performance, kept, whole)
    && Weighed(g[2], Storage, true, w.storage, kept, whole)
    && Weighed(g[3], Replication, m.replicaCount > 0, w.replication, kept, whole)
    && Weighed(g[4], Maintenance, !m.inRecovery, w.maintenance, kept, whole)
    && Weighed(g[5], Horizon, true, w.horizon, kept, whole)
    && Weighed(g[6], WalCheckpoint, true, w.walCheckpoint, kept, whole)
    && Weighed(g[7], Locks, true, w.locks, kept, whole)
  }

  predicate OwnPenalties(m: RawMetrics, g: seq<CategoryResult>) {
    forall i :: 0 <= i < |g| ==> g[i].penalty == Penalty(g[i].name, m) || g[i].weight == 0.0
  }

  predicate EachEnds(m: RawMetrics, w: Weights, g: seq<CategoryResult>, kept: real, whole: real) {
    && |g| == 8
    && forall i :: 0 <= i < 8 ==> EndsWith(g[i], ORDER[i], Penalty(ORDER[i], m), ORDER[i] !in Dropped(m), WeightOf(w, ORDER[i]), kept, whole)
  }

  lemma AllCategories(m: RawMetrics, w: Weights, n: Weights, d: real, kept: real, whole: real)
    requires Normal(m, w, n, d) && Shared(Weighted(m, n), Dropped(m), d, kept, whole)
    ensures EachEnds(m, w, Redistributed(Weighted(m, n), Dropped(m)), kept, whole)
  {
    var g := Redistributed(Weighted(m, n), Dropped(m));
    forall i | 0 <= i < 8
      ensures EndsWith(g[i], ORDER[i], Penalty(ORDER[i], m), ORDER[i] !in Dropped(m), WeightOf(w, ORDER[i]), kept, whole)
    {
      FinalCategory(m, w, n, d, i, ORDER[i], WeightOf(w, ORDER[i]), kept, whole);
    }
  }

  predicate EachWeighed(m: RawMetrics, w: Weights, g: seq<CategoryResult>, kept: real, whole: real) {
    && |g| == 8
    && forall i :: 0 <= i < 8 ==> Weighed(g[i], ORDER[i], ORDER[i] !in Dropped(m), WeightOf(w, ORDER[i]), kept, whole)
  }

  lemma EndsWeighed(m: RawMetrics, w: Weights, g: seq<CategoryResult>, kept: real, whole: real)
    requires EachEnds(m, w, g, kept, whole)
    ensures EachWeighed(m, w, g, kept, whole)
  {
    forall i | 0 <= i < 8
      ensures Weighed(g[i], ORDER[i], ORDER[i] !in Dropped(m), WeightOf(w, ORDER[i]), kept, whole)
    {
      assert EndsWith(g[i], ORDER[i], Penalty(ORDER[i], m), ORDER[i] !in Dropped(m), WeightOf(w, ORDER[i]), kept, whole);
    }
  }

  lemma CategoryAt(m: RawMetrics, w: Weights, g: seq<CategoryResult>, kept: real, whole: real, i: nat, name: Category)
    requires EachWeighed(m, w, g, kept, whole) && i < 8 && ORDER[i] == name
    ensures Weighed(g[i], name, name !in Dropped(m), WeightOf(w, name), kept, whole)
  {
  }

  lemma NamedCategories(m: RawMetrics, w: Weights, g: seq<CategoryResult>)
    requires EachWeighed(m, w, g, CountedWeights(m, w), Whole(w))
    ensures WeighedByName(m, w, g)
  {
    var kept, whole := CountedWeights(m, w), Whole(w);
    CategoryAt(m, w, g, kept, whole, 0, Connections);
    CategoryAt(m, w, g, kept, whole, 1, Performance);
    CategoryAt(m, w, g, kept, whole, 2, Storage);
    CategoryAt(m, w, g, kept, whole, 3, Replication);
    CategoryAt(m, w, g, kept, whole, 4, Maintenance);
    CategoryAt(m, w, g, kept, whole, 5, Horizon);
    CategoryAt(m, w, g, kept, whole, 6, WalCheckpoint);
    CategoryAt(m, w, g, kept, whole, 7, Locks);
  }

  lemma OwnPenalty(m: RawMetrics, w: Weights, g: seq<CategoryResult>, kept: real, whole: real)
    requires EachEnds(m, w, g, kept, whole)
    ensures OwnPenalties(m, g)
  {
    forall i | 0 <= i < 8
      ensures g[i].penalty == Penalty(g[i].name, m) || g[i].weight == 0.0
    {
      assert EndsWith(g[i], ORDER[i], Penalty(ORDER[i], m), ORDER[i] !in Dropped(m), WeightOf(w, ORDER[i]), kept, whole);
    }
  }

  /** The categories a score is made of, each weighed under its own name, and what they take off together. */
  lemma CategoriesSpelled(m: RawMetrics, w: Weights)
    requires Valid(w) && CountedWeights(m, w) > 0.0
    ensures WeighedByName(m, w, Graded(m, w)) && OwnPenalties(m, Graded(m, w))
    ensures var g := Graded(m, w);
      Total(g) == Part(g[0]) + Part(g[1]) + Part(g[2]) + Part(g[3]) + Part(g[4]) + Part(g[5]) + Part(g[6]) + Part(g[7])
  {
    NormalizedIsNormal(m, w);
    CountedSum(m, w, Normalize(w), Scale(w), Weighted(m, Normalize(w)));
    AllCategories(m, w, Normalize(w), Scale(w), CountedWeights(m, w), Whole(w));
    EndsWeighed(m, w, Graded(m, w), CountedWeights(m, w), Whole(w));
    NamedCategories(m, w, Graded(m, w));
    OwnPenalty(m, w, Graded(m, w), CountedWeights(m, w), Whole(w));
    EightTotals(Graded(m, w));
  }

  // ----- the score

  /** Corrupt pages, a full disk, or on a primary an age at the failsafe, no cleaning, or a sequence about to run out. */
  predicate Catastrophe(m: RawMetrics) {
    || m.checksumFailuresRate > 0.0 || m.diskUsedRatio >= 0.90
    || (!m.inRecovery
        && (m.maxRelfrozenxidAge >= 1_600_000_000 || m.maxXidAge >= 1_600_000_000 || !m.autovacuumEnabled || !m.trackCountsEnabled
            || 100.0 * (1.0 - m.sequenceExhaustionMax) < m.sequenceThresholds.error))
  }

  lemma CatastropheFloors(m: RawMetrics)
    ensures CriticalCeiling(m) == if Catastrophe(m) then 30.0 else 100.0
  {
  }

  /** One hundred less what was taken off, not below nothing, at most 30 in a catastrophe, to one decimal place. */
  lemma ScoreSpelled(m: RawMetrics, w: Weights)
    ensures var left := 100.0 - Total(Graded(m, w));
      var held := if left < 0.0 then 0.0 else if left > 100.0 then 100.0 else left;
      ScoreOf(m, w) == Round1(if Catastrophe(m) && held > 30.0 then 30.0 else held)
  {
    CatastropheFloors(m);
  }

  /** Weights that are negative or all zero count as the defaults. */
  lemma DefaultsStandIn(m: RawMetrics, w: Weights)
    requires AllWeights(w) <= 0.0 || w.connections < 0.0 || w.performance < 0.0 || w.storage < 0.0 || w.replication < 0.0
      || w.maintenance < 0.0 || w.horizon < 0.0 || w.walCheckpoint < 0.0 || w.locks < 0.0
    ensures ScoreOf(m, w) == ScoreOf(m, Weights(0.15, 0.15, 0.10, 0.15, 0.15, 0.10, 0.10, 0.10))
  {
  }
}
