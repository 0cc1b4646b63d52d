/** The score of one database: the three categories that mean something there, reweighted. */
module HealthPerDb {
  import opened Common
  import opened HealthMetrics
  import opened HealthPenalties
  import opened HealthScore
  import opened HealthEngine

  datatype PerDbMetrics = PerDbMetrics(
    database: string, sizeBytes: nat, cacheHitRatio: real, cacheSampleBlocks: nat,
    maxDeadRatio: real, avgDeadRatio: real, tablesHighBloat: nat, hotUpdateRatio: real, newpageUpdateRatio: real,
    maxXidAge: nat, vacuumBacklogTables: nat, maxOverdueVacuumAgeHours: real, tablesNeverVacuumed: nat)

  datatype DatabaseScore = DatabaseScore(database: string, sizeBytes: nat, score: real, categories: seq<CategoryResult>)

  const APPLICABLE: seq<Category> := [Performance, Storage, Maintenance]

  /** The instance metrics a database's own are graded as; everything else reads as absent. */
  function RawOf(m: PerDbMetrics): RawMetrics {
    RawMetrics(false, 0, 0, 0.0, 0, m.cacheHitRatio, m.cacheSampleBlocks, false,
               m.maxDeadRatio, m.avgDeadRatio, m.tablesHighBloat, 0, 0.0, 0, 0,
               m.maxXidAge, m.vacuumBacklogTables, m.maxOverdueVacuumAgeHours, m.tablesNeverVacuumed,
               false, false, 0, 0, 0, 0.0, 0, 0, 0, 0, 0, 0.0, 0, 0, 0, 0,
               m.hotUpdateRatio, m.newpageUpdateRatio, 0, Replica, 0, false,
               SequenceThresholds(5.0, 10.0, 20.0), 0.0, 0.0, 0.0, 0.0, 0.0, 0.0, 0.0, 0.0, 0.0)
  }

  // ----- weights

  function Projected(w: Weights, inRecovery: bool): Weights {
    Weights(0.0, w.performance, w.storage, 0.0, if inRecovery then 0.0 else w.maintenance, 0.0, 0.0, 0.0)
  }

  /** Weights of the applicable categories only, the defaults when none of them counts. */
  function PerDbWeights(w: Weights, inRecovery: bool): Weights {
    var own := Projected(w, inRecovery);
    Normalize(if SumOf(own) <= 0.0 then Projected(DEFAULT_WEIGHTS, inRecovery) else own)
  }

  lemma ThirdsSum(x: real, y: real, z: real, sum: real)
    requires sum > 0.0 && x + y + z == sum
    ensures x / sum + y / sum + z / sum == 1.0 && 0.0 / sum == 0.0
  {
    assert (x + y + z) / sum == 1.0;
  }

  /** Whatever the weights given, the ones used sum to one, and only applicable categories have any. */
  lemma PerDbWeightsSumToOne(w: Weights, inRecovery: bool)
    ensures var p := PerDbWeights(w, inRecovery);
      && Abs(p.performance + p.storage + p.maintenance - 1.0) < WEIGHT_TOLERANCE
      && p.connections == p.replication == p.horizon == p.walCheckpoint == p.locks == 0.0
      && (inRecovery ==> p.maintenance == 0.0)
  {
    var own := Projected(w, inRecovery);
    var base := if SumOf(own) <= 0.0 then Projected(DEFAULT_WEIGHTS, inRecovery) else own;
    ThirdsSum(base.performance, base.storage, base.maintenance, SumOf(base));
  }

  /** No applicable weight is negative, or none counts and the defaults stand in. */
  predicate Usable(w: Weights, inRecovery: bool) {
    SumOf(Projected(w, inRecovery)) <= 0.0 || NonNegative(Projected(w, inRecovery))
  }

  lemma PerDbWeightsNonNegative(w: Weights, inRecovery: bool)
    requires Usable(w, inRecovery)
    ensures NonNegative(PerDbWeights(w, inRecovery))
  {
    var own := Projected(w, inRecovery);
    var base := if SumOf(own) <= 0.0 then Projected(DEFAULT_WEIGHTS, inRecovery) else own;
    QuotientSign(base.performance, SumOf(base));
    QuotientSign(base.storage, SumOf(base));
    QuotientSign(base.maintenance, SumOf(base));
    QuotientSign(0.0, SumOf(base));
  }

  // ----- the score

  function PerDbPenalty(c: Category, m: PerDbMetrics, inRecovery: bool): real {
    if c == Storage then Cap(Base(Storage, RawOf(m)) + HotUpdate(m.hotUpdateRatio))
    else if c == Maintenance && inRecovery then 0.0
    else Base(c, RawOf(m))
  }

  function PerDbCategories(m: PerDbMetrics, p: Weights, inRecovery: bool): (s: seq<CategoryResult>)
    ensures |s| == 3
  {
    seq(3, i requires 0 <= i < 3 =>
      CategoryResult(APPLICABLE[i], 0.0, WeightOf(p, APPLICABLE[i]), PerDbPenalty(APPLICABLE[i], m, inRecovery)))
  }

  function PerDbCeiling(m: PerDbMetrics, inRecovery: bool): real {
    if inRecovery then 100.0 else CriticalXidCeiling(m.maxXidAge)
  }

  function PerDbScoreOf(m: PerDbMetrics, w: Weights, inRecovery: bool): real {
    Round1(MinReal(Clamp(100.0 - Total(PerDbCategories(m, PerDbWeights(w, inRecovery), inRecovery))), PerDbCeiling(m, inRecovery)))
  }

  predicate PerDbWorse(a: PerDbMetrics, b: PerDbMetrics) {
    && a.cacheSampleBlocks == b.cacheSampleBlocks && b.cacheHitRatio <= a.cacheHitRatio
    && a.maxDeadRatio <= b.maxDeadRatio && a.avgDeadRatio <= b.avgDeadRatio && a.tablesHighBloat <= b.tablesHighBloat
    && b.hotUpdateRatio <= a.hotUpdateRatio && a.newpageUpdateRatio <= b.newpageUpdateRatio
    && a.maxXidAge <= b.maxXidAge && a.vacuumBacklogTables <= b.vacuumBacklogTables
    && a.maxOverdueVacuumAgeHours <= b.maxOverdueVacuumAgeHours && a.tablesNeverVacuumed <= b.tablesNeverVacuumed
  }

  lemma PerDbPenaltyAntitone(c: Category, a: PerDbMetrics, b: PerDbMetrics, inRecovery: bool)
    requires PerDbWorse(a, b) && c in APPLICABLE
    ensures PerDbPenalty(c, a, inRecovery) <= PerDbPenalty(c, b, inRecovery)
  {
    PerformanceAntitone(RawOf(a), RawOf(b));
    StorageAntitone(RawOf(a), RawOf(b));
    MaintenanceAntitone(RawOf(a), RawOf(b));
  }

  /** A database's score never rises when one of its metrics gets worse. */
  lemma PerDbScoreAntitone(a: PerDbMetrics, b: PerDbMetrics, w: Weights, inRecovery: bool)
    requires PerDbWorse(a, b) && Usable(w, inRecovery)
    ensures PerDbScoreOf(b, w, inRecovery) <= PerDbScoreOf(a, w, inRecovery)
  {
    var p := PerDbWeights(w, inRecovery);
    var s, t := PerDbCategories(a, p, inRecovery), PerDbCategories(b, p, inRecovery);
    PerDbWeightsNonNegative(w, inRecovery);
    forall i | 0 <= i < 3
      ensures s[i].name == t[i].name && s[i].weight == t[i].weight >= 0.0 && s[i].penalty <= t[i].penalty
    {
      PerDbPenaltyAntitone(APPLICABLE[i], a, b, inRecovery);
    }
    TotalMonotone(s, t);
    ClampedAntitone(Total(s), Total(t), PerDbCeiling(a, inRecovery), PerDbCeiling(b, inRecovery));
  }

  /** Half the storage weight taken off performance: a cold cache raises the score from 40 to 90. */
  lemma NegativeWeightHelps(w: Weights, a: PerDbMetrics, b: PerDbMetrics)
    requires w == Weights(0.0, -0.5, 1.5, 0.0, 0.0, 0.0, 0.0, 0.0)
    requires a == PerDbMetrics("", 0, 100.0, 0, 40.0, 0.0, 0, 1.0, 0.0, 0, 0, 0.0, 0) && b == a.(cacheHitRatio := 75.0)
    ensures !Usable(w, true) && PerDbWorse(a, b)
    ensures PerDbScoreOf(a, w, true) == 40.0 && PerDbScoreOf(b, w, true) == 90.0
  {
    assert PerDbWeights(w, true) == w;
    PenaltiesOfTwo(a, 0.0);
    PenaltiesOfTwo(b, 100.0);
    ThreeTotal(PerDbCategories(a, w, true));
    ThreeTotal(PerDbCategories(b, w, true));
    assert RoundAway(400.0) == 400 && RoundAway(900.0) == 900;
  }

  lemma PenaltiesOfTwo(m: PerDbMetrics, miss: real)
    requires m.cacheSampleBlocks == 0 && CacheMiss(m.cacheHitRatio) == miss && miss in {0.0, 100.0}
    requires m.maxDeadRatio == 40.0 && m.avgDeadRatio == 0.0 && m.tablesHighBloat == 0 && m.hotUpdateRatio == 1.0 && m.newpageUpdateRatio == 0.0
    ensures PerDbPenalty(Performance, m, true) == miss && PerDbPenalty(Storage, m, true) == 40.0
    ensures PerDbPenalty(Maintenance, m, true) == 0.0
  {
    assert RoundAway(0.0) == 0 && RoundAway(1000.0) == 1000 && RoundAway(400.0) == 400;
  }

  lemma ThreeTotal(s: seq<CategoryResult>)
    requires |s| == 3
    ensures Total(s) == s[0].penalty * s[0].weight + s[1].penalty * s[1].weight + s[2].penalty * s[2].weight
  {
    assert s[..2][..1] == s[..1] && s[..1][..0] == [];
    assert Total(s[..1]) == s[0].penalty * s[0].weight;
    assert Total(s[..2]) == Total(s[..1]) + s[1].penalty * s[1].weight;
  }

  lemma PerDbPenaltyInRange(c: Category, m: PerDbMetrics, inRecovery: bool)
    requires m.maxDeadRatio >= 0.0 && c in APPLICABLE
    ensures 0.0 <= PerDbPenalty(c, m, inRecovery) <= 100.0
  {
    BaseInRange(c, RawOf(m));
  }

  lemma PerDbScoreInRange(m: PerDbMetrics, w: Weights, inRecovery: bool)
    ensures 0.0 <= PerDbScoreOf(m, w, inRecovery) <= 100.0
    ensures !inRecovery && m.maxXidAge >= XID_FAILSAFE_AGE ==> PerDbScoreOf(m, w, inRecovery) <= CRITICAL_SCORE_CEILING
  {
    Round1Between(MinReal(Clamp(100.0 - Total(PerDbCategories(m, PerDbWeights(w, inRecovery), inRecovery))), PerDbCeiling(m, inRecovery)));
  }

  // ----- the code

  method ScoreDatabase(m: PerDbMetrics, p: Weights, inRecovery: bool) returns (r: DatabaseScore)
    ensures r.database == m.database && r.sizeBytes == m.sizeBytes
    ensures r.categories == Scored(PerDbCategories(m, p, inRecovery))
    ensures r.score == Round1(MinReal(Clamp(100.0 - Total(PerDbCategories(m, p, inRecovery))), PerDbCeiling(m, inRecovery)))
  {
    var raw := RawOf(m);
    var cats := new CategoryResult[3](i requires 0 <= i < 3 =>
      CategoryResult(APPLICABLE[i], 0.0, WeightOf(DEFAULT_WEIGHTS, APPLICABLE[i]), Base(APPLICABLE[i], raw)));
    FirstOfIs(cats[..], Storage, 1);
    AddPenalty(cats, Storage, HotUpdate(m.hotUpdateRatio));
    assert forall i :: 0 <= i < 3 ==> cats[i] == cats[..][i];
    if inRecovery {
      cats[2] := cats[2].(penalty := 0.0);
    }
    AssignWeights(cats, p);
    assert cats[..] == PerDbCategories(m, p, inRecovery);
    var total := SumPenalties(cats);
    var score := MaxReal(0.0, MinReal(100.0, 100.0 - total));
    if !inRecovery {
      var c := CriticalXidCeiling(m.maxXidAge);
      if c < score {
        score := c;
      }
    }
    r := DatabaseScore(m.database, m.sizeBytes, Round1(score), cats[..]);
  }

  method ComputePerDb(metrics: seq<PerDbMetrics>, w: Weights, inRecovery: bool) returns (result: seq<DatabaseScore>)
    ensures |result| == |metrics|
    ensures forall i :: 0 <= i < |metrics| ==> result[i].database == metrics[i].database && result[i].sizeBytes == metrics[i].sizeBytes
    ensures forall i :: 0 <= i < |metrics| ==> result[i].score == PerDbScoreOf(metrics[i], w, inRecovery)
  {
    var p := PerDbWeights(w, inRecovery);
    result := [];
    for i := 0 to |metrics|
      invariant |result| == i
      invariant forall j :: 0 <= j < i ==> result[j].database == metrics[j].database && result[j].sizeBytes == metrics[j].sizeBytes
      invariant forall j :: 0 <= j < i ==> result[j].score == PerDbScoreOf(metrics[j], w, inRecovery)
    {
      var r := ScoreDatabase(metrics[i], p, inRecovery);
      result := result + [r];
    }
  }

  /** The first database with the lowest score. */
  method WorstDatabase(scores: seq<DatabaseScore>) returns (worst: Option<DatabaseScore>, ghost k: nat)
    ensures worst.None? <==> scores == []
    ensures worst.Some? ==> k < |scores| && worst.value == scores[k]
    ensures worst.Some? ==> forall j :: 0 <= j < |scores| ==> worst.value.score <= scores[j].score
    ensures worst.Some? ==> forall j :: 0 <= j < k ==> worst.value.score < scores[j].score
  {
    k := 0;
    if |scores| == 0 {
      return None, 0;
    }
    var w := scores[0];
    for i := 1 to |scores|
      invariant k < i && w == scores[k]
      invariant forall j :: 0 <= j < i ==> w.score <= scores[j].score
      invariant forall j :: 0 <= j < k ==> w.score < scores[j].score
    {
      if scores[i].score < w.score {
        w, k := scores[i], i;
      }
    }
    worst := Some(w);
  }
}
