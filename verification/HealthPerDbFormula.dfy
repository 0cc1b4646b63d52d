/** The score of one database spelled out: its own readings, the charges of the rules over them, three weights by name. */
module HealthPerDbFormula {
  import opened Common
  import opened HealthMetrics
  import opened HealthPenalties
  import opened HealthScore
  import opened HealthRules
  import opened HealthCharges
  import opened HealthFormula
  import opened HealthPerDb

  /** The instance reads, of these metrics, what the database does. */
  predicate Readings(d: PerDbMetrics, m: RawMetrics) {
    && m.cacheHitRatio == d.cacheHitRatio && m.cacheSampleBlocks == d.cacheSampleBlocks
    && m.maxDeadRatio == d.maxDeadRatio && m.avgDeadRatio == d.avgDeadRatio && m.tablesHighBloat == d.tablesHighBloat
    && m.hotUpdateRatio == d.hotUpdateRatio && m.newpageUpdateRatio == d.newpageUpdateRatio
    && m.maxXidAge == d.maxXidAge && m.vacuumBacklogTables == d.vacuumBacklogTables
    && m.maxOverdueVacuumAgeHours == d.maxOverdueVacuumAgeHours && m.tablesNeverVacuumed == d.tablesNeverVacuumed
  }

  lemma SameCharge(d: PerDbMetrics, m: RawMetrics, r: RuleId)
    requires Readings(d, m)
    requires r in {LowCacheHitRatio, HighMaxDeadRatio, HighAvgDeadRatio, ManyBloatedTables, HighNewpageUpdateRatio,
                   LowHotUpdateRatio, XidWraparoundRisk, StaleVacuum, VacuumBacklog, TablesNeverVacuumed}
    ensures Charge(r, RawOf(d)) == Charge(r, m)
  {
  }

  lemma NotRead(d: PerDbMetrics)
    ensures Charge(TablesWithAutovacuumOff, RawOf(d)) == 0.0 && Charge(StalePlannerStats, RawOf(d)) == 0.0
    ensures Charge(OlderRule(RawOf(d)), RawOf(d)) == Charge(XidWraparoundRisk, RawOf(d))
  {
    assert RawOf(d).maxRelfrozenxidAge == 0;
  }

  /** What a database is charged for is what the instance would be for the same readings, and nothing else. */
  lemma PerDbPenaltySpelled(d: PerDbMetrics, m: RawMetrics, inRecovery: bool)
    requires Readings(d, m)
    ensures PerDbPenalty(Performance, d, inRecovery) == Round1(AtMost100(Charge(LowCacheHitRatio, m)))
    ensures PerDbPenalty(Storage, d, inRecovery) ==
      AtMost100(Round1(AtMost100(Charge(HighMaxDeadRatio, m) + Charge(HighAvgDeadRatio, m) + Charge(ManyBloatedTables, m)
                                 + Charge(HighNewpageUpdateRatio, m))) + Charge(LowHotUpdateRatio, m))
    ensures PerDbPenalty(Maintenance, d, inRecovery) ==
      if inRecovery then 0.0
      else Round1(AtMost100(Charge(XidWraparoundRisk, m) + Charge(StaleVacuum, m) + Charge(VacuumBacklog, m) + Charge(TablesNeverVacuumed, m)))
  {
    PerformanceSpelled(d, m);
    StorageSpelled(d, m);
    MaintenanceSpelled(d, m);
    SameCharge(d, m, LowHotUpdateRatio);
    assert Charge(LowHotUpdateRatio, m) == HotUpdate(d.hotUpdateRatio);
  }

  lemma PerformanceSpelled(d: PerDbMetrics, m: RawMetrics)
    requires Readings(d, m)
    ensures Base(Performance, RawOf(d)) == Round1(AtMost100(Charge(LowCacheHitRatio, m)))
  {
    var own := Summed(Performance, RawOf(d));
    BaseIsCharges(Performance, RawOf(d), own);
    SumOne(own, own[0], RawOf(d));
    SameCharge(d, m, LowCacheHitRatio);
  }

  lemma StorageSpelled(d: PerDbMetrics, m: RawMetrics)
    requires Readings(d, m)
    ensures Base(Storage, RawOf(d)) ==
      Round1(AtMost100(Charge(HighMaxDeadRatio, m) + Charge(HighAvgDeadRatio, m) + Charge(ManyBloatedTables, m) + Charge(HighNewpageUpdateRatio, m)))
  {
    var own := Summed(Storage, RawOf(d));
    BaseIsCharges(Storage, RawOf(d), own);
    SumFour(own, own[0], own[1], own[2], own[3], RawOf(d));
    SameCharge(d, m, HighMaxDeadRatio);
    SameCharge(d, m, HighAvgDeadRatio);
    SameCharge(d, m, ManyBloatedTables);
    SameCharge(d, m, HighNewpageUpdateRatio);
  }

  lemma MaintenanceSpelled(d: PerDbMetrics, m: RawMetrics)
    requires Readings(d, m)
    ensures Base(Maintenance, RawOf(d)) ==
      Round1(AtMost100(Charge(XidWraparoundRisk, m) + Charge(StaleVacuum, m) + Charge(VacuumBacklog, m) + Charge(TablesNeverVacuumed, m)))
  {
    var own := Summed(Maintenance, RawOf(d));
    BaseIsCharges(Maintenance, RawOf(d), own);
    SumSix(own, own[0], own[1], own[2], own[3], own[4], own[5], RawOf(d));
    NotRead(d);
    SameCharge(d, m, XidWraparoundRisk);
    SameCharge(d, m, StaleVacuum);
    SameCharge(d, m, VacuumBacklog);
    SameCharge(d, m, TablesNeverVacuumed);
  }

  /** The weights that count for a database. */
  function PerDbCounted(w: Weights, inRecovery: bool): real {
    w.performance + w.storage + (if inRecovery then 0.0 else w.maintenance)
  }

  /** One, or what the counted weights make up when that is close enough. */
  function PerDbWhole(w: Weights, inRecovery: bool): real {
    var kept := PerDbCounted(w, inRecovery);
    if -0.000000001 < kept - 1.0 < 0.000000001 then kept else 1.0
  }

  lemma Shared(x: real, y: real, kept: real, whole: real)
    requires kept > 0.0 && y == (if kept == whole then x else x / kept) && (kept == whole || whole == 1.0)
    ensures HealthFormula.Share(y, x, kept, whole)
  {
    Divided(x, kept);
  }

  /** Each weight counts as its share of those that count; with none of them the defaults do. */
  lemma PerDbWeightsSpelled(w: Weights, inRecovery: bool)
    ensures var p, kept, whole := PerDbWeights(w, inRecovery), PerDbCounted(w, inRecovery), PerDbWhole(w, inRecovery);
      if kept > 0.0 then
        HealthFormula.Share(p.performance, w.performance, kept, whole) && HealthFormula.Share(p.storage, w.storage, kept, whole)
        && HealthFormula.Share(p.maintenance, if inRecovery then 0.0 else w.maintenance, kept, whole)
      else p == PerDbWeights(Weights(0.15, 0.15, 0.10, 0.15, 0.15, 0.10, 0.10, 0.10), inRecovery)
  {
    var p, kept, whole := PerDbWeights(w, inRecovery), PerDbCounted(w, inRecovery), PerDbWhole(w, inRecovery);
    if kept > 0.0 {
      Shared(w.performance, p.performance, kept, whole);
      Shared(w.storage, p.storage, kept, whole);
      Shared(if inRecovery then 0.0 else w.maintenance, p.maintenance, kept, whole);
    }
  }

  /** The three categories of a database, each with its own penalty and weight. */
  lemma PerDbCategoriesSpelled(d: PerDbMetrics, p: Weights, inRecovery: bool)
    ensures var s := PerDbCategories(d, p, inRecovery);
      && s[0].name == Performance && s[0].weight == p.performance && s[1].name == Storage && s[1].weight == p.storage
      && s[2].name == Maintenance && s[2].weight == p.maintenance
      && forall i :: 0 <= i < 3 ==> s[i].penalty == PerDbPenalty(s[i].name, d, inRecovery)
  {
  }

  lemma ScoreFrom(d: PerDbMetrics, w: Weights, inRecovery: bool, taken: real, floored: bool)
    requires taken == Total(PerDbCategories(d, PerDbWeights(w, inRecovery), inRecovery))
    requires floored <==> !inRecovery && d.maxXidAge >= 1_600_000_000
    ensures PerDbScoreOf(d, w, inRecovery) == Round1(Capped(100.0 - taken, floored))
  {
    CeilingIs(d, inRecovery, floored);
    Held(100.0 - taken, floored, MinReal(Clamp(100.0 - taken), PerDbCeiling(d, inRecovery)));
  }

  lemma Held(left: real, floored: bool, score: real)
    requires score == MinReal(Clamp(left), if floored then CRITICAL_SCORE_CEILING else 100.0)
    ensures score == Capped(left, floored)
  {
  }

  /** Not below nothing, not above one hundred, at most 30 when floored. */
  function Capped(left: real, floored: bool): real {
    if left < 0.0 then 0.0 else if floored && left > 30.0 then 30.0 else if left > 100.0 then 100.0 else left
  }

  lemma PartsTotal(s: seq<CategoryResult>, taken: real)
    requires |s| == 3 && taken == Part(s[0]) + Part(s[1]) + Part(s[2])
    ensures taken == Total(s)
  {
    ThreeTotal(s);
  }

  /** One hundred less what the three take off; at most 30 at the failsafe age of a primary; to one decimal place. */
  lemma PerDbScoreSpelled(d: PerDbMetrics, w: Weights, inRecovery: bool, s: seq<CategoryResult>, taken: real, floored: bool)
    requires s == PerDbCategories(d, PerDbWeights(w, inRecovery), inRecovery) && taken == Part(s[0]) + Part(s[1]) + Part(s[2])
    requires floored <==> !inRecovery && d.maxXidAge >= 1_600_000_000
    ensures PerDbScoreOf(d, w, inRecovery) == Round1(Capped(100.0 - taken, floored))
  {
    PartsTotal(s, taken);
    ScoreFrom(d, w, inRecovery, taken, floored);
  }

  lemma CeilingIs(d: PerDbMetrics, inRecovery: bool, floored: bool)
    requires floored <==> !inRecovery && d.maxXidAge >= 1_600_000_000
    ensures PerDbCeiling(d, inRecovery) == if floored then CRITICAL_SCORE_CEILING else 100.0
  {
  }
}
