/**
 * Whether the score moves on what the rules report: what each rule's condition is charged,
 * that the penalties are made of these charges, and exactly where rule and charge differ.
 */
module HealthCharges {
  import opened Common
  import opened HealthMetrics
  import opened HealthPenalties
  import opened HealthRules

  /** Points the condition of a rule puts into the sum of its category. */
  function Charge(r: RuleId, m: RawMetrics): real {
    match r
    case HighConnectionRatio => if m.maxConnections == 0 then 0.0 else ConnectionUse(Ratio(m.totalConnections, m.maxConnections))
    case IdleInTransaction => if m.maxConnections == 0 then 0.0 else PerItem(m.idleInTransaction, 5.0, 30.0)
    case LongRunningTransaction => if m.maxConnections == 0 then 0.0 else LongTransaction(m.longestTransactionSeconds)
    case LowCacheHitRatio => if CacheHitRatioMeaningful(m) then CacheMiss(m.cacheHitRatio) else 0.0
    case HighMaxDeadRatio => MaxDead(m.maxDeadRatio)
    case HighAvgDeadRatio => AvgDead(m.avgDeadRatio)
    case ManyBloatedTables => PerItemOver(m.tablesHighBloat, 5, 0, 3.0, 30.0)
    case ReplicationLagTime => if m.replicaCount == 0 then 0.0 else ReplayLag(m.maxReplayLagSeconds)
    case ReplicationLagBytes => if m.replicaCount == 0 then 0.0 else LagBytes(m.maxLagBytes)
    case DisconnectedReplicas => if m.replicaCount == 0 then 0.0 else PerItemOver(m.disconnectedReplicas, 0, 0, 30.0, 60.0)
    case XidWraparoundRisk => XidAge(m.maxXidAge)
    case StaleVacuum => OverdueVacuum(m.maxOverdueVacuumAgeHours)
    case VacuumBacklog => PerItemOver(m.vacuumBacklogTables, 5, 5, 1.5, 15.0)
    case TablesNeverVacuumed => PerItemOver(m.tablesNeverVacuumed, 0, 0, 5.0, 20.0)
    case AutovacuumDisabled => if m.autovacuumEnabled then 0.0 else 100.0
    case TrackCountsDisabled => if m.trackCountsEnabled then 0.0 else 100.0
    case TablesWithAutovacuumOff => PerItemOver(m.tablesWithAutovacuumOff, 0, 0, 3.0, 15.0)
    case RelfrozenxidAgeOutlier => XidAge(m.maxRelfrozenxidAge)
    case ColdTablesMaintenance => 0.0
    case HorizonLagXids => HorizonLag(m.horizonLagXids)
    case RequestedCheckpointRatio => Checkpoints(m.timedCheckpoints, m.requestedCheckpoints)
    case TrackIoTimingDisabled => if m.trackIoTiming then 0.0 else 5.0
    case ActiveLockWaiters => Ladder(m.activeLockWaiters as real, 10.0, 3.0, 1.0, (60.0, 30.0, 10.0))
    case LongestLockWaitSeconds => LongestWait(m.longestLockWaitSeconds)
    case UngrantedLocks => Ladder(m.ungrantedLocks as real, 15.0, 5.0, 2.0, (30.0, 15.0, 5.0))
    case DeadlocksRate => Ladder(m.deadlocksTotal as real, 100.0, 10.0, 1.0, (20.0, 10.0, 3.0))
    case LockPoolSaturation => LockPool(LockSaturation(m))
    case LowHotUpdateRatio => HotUpdate(m.hotUpdateRatio)
    case HighNewpageUpdateRatio => NewpageUpdates(m.newpageUpdateRatio)
    case StalePlannerStats => PerItemOver(m.stalePlannerStatsTables, 0, 0, 2.0, 15.0)
    case WalLevelMinimalWithReplicas => if m.walLevel == Minimal && m.replicaCount > 0 then 80.0 else 0.0
    case WalLevelLogicalWithoutPublications =>
      if m.walLevel == Logical && m.logicalSlotsActive == 0 && !m.walLevelManaged then 5.0 else 0.0
    case ChecksumFailures => 0.0
    case HostCpuSaturation =>
      if m.numVcpu > 0.0 then Ladder(Saturation(m.loadAvg15, m.numVcpu), 4.0, 2.0, 1.0, (60.0, 30.0, 10.0)) else 0.0
    case PoolerSaturation =>
      if m.poolerPoolSize > 0.0
      then Ladder(Saturation(m.poolerServerConns, m.poolerPoolSize), 0.8, 0.6, 0.5, (30.0, 15.0, 5.0)) else 0.0
    case SequenceExhaustion => 0.0
    case LatencyRegression => Ladder(m.latencyRegressionRatio, 6.0, 3.0, 1.5, (50.0, 30.0, 10.0))
    case SeqScanRegression => Ladder(m.seqScanRegressionRatio, 6.0, 3.0, 1.5, (40.0, 25.0, 10.0))
    case HostDiskSpace => Ladder(m.diskUsedRatio, DISK_USED_CRITICAL, 0.80, 0.70, (80.0, 30.0, 10.0))
  }

  // ----- the penalties are made of the charges

  /** The rules whose charges a category's own penalty function sums up; of the two xid ages only the larger counts. */
  function Summed(c: Category, m: RawMetrics): seq<RuleId> {
    match c
    case Connections => [HighConnectionRatio, IdleInTransaction, LongRunningTransaction]
    case Performance => [LowCacheHitRatio]
    case Storage => [HighMaxDeadRatio, HighAvgDeadRatio, ManyBloatedTables, HighNewpageUpdateRatio]
    case Replication => [ReplicationLagTime, ReplicationLagBytes, DisconnectedReplicas]
    case Maintenance =>
      [OlderRule(m), StaleVacuum, VacuumBacklog, TablesNeverVacuumed, TablesWithAutovacuumOff, StalePlannerStats]
    case Horizon => [HorizonLagXids]
    case WalCheckpoint => [RequestedCheckpointRatio]
    case Locks => [ActiveLockWaiters, LongestLockWaitSeconds, UngrantedLocks, LockPoolSaturation, DeadlocksRate]
  }

  function OlderRule(m: RawMetrics): RuleId {
    if m.maxRelfrozenxidAge >= m.maxXidAge then RelfrozenxidAgeOutlier else XidWraparoundRisk
  }

  /** The rules whose charges are added for the instance. */
  function Added(c: Category): seq<RuleId> {
    match c
    case Connections => [HostCpuSaturation, PoolerSaturation]
    case Performance => [TrackIoTimingDisabled, LatencyRegression, SeqScanRegression]
    case Storage => [LowHotUpdateRatio, HostDiskSpace]
    case Maintenance => [AutovacuumDisabled, TrackCountsDisabled]
    case WalCheckpoint => [WalLevelMinimalWithReplicas, WalLevelLogicalWithoutPublications]
    case _ => []
  }

  function Sum(rules: seq<RuleId>, m: RawMetrics): real {
    if rules == [] then 0.0 else Sum(rules[..|rules| - 1], m) + Charge(rules[|rules| - 1], m)
  }

  lemma SumOne(rules: seq<RuleId>, a: RuleId, m: RawMetrics)
    requires rules == [a]
    ensures Sum(rules, m) == Charge(a, m)
  {
    assert rules[..0] == [];
  }

  lemma SumTwo(rules: seq<RuleId>, a: RuleId, b: RuleId, m: RawMetrics)
    requires rules == [a, b]
    ensures Sum(rules, m) == Charge(a, m) + Charge(b, m)
  {
    SumOne(rules[..1], a, m);
  }

  lemma SumThree(rules: seq<RuleId>, a: RuleId, b: RuleId, c: RuleId, m: RawMetrics)
    requires rules == [a, b, c]
    ensures Sum(rules, m) == Charge(a, m) + Charge(b, m) + Charge(c, m)
  {
    SumTwo(rules[..2], a, b, m);
  }

  lemma SumFour(rules: seq<RuleId>, a: RuleId, b: RuleId, c: RuleId, d: RuleId, m: RawMetrics)
    requires rules == [a, b, c, d]
    ensures Sum(rules, m) == Charge(a, m) + Charge(b, m) + Charge(c, m) + Charge(d, m)
  {
    SumThree(rules[..3], a, b, c, m);
  }

  lemma SumFive(rules: seq<RuleId>, a: RuleId, b: RuleId, c: RuleId, d: RuleId, e: RuleId, m: RawMetrics)
    requires rules == [a, b, c, d, e]
    ensures Sum(rules, m) == Charge(a, m) + Charge(b, m) + Charge(c, m) + Charge(d, m) + Charge(e, m)
  {
    SumFour(rules[..4], a, b, c, d, m);
  }

  lemma SumSix(rules: seq<RuleId>, a: RuleId, b: RuleId, c: RuleId, d: RuleId, e: RuleId, f: RuleId, m: RawMetrics)
    requires rules == [a, b, c, d, e, f]
    ensures Sum(rules, m) == Charge(a, m) + Charge(b, m) + Charge(c, m) + Charge(d, m) + Charge(e, m) + Charge(f, m)
  {
    SumFive(rules[..5], a, b, c, d, e, m);
  }

  lemma ConnectionsAreCharges(m: RawMetrics, rules: seq<RuleId>)
    requires rules == [HighConnectionRatio, IdleInTransaction, LongRunningTransaction]
    ensures PenaltyConnections(m) == Round1(Cap(Sum(rules, m)))
  {
    SumThree(rules, rules[0], rules[1], rules[2], m);
    NothingCapped();
  }

  lemma PerformanceIsCharges(m: RawMetrics, rules: seq<RuleId>)
    requires rules == [LowCacheHitRatio]
    ensures PenaltyPerformance(m) == Round1(Cap(Sum(rules, m)))
  {
    SumOne(rules, rules[0], m);
  }

  lemma StorageIsCharges(m: RawMetrics, rules: seq<RuleId>)
    requires rules == [HighMaxDeadRatio, HighAvgDeadRatio, ManyBloatedTables, HighNewpageUpdateRatio]
    ensures PenaltyStorage(m) == Round1(Cap(Sum(rules, m)))
  {
    SumFour(rules, rules[0], rules[1], rules[2], rules[3], m);
  }

  lemma ReplicationIsCharges(m: RawMetrics, rules: seq<RuleId>)
    requires rules == [ReplicationLagTime, ReplicationLagBytes, DisconnectedReplicas]
    ensures PenaltyReplication(m) == Round1(Cap(Sum(rules, m)))
  {
    SumThree(rules, rules[0], rules[1], rules[2], m);
    NothingCapped();
  }

  lemma OlderIsCharged(m: RawMetrics)
    ensures Charge(OlderRule(m), m) == XidAge(MaxAge(m.maxRelfrozenxidAge, m.maxXidAge))
    ensures Charge(XidWraparoundRisk, m) <= Charge(OlderRule(m), m) && Charge(RelfrozenxidAgeOutlier, m) <= Charge(OlderRule(m), m)
  {
    if m.maxRelfrozenxidAge <= m.maxXidAge {
      XidAgeMonotone(m.maxRelfrozenxidAge, m.maxXidAge);
    } else {
      XidAgeMonotone(m.maxXidAge, m.maxRelfrozenxidAge);
    }
  }

  lemma MaintenanceIsCharges(m: RawMetrics, rules: seq<RuleId>)
    requires rules ==
      [OlderRule(m), StaleVacuum, VacuumBacklog, TablesNeverVacuumed, TablesWithAutovacuumOff, StalePlannerStats]
    ensures PenaltyMaintenance(m) == Round1(Cap(Sum(rules, m)))
  {
    SumSix(rules, rules[0], rules[1], rules[2], rules[3], rules[4], rules[5], m);
    OlderIsCharged(m);
    assert MaintenanceSum(m) == Cap(Sum(rules, m));
  }

  lemma HorizonIsCharges(m: RawMetrics, rules: seq<RuleId>)
    requires rules == [HorizonLagXids]
    ensures PenaltyHorizon(m) == Round1(Cap(Sum(rules, m)))
  {
    SumOne(rules, rules[0], m);
  }

  lemma CheckpointsAreCharges(m: RawMetrics, rules: seq<RuleId>)
    requires rules == [RequestedCheckpointRatio]
    ensures PenaltyWalCheckpoint(m) == Round1(Cap(Sum(rules, m)))
  {
    SumOne(rules, rules[0], m);
  }

  lemma LocksAreCharges(m: RawMetrics, rules: seq<RuleId>)
    requires rules == [ActiveLockWaiters, LongestLockWaitSeconds, UngrantedLocks, LockPoolSaturation, DeadlocksRate]
    ensures PenaltyLocks(m) == Round1(Cap(Sum(rules, m)))
  {
    SumFive(rules, rules[0], rules[1], rules[2], rules[3], rules[4], m);
  }

  lemma NothingCapped()
    ensures Round1(Cap(0.0)) == 0.0
  {
  }

  lemma BaseIsCharges(c: Category, m: RawMetrics, rules: seq<RuleId>)
    requires rules == Summed(c, m)
    ensures Base(c, m) == Round1(Cap(Sum(rules, m)))
  {
    match c
    case Connections => ConnectionsAreCharges(m, rules);
    case Performance => PerformanceIsCharges(m, rules);
    case Storage => StorageIsCharges(m, rules);
    case Replication => ReplicationIsCharges(m, rules);
    case Maintenance => MaintenanceIsCharges(m, rules);
    case Horizon => HorizonIsCharges(m, rules);
    case WalCheckpoint => CheckpointsAreCharges(m, rules);
    case Locks => LocksAreCharges(m, rules);
  }

  lemma ConnectionsExtra(m: RawMetrics, rules: seq<RuleId>)
    requires rules == [HostCpuSaturation, PoolerSaturation]
    ensures Extra(Connections, m) == Sum(rules, m)
  {
    SumTwo(rules, rules[0], rules[1], m);
  }

  lemma PerformanceExtra(m: RawMetrics, rules: seq<RuleId>)
    requires rules == [TrackIoTimingDisabled, LatencyRegression, SeqScanRegression]
    ensures Extra(Performance, m) == Sum(rules, m)
  {
    SumThree(rules, rules[0], rules[1], rules[2], m);
  }

  lemma StorageExtra(m: RawMetrics, rules: seq<RuleId>)
    requires rules == [LowHotUpdateRatio, HostDiskSpace]
    ensures Extra(Storage, m) == Sum(rules, m)
  {
    SumTwo(rules, rules[0], rules[1], m);
  }

  lemma MaintenanceExtra(m: RawMetrics, rules: seq<RuleId>)
    requires rules == [AutovacuumDisabled, TrackCountsDisabled]
    ensures Extra(Maintenance, m) == Sum(rules, m)
  {
    SumTwo(rules, rules[0], rules[1], m);
  }

  lemma WalExtra(m: RawMetrics, rules: seq<RuleId>)
    requires rules == [WalLevelMinimalWithReplicas, WalLevelLogicalWithoutPublications]
    ensures Extra(WalCheckpoint, m) == Sum(rules, m)
  {
    SumTwo(rules, rules[0], rules[1], m);
  }

  lemma ExtraIsCharges(c: Category, m: RawMetrics, rules: seq<RuleId>)
    requires rules == Added(c)
    ensures Extra(c, m) == Sum(rules, m)
  {
    match c
    case Connections => ConnectionsExtra(m, rules);
    case Performance => PerformanceExtra(m, rules);
    case Storage => StorageExtra(m, rules);
    case Maintenance => MaintenanceExtra(m, rules);
    case WalCheckpoint => WalExtra(m, rules);
    case _ =>
  }

  /** A category's penalty is the charges of its rules: summed, capped and rounded, with the instance's added. */
  lemma PenaltyIsCharges(c: Category, m: RawMetrics)
    ensures Penalty(c, m) == Round1(Cap(Round1(Cap(Sum(Summed(c, m), m))) + Sum(Added(c), m)))
  {
    BaseIsCharges(c, m, Summed(c, m));
    ExtraIsCharges(c, m, Added(c));
  }

  lemma RoundWhole(k: int)
    ensures RoundAway(k as real) == k
  {
  }

  lemma Round1Twice(x: real)
    ensures Round1(Round1(x)) == Round1(x)
  {
    var k := RoundAway(x * 10.0);
    RoundWhole(k);
    TenTenths(k as real);
  }

  lemma TenTenths(x: real)
    ensures x / 10.0 * 10.0 == x
  {
  }

  predicate Charged(rules: seq<RuleId>, m: RawMetrics) {
    forall r :: r in rules ==> Charge(r, m) >= 0.0
  }

  lemma {:induction false} ChargeInSum(rules: seq<RuleId>, m: RawMetrics)
    requires Charged(rules, m)
    ensures Sum(rules, m) >= 0.0 && forall r :: r in rules ==> Charge(r, m) <= Sum(rules, m)
  {
    if rules != [] {
      var front := rules[..|rules| - 1];
      assert rules == front + [rules[|rules| - 1]];
      ChargeInSum(front, m);
    }
  }

  lemma {:induction false} NoCharges(rules: seq<RuleId>, m: RawMetrics)
    requires forall r :: r in rules ==> Charge(r, m) == 0.0
    ensures Sum(rules, m) == 0.0
  {
    if rules != [] {
      var front := rules[..|rules| - 1];
      assert rules == front + [rules[|rules| - 1]];
      NoCharges(front, m);
    }
  }

  /** Which rules have no charge in the code at all. */
  predicate NeverCharged(r: RuleId) {
    r in {ColdTablesMaintenance, ChecksumFailures, SequenceExhaustion}
  }

  /** Every charged rule is summed or added in its own category, the younger xid age behind the older. */
  lemma EveryRuleCounts(r: RuleId, m: RawMetrics)
    ensures var c := CategoryOf(r);
      NeverCharged(r) || r in Summed(c, m) || r in Added(c) || (r in {XidWraparoundRisk, RelfrozenxidAgeOutlier} && OlderRule(m) in Summed(c, m))
  {
  }

  lemma OwnSummed(c: Category, m: RawMetrics, r: RuleId)
    requires r in Summed(c, m)
    ensures CategoryOf(r) == c
  {
  }

  lemma OwnAdded(c: Category, r: RuleId)
    requires r in Added(c)
    ensures CategoryOf(r) == c
  {
  }

  lemma ChargeNotNegative(r: RuleId, m: RawMetrics)
    requires m.maxDeadRatio >= 0.0
    ensures Charge(r, m) >= 0.0
  {
    if r == RequestedCheckpointRatio {
      CheckpointsMonotone(m.timedCheckpoints, m.requestedCheckpoints, m.timedCheckpoints, m.requestedCheckpoints);
    }
  }

  lemma AllNotNegative(rules: seq<RuleId>, m: RawMetrics)
    requires m.maxDeadRatio >= 0.0
    ensures Charged(rules, m)
  {
    forall r | r in rules
      ensures Charge(r, m) >= 0.0
    {
      ChargeNotNegative(r, m);
    }
  }

  lemma ChargeInCategory(r: RuleId, m: RawMetrics)
    requires m.maxDeadRatio >= 0.0
    ensures IsPart(Charge(r, m), Sum(Summed(CategoryOf(r), m), m), Sum(Added(CategoryOf(r)), m))
  {
    var own, added := Summed(CategoryOf(r), m), Added(CategoryOf(r));
    AllNotNegative(own, m);
    AllNotNegative(added, m);
    ChargeInSum(own, m);
    ChargeInSum(added, m);
    ChargeNotNegative(r, m);
    EveryRuleCounts(r, m);
    if r !in own && r !in added && !NeverCharged(r) {
      OlderIsCharged(m);
    }
  }

  predicate IsPart(x: real, own: real, added: real) {
    0.0 <= x && 0.0 <= own && 0.0 <= added && (x <= own || x <= added)
  }

  /** What is charged shows: the category's penalty is at least the charge, up to the cap and one decimal place. */
  lemma ChargeShows(r: RuleId, m: RawMetrics)
    requires m.maxDeadRatio >= 0.0
    ensures Penalty(CategoryOf(r), m) >= Round1(Cap(Charge(r, m)))
    ensures Charge(r, m) >= 0.05 ==> Penalty(CategoryOf(r), m) > 0.0
  {
    var c := CategoryOf(r);
    ChargeInCategory(r, m);
    PenaltyIsCharges(c, m);
    PartShows(Charge(r, m), Sum(Summed(c, m), m), Sum(Added(c), m));
  }

  lemma PartShows(x: real, own: real, added: real)
    requires IsPart(x, own, added)
    ensures Round1(Cap(Round1(Cap(own)) + added)) >= Round1(Cap(x))
    ensures x >= 0.05 ==> Round1(Cap(x)) > 0.0
  {
    CappedInRange(own);
    CappedInRange(x);
    if x <= own {
      Round1Twice(Cap(x));
      CappedMonotone(x, own);
      CappedMonotone(Round1(Cap(x)), Round1(Cap(own)) + added);
    } else {
      CappedMonotone(x, Round1(Cap(own)) + added);
    }
    if x >= 0.05 {
      HalfATenth(x);
    }
  }

  lemma HalfATenth(x: real)
    requires x >= 0.05
    ensures Round1(Cap(x)) > 0.0
  {
    CappedMonotone(0.05, x);
    assert RoundAway(0.5) == 1;
  }

  /** A category costs nothing when its rules report nothing, or only in their gaps, and nothing is charged early. */
  lemma NothingReportedNothingCharged(c: Category, m: RawMetrics)
    requires m.maxDeadRatio >= 0.0
    requires forall r :: CategoryOf(r) == c ==> (Triggered(r, m).None? || InGap(r, m)) && !Early(r, m)
    ensures Penalty(c, m) == 0.0
  {
    forall r | r in Summed(c, m) || r in Added(c)
      ensures Charge(r, m) == 0.0
    {
      if r in Summed(c, m) {
        OwnSummed(c, m, r);
      } else {
        OwnAdded(c, r);
      }
      ChargedIffReported(r, m);
      ChargeNotNegative(r, m);
    }
    NoCharges(Summed(c, m), m);
    NoCharges(Added(c), m);
    PenaltyIsCharges(c, m);
    NothingCapped();
  }

  // ----- where rule and charge differ

  /** Reported but not charged: between the rule's threshold and the first point of the penalty. */
  predicate InGap(r: RuleId, m: RawMetrics) {
    match r
    case HighConnectionRatio => m.maxConnections > 0 && Ratio(m.totalConnections, m.maxConnections) == 0.60
    case IdleInTransaction => m.maxConnections == 0
    case LongRunningTransaction => m.maxConnections == 0 || m.longestTransactionSeconds == 300.0
    case HighAvgDeadRatio => m.avgDeadRatio <= 15.0
    case ManyBloatedTables => m.tablesHighBloat == 5
    case ReplicationLagTime => m.maxReplayLagSeconds == 1.0
    case ReplicationLagBytes => m.maxLagBytes <= 104_857_600
    case DisconnectedReplicas => m.replicaCount == 0
    case XidWraparoundRisk => m.maxXidAge <= XID_FREEZE_MAX_AGE
    case StaleVacuum => m.maxOverdueVacuumAgeHours == 168.0
    case RelfrozenxidAgeOutlier => m.maxRelfrozenxidAge <= XID_FREEZE_MAX_AGE
    case HorizonLagXids => m.horizonLagXids == 1_000_000
    case RequestedCheckpointRatio => 19 * m.requestedCheckpoints == m.timedCheckpoints
    case LongestLockWaitSeconds => m.longestLockWaitSeconds == 10.0
    case LockPoolSaturation => LockSaturation(m) == 0.5
    case HighNewpageUpdateRatio => m.newpageUpdateRatio == 0.05
    case ColdTablesMaintenance | ChecksumFailures | SequenceExhaustion => true
    case _ => false
  }

  /** Charged before it is reported. */
  predicate Early(r: RuleId, m: RawMetrics) {
    match r
    case IdleInTransaction => m.idleInTransaction == 1 && m.maxConnections > 0
    case HighMaxDeadRatio => 0.0 < m.maxDeadRatio < 10.0
    case StalePlannerStats => 1 <= m.stalePlannerStatsTables <= 2
    case _ => false
  }

  predicate Agrees(r: RuleId, m: RawMetrics) {
    && (Charge(r, m) > 0.0 <==> (Triggered(r, m).Some? && !InGap(r, m)) || Early(r, m))
    && !(Triggered(r, m).Some? && Early(r, m))
  }

  lemma ConnectionsAgree(r: RuleId, m: RawMetrics)
    requires CategoryOf(r) == Connections
    ensures Agrees(r, m)
  {
  }

  lemma PerformanceAgree(r: RuleId, m: RawMetrics)
    requires CategoryOf(r) == Performance
    ensures Agrees(r, m)
  {
  }

  lemma StorageAgree(r: RuleId, m: RawMetrics)
    requires CategoryOf(r) == Storage
    ensures Agrees(r, m)
  {
  }

  lemma ReplicationAgree(r: RuleId, m: RawMetrics)
    requires CategoryOf(r) == Replication
    ensures Agrees(r, m)
  {
  }

  lemma AgesAgree(r: RuleId, m: RawMetrics)
    requires r == XidWraparoundRisk || r == RelfrozenxidAgeOutlier
    ensures Agrees(r, m)
  {
  }

  lemma MaintenanceAgree(r: RuleId, m: RawMetrics)
    requires CategoryOf(r) == Maintenance && r != XidWraparoundRisk && r != RelfrozenxidAgeOutlier
    ensures Agrees(r, m)
  {
  }

  lemma HorizonAgree(r: RuleId, m: RawMetrics)
    requires CategoryOf(r) == Horizon
    ensures Agrees(r, m)
  {
  }

  lemma WalCheckpointAgree(r: RuleId, m: RawMetrics)
    requires CategoryOf(r) == WalCheckpoint
    ensures Agrees(r, m)
  {
    if m.timedCheckpoints + m.requestedCheckpoints >= 10 {
      ShareAboveFloor(m.timedCheckpoints, m.requestedCheckpoints);
      ShareBelow(m.timedCheckpoints, m.requestedCheckpoints);
    }
  }

  lemma LocksAgree(r: RuleId, m: RawMetrics)
    requires CategoryOf(r) == Locks
    ensures Agrees(r, m)
  {
  }

  /** A condition is charged exactly when its rule reports it outside the gap, or in the few cases charged early. */
  lemma ChargedIffReported(r: RuleId, m: RawMetrics)
    ensures Charge(r, m) > 0.0 <==> (Triggered(r, m).Some? && !InGap(r, m)) || Early(r, m)
    ensures !(Triggered(r, m).Some? && Early(r, m))
  {
    if r == XidWraparoundRisk || r == RelfrozenxidAgeOutlier {
      AgesAgree(r, m);
    } else {
      match CategoryOf(r)
      case Connections => ConnectionsAgree(r, m);
      case Performance => PerformanceAgree(r, m);
      case Storage => StorageAgree(r, m);
      case Replication => ReplicationAgree(r, m);
      case Maintenance => MaintenanceAgree(r, m);
      case Horizon => HorizonAgree(r, m);
      case WalCheckpoint => WalCheckpointAgree(r, m);
      case Locks => LocksAgree(r, m);
    }
    assert Agrees(r, m);
  }

  /** A table average of 10% dead tuples is reported, and charged nothing. */
  lemma ReportedNotCharged(m: RawMetrics)
    requires m.avgDeadRatio == 10.0
    ensures Reported(HighAvgDeadRatio, m, false) && Triggered(HighAvgDeadRatio, m) == Some(Low) && Charge(HighAvgDeadRatio, m) == 0.0
  {
  }
}
