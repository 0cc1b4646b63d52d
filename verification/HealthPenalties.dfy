/**
 * The penalty of each category, and that it only grows when a graded metric gets worse:
 * across every breakpoint, cap and rounding. Values are exact reals.
 */
module HealthPenalties {
  import opened HealthMetrics
  import opened RealArithmetic

  // ----- the graded pieces

  /** Points for the share of connections in use. */
  function ConnectionUse(ratio: real): real {
    if ratio > 0.95 then 70.0 + (ratio - 0.95) / 0.05 * 30.0
    else if ratio > 0.80 then 30.0 + (ratio - 0.80) / 0.15 * 40.0
    else if ratio > 0.60 then (ratio - 0.60) / 0.20 * 30.0
    else 0.0
  }

  function LongTransaction(seconds: real): real {
    if seconds > 300.0 then MinReal((seconds - 300.0) / 60.0 * 5.0, 20.0) else 0.0
  }

  /** Points per item up to a cap. */
  function PerItem(n: nat, points: real, most: real): real {
    MinReal(n as real * points, most)
  }

  /** Points per item above a tolerated number, up to a cap. */
  function PerItemOver(n: nat, tolerated: nat, offset: nat, points: real, most: real): real
    requires offset <= tolerated
  {
    if n > tolerated then PerItem(n - offset, points, most) else 0.0
  }

  function CacheMiss(hitRatio: real): real {
    if hitRatio >= 95.0 then 0.0
    else if hitRatio >= 90.0 then (95.0 - hitRatio) / 5.0 * 20.0
    else if hitRatio >= 85.0 then 20.0 + (90.0 - hitRatio) / 5.0 * 30.0
    else 50.0 + (85.0 - hitRatio) / 10.0 * 50.0
  }

  /** The ratio rests on enough traffic to grade; no sample at all counts as enough. */
  predicate CacheHitRatioMeaningful(m: RawMetrics) {
    m.cacheSampleBlocks == 0 || m.cacheSampleBlocks >= MIN_CACHE_SAMPLE_BLOCKS
  }

  function MaxDead(ratio: real): real {
    if ratio > 30.0 then 40.0
    else if ratio > 20.0 then 20.0 + (ratio - 20.0) / 10.0 * 20.0
    else ratio / 20.0 * 20.0
  }

  function AvgDead(ratio: real): real {
    if ratio > 15.0 then MinReal((ratio - 15.0) * 2.0, 30.0) else 0.0
  }

  function NewpageUpdates(ratio: real): real {
    if ratio > 0.20 then 20.0 else if ratio > 0.10 then 10.0 else if ratio > 0.05 then 5.0 else 0.0
  }

  function ReplayLag(seconds: real): real {
    if seconds > 30.0 then 50.0
    else if seconds > 5.0 then 10.0 + (seconds - 5.0) / 25.0 * 40.0
    else if seconds > 1.0 then (seconds - 1.0) / 4.0 * 10.0
    else 0.0
  }

  function LagBytes(bytes: nat): real {
    var mb := bytes as real / 1048576.0;
    if mb > 100.0 then MinReal(mb / 10.0, 30.0) else 0.0
  }

  function XidAge(age: nat): real {
    if age > XID_FAILSAFE_AGE then
      80.0 + MinReal((age - XID_FAILSAFE_AGE) as real / (XID_SHUTDOWN_AGE - XID_FAILSAFE_AGE) as real * 20.0, 20.0)
    else if age > XID_FREEZE_MAX_AGE then
      (age - XID_FREEZE_MAX_AGE) as real / (XID_FAILSAFE_AGE - XID_FREEZE_MAX_AGE) as real * 80.0
    else 0.0
  }

  function OverdueVacuum(hours: real): real {
    if hours > 1440.0 then 30.0
    else if hours > 504.0 then MinReal(15.0 + (hours - 504.0) / 24.0 * 0.5, 30.0)
    else if hours > 168.0 then (hours - 168.0) / 24.0
    else 0.0
  }

  function HorizonLag(lag: nat): real {
    var xids := lag as real;
    if xids > 100_000_000.0 then 70.0 + MinReal((xids - 100_000_000.0) / 100_000_000.0 * 30.0, 30.0)
    else if xids > 10_000_000.0 then 30.0 + (xids - 10_000_000.0) / 90_000_000.0 * 40.0
    else if xids > 1_000_000.0 then (xids - 1_000_000.0) / 9_000_000.0 * 30.0
    else 0.0
  }

  /** Points for the share of requested checkpoints. */
  function RequestedShare(ratio: real): real {
    if ratio > 0.20 then 70.0 + MinReal((ratio - 0.20) / 0.30 * 30.0, 30.0)
    else if ratio > 0.10 then 30.0 + (ratio - 0.10) / 0.10 * 40.0
    else if ratio > 0.05 then (ratio - 0.05) / 0.05 * 30.0
    else 0.0
  }

  /** Graded only from ten checkpoints on. */
  function Checkpoints(timed: nat, requested: nat): real {
    if timed + requested >= 10 then RequestedShare(Ratio(requested, timed + requested)) else 0.0
  }

  /** A ladder of three steps for a count, the highest first. */
  function Ladder(v: real, high: real, mid: real, low: real, points: (real, real, real)): real {
    if v >= high then points.0 else if v >= mid then points.1 else if v >= low then points.2 else 0.0
  }

  function LongestWait(seconds: real): real {
    if seconds > 60.0 then 40.0 else if seconds > 30.0 then 20.0 else if seconds > 10.0 then 5.0 else 0.0
  }

  function LockPool(saturation: real): real {
    if saturation > 0.8 then 30.0 else if saturation > 0.6 then 15.0 else if saturation > 0.5 then 5.0 else 0.0
  }

  function HotUpdate(ratio: real): real {
    if ratio < 0.50 then 30.0 else if ratio < 0.65 then 15.0 else if ratio < 0.80 then 5.0 else 0.0
  }

  // ----- the penalty functions of the categories

  function PenaltyConnections(m: RawMetrics): real {
    if m.maxConnections == 0 then 0.0
    else
      Round1(Cap(ConnectionUse(Ratio(m.totalConnections, m.maxConnections))
        + PerItem(m.idleInTransaction, 5.0, 30.0) + LongTransaction(m.longestTransactionSeconds)))
  }

  function PenaltyPerformance(m: RawMetrics): real {
    Round1(Cap(if CacheHitRatioMeaningful(m) then CacheMiss(m.cacheHitRatio) else 0.0))
  }

  function PenaltyStorage(m: RawMetrics): real {
    Round1(Cap(MaxDead(m.maxDeadRatio) + AvgDead(m.avgDeadRatio)
      + PerItemOver(m.tablesHighBloat, 5, 0, 3.0, 30.0) + NewpageUpdates(m.newpageUpdateRatio)))
  }

  function PenaltyReplication(m: RawMetrics): real {
    if m.replicaCount == 0 then 0.0
    else
      Round1(Cap(ReplayLag(m.maxReplayLagSeconds) + LagBytes(m.maxLagBytes)
        + PerItemOver(m.disconnectedReplicas, 0, 0, 30.0, 60.0)))
  }

  function MaintenanceSum(m: RawMetrics): real {
    Cap(XidAge(MaxAge(m.maxRelfrozenxidAge, m.maxXidAge)) + OverdueVacuum(m.maxOverdueVacuumAgeHours)
      + PerItemOver(m.vacuumBacklogTables, 5, 5, 1.5, 15.0) + PerItemOver(m.tablesNeverVacuumed, 0, 0, 5.0, 20.0)
      + PerItemOver(m.tablesWithAutovacuumOff, 0, 0, 3.0, 15.0) + PerItemOver(m.stalePlannerStatsTables, 0, 0, 2.0, 15.0))
  }

  function PenaltyMaintenance(m: RawMetrics): real {
    Round1(MaintenanceSum(m))
  }

  function PenaltyHorizon(m: RawMetrics): real {
    Round1(Cap(HorizonLag(m.horizonLagXids)))
  }

  function PenaltyWalCheckpoint(m: RawMetrics): real {
    Round1(Cap(Checkpoints(m.timedCheckpoints, m.requestedCheckpoints)))
  }

  function LockSaturation(m: RawMetrics): real {
    if m.maxLocksPerTransaction > 0 && m.maxConnections > 0
    then m.heavyweightLocksTotal as real / (m.maxLocksPerTransaction as real * m.maxConnections as real)
    else 0.0
  }

  function PenaltyLocks(m: RawMetrics): real {
    Round1(Cap(Ladder(m.activeLockWaiters as real, 10.0, 3.0, 1.0, (60.0, 30.0, 10.0))
      + LongestWait(m.longestLockWaitSeconds) + Ladder(m.ungrantedLocks as real, 15.0, 5.0, 2.0, (30.0, 15.0, 5.0))
      + LockPool(LockSaturation(m)) + Ladder(m.deadlocksTotal as real, 100.0, 10.0, 1.0, (20.0, 10.0, 3.0))))
  }

  function Base(c: Category, m: RawMetrics): real {
    match c
    case Connections => PenaltyConnections(m)
    case Performance => PenaltyPerformance(m)
    case Storage => PenaltyStorage(m)
    case Replication => PenaltyReplication(m)
    case Maintenance => PenaltyMaintenance(m)
    case Horizon => PenaltyHorizon(m)
    case WalCheckpoint => PenaltyWalCheckpoint(m)
    case Locks => PenaltyLocks(m)
  }

  // ----- what is added for the instance

  function Saturation(used: real, size: real): real
    requires size > 0.0
  {
    used / size
  }

  /** Everything applyInstanceAdjustments adds to a category. */
  function Extra(c: Category, m: RawMetrics): real {
    match c
    case Connections =>
      (if m.numVcpu > 0.0 then Ladder(Saturation(m.loadAvg15, m.numVcpu), 4.0, 2.0, 1.0, (60.0, 30.0, 10.0)) else 0.0)
      + (if m.poolerPoolSize > 0.0
         then Ladder(Saturation(m.poolerServerConns, m.poolerPoolSize), 0.8, 0.6, 0.5, (30.0, 15.0, 5.0)) else 0.0)
    case Performance =>
      (if m.trackIoTiming then 0.0 else 5.0) + Ladder(m.latencyRegressionRatio, 6.0, 3.0, 1.5, (50.0, 30.0, 10.0))
      + Ladder(m.seqScanRegressionRatio, 6.0, 3.0, 1.5, (40.0, 25.0, 10.0))
    case Storage =>
      HotUpdate(m.hotUpdateRatio) + Ladder(m.diskUsedRatio, DISK_USED_CRITICAL, 0.80, 0.70, (80.0, 30.0, 10.0))
    case Maintenance => (if m.autovacuumEnabled then 0.0 else 100.0) + (if m.trackCountsEnabled then 0.0 else 100.0)
    case WalCheckpoint =>
      (if m.walLevel == Minimal && m.replicaCount > 0 then 80.0 else 0.0)
      + (if m.walLevel == Logical && m.logicalSlotsActive == 0 && !m.walLevelManaged then 5.0 else 0.0)
    case _ => 0.0
  }

  /** The penalty a category ends with before weights are applied. */
  function Penalty(c: Category, m: RawMetrics): real {
    Round1(Cap(Base(c, m) + Extra(c, m)))
  }

  // ----- getting worse

  /** Nothing that is not graded differs: role, having replicas, sizes, settings. */
  predicate SameSetup(a: RawMetrics, b: RawMetrics) {
    && a.inRecovery == b.inRecovery && (a.replicaCount == 0 <==> b.replicaCount == 0)
    && a.maxConnections == b.maxConnections && a.maxLocksPerTransaction == b.maxLocksPerTransaction
    && a.numVcpu == b.numVcpu && a.poolerPoolSize == b.poolerPoolSize && a.cacheSampleBlocks == b.cacheSampleBlocks
    && a.trackIoTiming == b.trackIoTiming && a.autovacuumEnabled == b.autovacuumEnabled
    && a.trackCountsEnabled == b.trackCountsEnabled && a.walLevel == b.walLevel
    && a.logicalSlotsActive == b.logicalSlotsActive && a.walLevelManaged == b.walLevelManaged
    && a.sequenceThresholds == b.sequenceThresholds
  }

  /** More requested or fewer timed checkpoints, without losing the sample that made them graded. */
  predicate CheckpointsWorse(a: RawMetrics, b: RawMetrics) {
    && a.requestedCheckpoints <= b.requestedCheckpoints && b.timedCheckpoints <= a.timedCheckpoints
    && StillGraded(a.timedCheckpoints, a.requestedCheckpoints, b.timedCheckpoints, b.requestedCheckpoints)
  }

  /** The sample stays large enough, or there was nothing to lose. */
  predicate StillGraded(t: nat, r: nat, t': nat, r': nat) {
    t + r < 10 || t' + r' >= 10 || 20 * r <= t + r
  }

  predicate ConnectionsWorse(a: RawMetrics, b: RawMetrics) {
    && a.totalConnections <= b.totalConnections && a.idleInTransaction <= b.idleInTransaction
    && a.longestTransactionSeconds <= b.longestTransactionSeconds
    && a.loadAvg15 <= b.loadAvg15 && a.poolerServerConns <= b.poolerServerConns
  }

  predicate PerformanceWorse(a: RawMetrics, b: RawMetrics) {
    && b.cacheHitRatio <= a.cacheHitRatio
    && a.latencyRegressionRatio <= b.latencyRegressionRatio && a.seqScanRegressionRatio <= b.seqScanRegressionRatio
  }

  predicate StorageWorse(a: RawMetrics, b: RawMetrics) {
    && a.maxDeadRatio <= b.maxDeadRatio && a.avgDeadRatio <= b.avgDeadRatio && a.tablesHighBloat <= b.tablesHighBloat
    && b.hotUpdateRatio <= a.hotUpdateRatio && a.newpageUpdateRatio <= b.newpageUpdateRatio
    && a.diskUsedRatio <= b.diskUsedRatio && a.checksumFailuresRate <= b.checksumFailuresRate
    && a.sequenceExhaustionMax <= b.sequenceExhaustionMax
  }

  predicate ReplicationWorse(a: RawMetrics, b: RawMetrics) {
    && a.maxReplayLagSeconds <= b.maxReplayLagSeconds && a.maxLagBytes <= b.maxLagBytes
    && a.disconnectedReplicas <= b.disconnectedReplicas
  }

  predicate MaintenanceWorse(a: RawMetrics, b: RawMetrics) {
    && a.maxXidAge <= b.maxXidAge && a.maxRelfrozenxidAge <= b.maxRelfrozenxidAge
    && a.maxOverdueVacuumAgeHours <= b.maxOverdueVacuumAgeHours && a.vacuumBacklogTables <= b.vacuumBacklogTables
    && a.tablesNeverVacuumed <= b.tablesNeverVacuumed && a.tablesWithAutovacuumOff <= b.tablesWithAutovacuumOff
    && a.stalePlannerStatsTables <= b.stalePlannerStatsTables
  }

  predicate LocksWorse(a: RawMetrics, b: RawMetrics) {
    && a.activeLockWaiters <= b.activeLockWaiters && a.longestLockWaitSeconds <= b.longestLockWaitSeconds
    && a.ungrantedLocks <= b.ungrantedLocks && a.deadlocksTotal <= b.deadlocksTotal
    && a.heavyweightLocksTotal <= b.heavyweightLocksTotal
  }

  /** Every graded metric of b but the checkpoints is as bad as that of a, or worse. */
  predicate WorseApart(a: RawMetrics, b: RawMetrics) {
    && SameSetup(a, b) && ConnectionsWorse(a, b) && PerformanceWorse(a, b) && StorageWorse(a, b)
    && ReplicationWorse(a, b) && MaintenanceWorse(a, b) && a.horizonLagXids <= b.horizonLagXids && LocksWorse(a, b)
  }

  predicate Worse(a: RawMetrics, b: RawMetrics) {
    WorseApart(a, b) && CheckpointsWorse(a, b)
  }

  lemma PerItemMonotone(m: nat, n: nat, points: real, most: real)
    requires m <= n && points >= 0.0 && most >= 0.0
    ensures 0.0 <= PerItem(m, points, most) <= PerItem(n, points, most)
  {
    ProductMonotone(m as real, n as real, points);
    ProductMonotone(0.0, m as real, points);
  }

  lemma PerItemOverMonotone(m: nat, n: nat, tolerated: nat, offset: nat, points: real, most: real)
    requires m <= n && offset <= tolerated && points >= 0.0 && most >= 0.0
    ensures 0.0 <= PerItemOver(m, tolerated, offset, points, most) <= PerItemOver(n, tolerated, offset, points, most)
  {
    if m > tolerated {
      PerItemMonotone(m - offset, n - offset, points, most);
    } else if n > tolerated {
      PerItemMonotone(0, n - offset, points, most);
    }
  }

  lemma RatioMonotone(m: nat, n: nat, d: nat)
    requires d > 0 && m <= n
    ensures 0.0 <= Ratio(m, d) <= Ratio(n, d)
  {
    QuotientMonotone(m as real, n as real, d as real);
    QuotientMonotone(0.0, m as real, d as real);
  }

  lemma CappedMonotone(x: real, y: real)
    requires x <= y
    ensures Round1(Cap(x)) <= Round1(Cap(y))
  {
    Round1Monotone(Cap(x), Cap(y));
  }

  lemma ConnectionsAntitone(a: RawMetrics, b: RawMetrics)
    requires a.maxConnections == b.maxConnections && ConnectionsWorse(a, b)
    ensures PenaltyConnections(a) <= PenaltyConnections(b)
  {
    if a.maxConnections != 0 {
      RatioMonotone(a.totalConnections, b.totalConnections, a.maxConnections);
      PerItemMonotone(a.idleInTransaction, b.idleInTransaction, 5.0, 30.0);
      CappedMonotone(
        ConnectionUse(Ratio(a.totalConnections, a.maxConnections))
          + PerItem(a.idleInTransaction, 5.0, 30.0) + LongTransaction(a.longestTransactionSeconds),
        ConnectionUse(Ratio(b.totalConnections, b.maxConnections))
          + PerItem(b.idleInTransaction, 5.0, 30.0) + LongTransaction(b.longestTransactionSeconds));
    }
  }

  lemma PerformanceAntitone(a: RawMetrics, b: RawMetrics)
    requires a.cacheSampleBlocks == b.cacheSampleBlocks && PerformanceWorse(a, b)
    ensures PenaltyPerformance(a) <= PenaltyPerformance(b)
  {
    CappedMonotone(if CacheHitRatioMeaningful(a) then CacheMiss(a.cacheHitRatio) else 0.0,
                   if CacheHitRatioMeaningful(b) then CacheMiss(b.cacheHitRatio) else 0.0);
  }

  lemma StorageAntitone(a: RawMetrics, b: RawMetrics)
    requires StorageWorse(a, b)
    ensures PenaltyStorage(a) <= PenaltyStorage(b)
  {
    PerItemOverMonotone(a.tablesHighBloat, b.tablesHighBloat, 5, 0, 3.0, 30.0);
    CappedMonotone(
      MaxDead(a.maxDeadRatio) + AvgDead(a.avgDeadRatio)
        + PerItemOver(a.tablesHighBloat, 5, 0, 3.0, 30.0) + NewpageUpdates(a.newpageUpdateRatio),
      MaxDead(b.maxDeadRatio) + AvgDead(b.avgDeadRatio)
        + PerItemOver(b.tablesHighBloat, 5, 0, 3.0, 30.0) + NewpageUpdates(b.newpageUpdateRatio));
  }

  lemma ReplicationAntitone(a: RawMetrics, b: RawMetrics)
    requires (a.replicaCount == 0 <==> b.replicaCount == 0) && ReplicationWorse(a, b)
    ensures PenaltyReplication(a) <= PenaltyReplication(b)
  {
    PerItemOverMonotone(a.disconnectedReplicas, b.disconnectedReplicas, 0, 0, 30.0, 60.0);
    CappedMonotone(
      ReplayLag(a.maxReplayLagSeconds) + LagBytes(a.maxLagBytes) + PerItemOver(a.disconnectedReplicas, 0, 0, 30.0, 60.0),
      ReplayLag(b.maxReplayLagSeconds) + LagBytes(b.maxLagBytes) + PerItemOver(b.disconnectedReplicas, 0, 0, 30.0, 60.0));
  }

  lemma XidAgeMonotone(m: nat, n: nat)
    requires m <= n
    ensures 0.0 <= XidAge(m) <= XidAge(n)
  {
  }

  lemma MaintenanceAntitone(a: RawMetrics, b: RawMetrics)
    requires MaintenanceWorse(a, b)
    ensures PenaltyMaintenance(a) <= PenaltyMaintenance(b)
  {
    XidAgeMonotone(MaxAge(a.maxRelfrozenxidAge, a.maxXidAge), MaxAge(b.maxRelfrozenxidAge, b.maxXidAge));
    PerItemOverMonotone(a.vacuumBacklogTables, b.vacuumBacklogTables, 5, 5, 1.5, 15.0);
    PerItemOverMonotone(a.tablesNeverVacuumed, b.tablesNeverVacuumed, 0, 0, 5.0, 20.0);
    PerItemOverMonotone(a.tablesWithAutovacuumOff, b.tablesWithAutovacuumOff, 0, 0, 3.0, 15.0);
    PerItemOverMonotone(a.stalePlannerStatsTables, b.stalePlannerStatsTables, 0, 0, 2.0, 15.0);
    OverdueMonotone(a.maxOverdueVacuumAgeHours, b.maxOverdueVacuumAgeHours);
    Round1Monotone(MaintenanceSum(a), MaintenanceSum(b));
  }

  lemma OverdueMonotone(x: real, y: real)
    requires x <= y
    ensures 0.0 <= OverdueVacuum(x) <= OverdueVacuum(y)
  {
  }

  lemma HorizonAntitone(a: RawMetrics, b: RawMetrics)
    requires a.horizonLagXids <= b.horizonLagXids
    ensures PenaltyHorizon(a) <= PenaltyHorizon(b)
  {
    CappedMonotone(HorizonLag(a.horizonLagXids), HorizonLag(b.horizonLagXids));
  }

  /** r / (t + r) against r' / (t' + r'). */
  lemma ShareMonotone(t: nat, r: nat, t': nat, r': nat)
    requires t + r > 0 && t' + r' > 0 && r <= r' && t' <= t
    ensures Ratio(r, t + r) <= Ratio(r', t' + r')
  {
    var x, y := Ratio(r, t + r), Ratio(r', t' + r');
    var d, d' := (t + r) as real, (t' + r') as real;
    assert x * d == r as real && y * d' == r' as real;
    assert y * d * d' == r' as real * d && x * d * d' == r as real * d';
    CrossProducts(t, r, t', r');
    if x > y {
      ProductStrict(y, x, d);
      ProductStrict(y * d, x * d, d');
    }
  }

  lemma CrossProducts(t: nat, r: nat, t': nat, r': nat)
    requires r <= r' && t' <= t
    ensures r as real * (t' + r') as real <= r' as real * (t + r) as real
  {
    assert r * t' <= r' * t by {
      assert r * t' <= r * t;
      assert r * t <= r' * t;
    }
    assert r * (t' + r') == r * t' + r * r' && r' * (t + r) == r' * t + r * r';
  }

  /** The share is above 5% exactly when 20 r > t + r. */
  lemma ShareAboveFloor(t: nat, r: nat)
    requires t + r > 0
    ensures Ratio(r, t + r) > 0.05 <==> 20 * r > t + r
    ensures Ratio(r, t + r) >= 0.0
  {
    var x, d := Ratio(r, t + r), (t + r) as real;
    assert x * d == r as real;
    RatioMonotone(0, r, t + r);
    if x > 0.05 {
      ProductStrict(0.05, x, d);
    } else {
      ProductMonotone(x, 0.05, d);
      assert 20.0 * (r as real) <= d;
      assert (20 * r) as real <= (t + r) as real;
    }
  }

  /**
   * Fewer timed or more requested checkpoints keep the penalty from falling exactly when
   * the sample stays gradable, or when there was no penalty to lose.
   */
  lemma CheckpointsMonotone(t: nat, r: nat, t': nat, r': nat)
    requires r <= r' && t' <= t
    ensures Checkpoints(t, r) <= Checkpoints(t', r') <==> StillGraded(t, r, t', r')
    ensures Checkpoints(t, r) >= 0.0
  {
    if t + r >= 10 {
      ShareAboveFloor(t, r);
    }
    if t' + r' >= 10 {
      ShareAboveFloor(t', r');
    }
    if t + r >= 10 && t' + r' >= 10 {
      ShareMonotone(t, r, t', r');
    }
  }

  lemma WalCheckpointAntitone(a: RawMetrics, b: RawMetrics)
    requires CheckpointsWorse(a, b)
    ensures PenaltyWalCheckpoint(a) <= PenaltyWalCheckpoint(b)
  {
    var x, y := Checkpoints(a.timedCheckpoints, a.requestedCheckpoints), Checkpoints(b.timedCheckpoints, b.requestedCheckpoints);
    CheckpointsMonotone(a.timedCheckpoints, a.requestedCheckpoints, b.timedCheckpoints, b.requestedCheckpoints);
    CappedMonotone(x, y);
  }

  lemma SaturationMonotone(a: RawMetrics, b: RawMetrics)
    requires SameSetup(a, b) && LocksWorse(a, b)
    ensures LockSaturation(a) <= LockSaturation(b)
  {
    if a.maxLocksPerTransaction > 0 && a.maxConnections > 0 {
      var capacity := a.maxLocksPerTransaction as real * a.maxConnections as real;
      ProductStrict(0.0, a.maxLocksPerTransaction as real, a.maxConnections as real);
      QuotientMonotone(a.heavyweightLocksTotal as real, b.heavyweightLocksTotal as real, capacity);
    }
  }

  lemma LocksAntitone(a: RawMetrics, b: RawMetrics)
    requires SameSetup(a, b) && LocksWorse(a, b)
    ensures PenaltyLocks(a) <= PenaltyLocks(b)
  {
    SaturationMonotone(a, b);
    CappedMonotone(
      Ladder(a.activeLockWaiters as real, 10.0, 3.0, 1.0, (60.0, 30.0, 10.0))
        + LongestWait(a.longestLockWaitSeconds) + Ladder(a.ungrantedLocks as real, 15.0, 5.0, 2.0, (30.0, 15.0, 5.0))
        + LockPool(LockSaturation(a)) + Ladder(a.deadlocksTotal as real, 100.0, 10.0, 1.0, (20.0, 10.0, 3.0)),
      Ladder(b.activeLockWaiters as real, 10.0, 3.0, 1.0, (60.0, 30.0, 10.0))
        + LongestWait(b.longestLockWaitSeconds) + Ladder(b.ungrantedLocks as real, 15.0, 5.0, 2.0, (30.0, 15.0, 5.0))
        + LockPool(LockSaturation(b)) + Ladder(b.deadlocksTotal as real, 100.0, 10.0, 1.0, (20.0, 10.0, 3.0)));
  }

  lemma BaseAntitone(c: Category, a: RawMetrics, b: RawMetrics)
    requires WorseApart(a, b) && (c == WalCheckpoint ==> CheckpointsWorse(a, b))
    ensures Base(c, a) <= Base(c, b)
  {
    match c
    case Connections => ConnectionsAntitone(a, b);
    case Performance => PerformanceAntitone(a, b);
    case Storage => StorageAntitone(a, b);
    case Replication => ReplicationAntitone(a, b);
    case Maintenance => MaintenanceAntitone(a, b);
    case Horizon => HorizonAntitone(a, b);
    case WalCheckpoint => WalCheckpointAntitone(a, b);
    case Locks => LocksAntitone(a, b);
  }

  lemma ExtraAntitone(c: Category, a: RawMetrics, b: RawMetrics)
    requires WorseApart(a, b)
    ensures 0.0 <= Extra(c, a) <= Extra(c, b)
  {
    if a.numVcpu > 0.0 {
      QuotientMonotone(a.loadAvg15, b.loadAvg15, a.numVcpu);
    }
    if a.poolerPoolSize > 0.0 {
      QuotientMonotone(a.poolerServerConns, b.poolerServerConns, a.poolerPoolSize);
    }
  }

  /** A category's penalty never falls when a graded metric gets worse. */
  lemma PenaltyAntitone(c: Category, a: RawMetrics, b: RawMetrics)
    requires WorseApart(a, b) && (c == WalCheckpoint ==> CheckpointsWorse(a, b))
    ensures Penalty(c, a) <= Penalty(c, b)
  {
    BaseAntitone(c, a, b);
    ExtraAntitone(c, a, b);
    CappedMonotone(Base(c, a) + Extra(c, a), Base(c, b) + Extra(c, b));
  }

  /** In a sample of fewer than two hundred a share above 5% is above it by more than a rounding step is worth. */
  lemma ShareShows(t: nat, r: nat)
    requires 10 <= t + r < 200 && 20 * r > t + r
    ensures Checkpoints(t, r) >= 0.05
  {
    assert (20 * r) as real >= (t + r + 1) as real;
    QuotientAbove(r as real, (t + r) as real);
  }

  lemma QuotientAbove(n: real, d: real)
    requires 0.0 < d < 200.0 && 20.0 * n >= d + 1.0
    ensures n / d >= 0.0502
  {
    QuotientMonotone(0.0502 * d, n, d);
    assert 0.0502 * d / d == 0.0502;
  }

  /** A sample that is lost takes its points along, whatever else the category is charged. */
  lemma LostSampleLowersPenalty(a: RawMetrics, b: RawMetrics)
    requires SameSetup(a, b) && a.requestedCheckpoints <= b.requestedCheckpoints && b.timedCheckpoints <= a.timedCheckpoints
    requires !StillGraded(a.timedCheckpoints, a.requestedCheckpoints, b.timedCheckpoints, b.requestedCheckpoints)
    ensures Penalty(WalCheckpoint, b) < Penalty(WalCheckpoint, a)
  {
    var x := Checkpoints(a.timedCheckpoints, a.requestedCheckpoints);
    ShareShows(a.timedCheckpoints, a.requestedCheckpoints);
    CappedMonotone(0.05, x);
    assert RoundAway(0.5) == 1;
    var extra := Extra(WalCheckpoint, a);
    assert extra in {0.0, 5.0, 80.0, 85.0} && Extra(WalCheckpoint, b) == extra;
    NothingToLose(b, extra);
    CappedMonotone(0.1 + extra, PenaltyWalCheckpoint(a) + extra);
    assert RoundAway(1.0) == 1 && RoundAway(51.0) == 51 && RoundAway(801.0) == 801 && RoundAway(851.0) == 851;
  }

  lemma NothingToLose(b: RawMetrics, extra: real)
    requires b.timedCheckpoints + b.requestedCheckpoints < 10 && extra == Extra(WalCheckpoint, b)
    ensures Penalty(WalCheckpoint, b) == extra
  {
    assert RoundAway(0.0) == 0 && RoundAway(50.0) == 50 && RoundAway(800.0) == 800 && RoundAway(850.0) == 850;
  }

  /** With more requested and fewer timed checkpoints exactly the lost sample makes a penalty fall. */
  lemma PenaltyAntitoneExact(c: Category, a: RawMetrics, b: RawMetrics)
    requires WorseApart(a, b) && a.requestedCheckpoints <= b.requestedCheckpoints && b.timedCheckpoints <= a.timedCheckpoints
    ensures Penalty(c, a) <= Penalty(c, b) <==> (c == WalCheckpoint ==>
      StillGraded(a.timedCheckpoints, a.requestedCheckpoints, b.timedCheckpoints, b.requestedCheckpoints))
  {
    if c != WalCheckpoint || CheckpointsWorse(a, b) {
      PenaltyAntitone(c, a, b);
    } else {
      LostSampleLowersPenalty(a, b);
    }
  }

  /** What is not negative before the cap ends in 0..100. */
  lemma CappedInRange(x: real)
    requires x >= 0.0
    ensures 0.0 <= Round1(Cap(x)) <= 100.0
  {
    Round1Between(Cap(x));
  }

  /** Every penalty stays in 0..100, whatever the metrics. */
  lemma PenaltyInRange(c: Category, m: RawMetrics)
    requires m.maxDeadRatio >= 0.0
    ensures 0.0 <= Base(c, m) <= 100.0 && 0.0 <= Penalty(c, m) <= 100.0
  {
    BaseInRange(c, m);
    ExtraAntitone(c, m, m);
    CappedInRange(Base(c, m) + Extra(c, m));
  }

  lemma BaseInRange(c: Category, m: RawMetrics)
    requires m.maxDeadRatio >= 0.0
    ensures 0.0 <= Base(c, m) <= 100.0
  {
    match c
    case Connections =>
      if m.maxConnections != 0 {
        RatioMonotone(m.totalConnections, m.totalConnections, m.maxConnections);
        PerItemMonotone(m.idleInTransaction, m.idleInTransaction, 5.0, 30.0);
        CappedInRange(ConnectionUse(Ratio(m.totalConnections, m.maxConnections))
          + PerItem(m.idleInTransaction, 5.0, 30.0) + LongTransaction(m.longestTransactionSeconds));
      }
    case Performance => CappedInRange(if CacheHitRatioMeaningful(m) then CacheMiss(m.cacheHitRatio) else 0.0);
    case Storage =>
      PerItemOverMonotone(m.tablesHighBloat, m.tablesHighBloat, 5, 0, 3.0, 30.0);
      CappedInRange(MaxDead(m.maxDeadRatio) + AvgDead(m.avgDeadRatio)
        + PerItemOver(m.tablesHighBloat, 5, 0, 3.0, 30.0) + NewpageUpdates(m.newpageUpdateRatio));
    case Replication =>
      PerItemOverMonotone(m.disconnectedReplicas, m.disconnectedReplicas, 0, 0, 30.0, 60.0);
      CappedInRange(ReplayLag(m.maxReplayLagSeconds) + LagBytes(m.maxLagBytes)
        + PerItemOver(m.disconnectedReplicas, 0, 0, 30.0, 60.0));
    case Maintenance => MaintenanceInRange(m);
    case Horizon => CappedInRange(HorizonLag(m.horizonLagXids));
    case WalCheckpoint =>
      CheckpointsMonotone(m.timedCheckpoints, m.requestedCheckpoints, m.timedCheckpoints, m.requestedCheckpoints);
      CappedInRange(Checkpoints(m.timedCheckpoints, m.requestedCheckpoints));
    case Locks =>
      CappedInRange(Ladder(m.activeLockWaiters as real, 10.0, 3.0, 1.0, (60.0, 30.0, 10.0))
        + LongestWait(m.longestLockWaitSeconds) + Ladder(m.ungrantedLocks as real, 15.0, 5.0, 2.0, (30.0, 15.0, 5.0))
        + LockPool(LockSaturation(m)) + Ladder(m.deadlocksTotal as real, 100.0, 10.0, 1.0, (20.0, 10.0, 3.0)));
  }

  lemma MaintenanceInRange(m: RawMetrics)
    ensures 0.0 <= PenaltyMaintenance(m) <= 100.0
  {
    XidAgeMonotone(MaxAge(m.maxRelfrozenxidAge, m.maxXidAge), MaxAge(m.maxRelfrozenxidAge, m.maxXidAge));
    PerItemOverMonotone(m.vacuumBacklogTables, m.vacuumBacklogTables, 5, 5, 1.5, 15.0);
    PerItemOverMonotone(m.tablesNeverVacuumed, m.tablesNeverVacuumed, 0, 0, 5.0, 20.0);
    PerItemOverMonotone(m.tablesWithAutovacuumOff, m.tablesWithAutovacuumOff, 0, 0, 3.0, 15.0);
    PerItemOverMonotone(m.stalePlannerStatsTables, m.stalePlannerStatsTables, 0, 0, 2.0, 15.0);
    OverdueMonotone(m.maxOverdueVacuumAgeHours, m.maxOverdueVacuumAgeHours);
    Round1Between(MaintenanceSum(m));
  }
}
