/**
 * What every condition costs, in numbers: the points of each rule's condition at every
 * breakpoint and between them, and the band of points each severity stands for.
 */
module HealthPoints {
  import opened Common
  import opened HealthMetrics
  import opened HealthPenalties
  import opened HealthRules
  import opened HealthCharges

  /** y lies on the line through (x0, y0) and (x1, y1). */
  predicate OnLine(x: real, y: real, x0: real, y0: real, x1: real, y1: real) {
    (y - y0) * (x1 - x0) == (y1 - y0) * (x - x0)
  }

  /** From x0 to x1 points grow, or fall, in proportion from y0 to y1. */
  predicate Between(x: real, y: real, x0: real, y0: real, x1: real, y1: real) {
    x0 <= x <= x1 ==> OnLine(x, y, x0, y0, x1, y1)
  }

  /** Three steps upwards, each taken at its threshold. */
  predicate StepsAt(x: real, y: real, low: real, l: real, med: real, m: real, high: real, h: real) {
    && (x < low ==> y == 0.0) && (low <= x < med ==> y == l) && (med <= x < high ==> y == m) && (x >= high ==> y == h)
  }

  /** Three steps upwards, each taken above its threshold. */
  predicate StepsAbove(x: real, y: real, low: real, l: real, med: real, m: real, high: real, h: real) {
    && (x <= low ==> y == 0.0) && (low < x <= med ==> y == l) && (med < x <= high ==> y == m) && (x > high ==> y == h)
  }

  /** 5% requested checkpoints cost nothing, 10% 30 points, 20% 70 and 50% all 100; a share of connections likewise from 60%. */
  predicate ConnectionsCost(x: real, y: real) {
    && (x <= 0.60 ==> y == 0.0) && Between(x, y, 0.60, 0.0, 0.80, 30.0) && Between(x, y, 0.80, 30.0, 0.95, 70.0)
    && (x >= 0.95 ==> OnLine(x, y, 0.95, 70.0, 1.0, 100.0))
  }

  predicate CheckpointsCost(x: real, y: real) {
    && (x <= 0.05 ==> y == 0.0) && Between(x, y, 0.05, 0.0, 0.10, 30.0) && Between(x, y, 0.10, 30.0, 0.20, 70.0)
    && Between(x, y, 0.20, 70.0, 0.50, 100.0) && (x >= 0.50 ==> y == 100.0)
  }

  predicate HorizonCosts(x: real, y: real) {
    && (x <= 1_000_000.0 ==> y == 0.0) && Between(x, y, 1_000_000.0, 0.0, 10_000_000.0, 30.0)
    && Between(x, y, 10_000_000.0, 30.0, 100_000_000.0, 70.0) && Between(x, y, 100_000_000.0, 70.0, 200_000_000.0, 100.0)
    && (x >= 200_000_000.0 ==> y == 100.0)
  }

  predicate AgeCosts(x: real, y: real) {
    && (x <= 200_000_000.0 ==> y == 0.0) && Between(x, y, 200_000_000.0, 0.0, 1_600_000_000.0, 80.0)
    && Between(x, y, 1_600_000_000.0, 80.0, 2_100_000_000.0, 100.0) && (x >= 2_100_000_000.0 ==> y == 100.0)
  }

  predicate ReplayCosts(x: real, y: real) {
    && (x <= 1.0 ==> y == 0.0) && Between(x, y, 1.0, 0.0, 5.0, 10.0) && Between(x, y, 5.0, 10.0, 30.0, 50.0)
    && (x >= 30.0 ==> y == 50.0)
  }

  /** Of cache misses, by the hit ratio. */
  predicate MissesCost(x: real, y: real) {
    && (x >= 95.0 ==> y == 0.0) && Between(x, y, 90.0, 20.0, 95.0, 0.0) && Between(x, y, 85.0, 50.0, 90.0, 20.0)
    && (x <= 85.0 ==> OnLine(x, y, 75.0, 100.0, 85.0, 50.0))
  }

  /** Every number of items up to a cap. */
  predicate EachCosts(n: nat, y: real, points: real, most: nat, cap: real) {
    if n < most then y == n as real * points else y == cap
  }

  /** The points y of a rule's condition. */
  predicate Costs(r: RuleId, m: RawMetrics, y: real) {
    match r
    case HighConnectionRatio => if m.maxConnections == 0 then y == 0.0 else ConnectionsCost(m.totalConnections as real / m.maxConnections as real, y)
    case IdleInTransaction => if m.maxConnections == 0 then y == 0.0 else EachCosts(m.idleInTransaction, y, 5.0, 6, 30.0)
    case LongRunningTransaction =>
      var x := m.longestTransactionSeconds;
      if m.maxConnections == 0 || x <= 300.0 then y == 0.0 else Between(x, y, 300.0, 0.0, 540.0, 20.0) && (x >= 540.0 ==> y == 20.0)
    case LowCacheHitRatio => if 0 < m.cacheSampleBlocks < 50_000 then y == 0.0 else MissesCost(m.cacheHitRatio, y)
    case HighMaxDeadRatio =>
      var x := m.maxDeadRatio;
      (x <= 20.0 ==> y == x) && Between(x, y, 20.0, 20.0, 30.0, 40.0) && (x >= 30.0 ==> y == 40.0)
    case HighAvgDeadRatio =>
      var x := m.avgDeadRatio;
      (x <= 15.0 ==> y == 0.0) && Between(x, y, 15.0, 0.0, 30.0, 30.0) && (x >= 30.0 ==> y == 30.0)
    case ManyBloatedTables => if m.tablesHighBloat <= 5 then y == 0.0 else EachCosts(m.tablesHighBloat, y, 3.0, 10, 30.0)
    case ReplicationLagTime => if m.replicaCount == 0 then y == 0.0 else ReplayCosts(m.maxReplayLagSeconds, y)
    case ReplicationLagBytes =>
      if m.replicaCount == 0 || m.maxLagBytes <= 104_857_600 then y == 0.0
      else if m.maxLagBytes < 314_572_800 then y * 10_485_760.0 == m.maxLagBytes as real else y == 30.0
    case DisconnectedReplicas => if m.replicaCount == 0 then y == 0.0 else EachCosts(m.disconnectedReplicas, y, 30.0, 2, 60.0)
    case XidWraparoundRisk => AgeCosts(m.maxXidAge as real, y)
    case StaleVacuum =>
      var x := m.maxOverdueVacuumAgeHours;
      && (x <= 168.0 ==> y == 0.0) && Between(x, y, 168.0, 0.0, 504.0, 14.0)
      && (504.0 < x <= 1224.0 ==> OnLine(x, y, 504.0, 15.0, 1224.0, 30.0)) && (x >= 1224.0 ==> y == 30.0)
    case VacuumBacklog => if m.vacuumBacklogTables <= 5 then y == 0.0 else EachCosts(m.vacuumBacklogTables - 5, y, 1.5, 10, 15.0)
    case TablesNeverVacuumed => EachCosts(m.tablesNeverVacuumed, y, 5.0, 4, 20.0)
    case AutovacuumDisabled => y == if m.autovacuumEnabled then 0.0 else 100.0
    case TrackCountsDisabled => y == if m.trackCountsEnabled then 0.0 else 100.0
    case TablesWithAutovacuumOff => EachCosts(m.tablesWithAutovacuumOff, y, 3.0, 5, 15.0)
    case RelfrozenxidAgeOutlier => AgeCosts(m.maxRelfrozenxidAge as real, y)
    case ColdTablesMaintenance | ChecksumFailures | SequenceExhaustion => y == 0.0
    case HorizonLagXids => HorizonCosts(m.horizonLagXids as real, y)
    case RequestedCheckpointRatio =>
      var total := m.timedCheckpoints + m.requestedCheckpoints;
      if total < 10 then y == 0.0 else CheckpointsCost(m.requestedCheckpoints as real / total as real, y)
    case TrackIoTimingDisabled => y == if m.trackIoTiming then 0.0 else 5.0
    case ActiveLockWaiters => StepsAt(m.activeLockWaiters as real, y, 1.0, 10.0, 3.0, 30.0, 10.0, 60.0)
    case LongestLockWaitSeconds => StepsAbove(m.longestLockWaitSeconds, y, 10.0, 5.0, 30.0, 20.0, 60.0, 40.0)
    case UngrantedLocks => StepsAt(m.ungrantedLocks as real, y, 2.0, 5.0, 5.0, 15.0, 15.0, 30.0)
    case DeadlocksRate => StepsAt(m.deadlocksTotal as real, y, 1.0, 3.0, 10.0, 10.0, 100.0, 20.0)
    case LockPoolSaturation =>
      if m.maxLocksPerTransaction == 0 || m.maxConnections == 0 then y == 0.0
      else StepsAbove(m.heavyweightLocksTotal as real / (m.maxLocksPerTransaction as real * m.maxConnections as real),
                      y, 0.5, 5.0, 0.6, 15.0, 0.8, 30.0)
    case LowHotUpdateRatio => StepsAbove(-m.hotUpdateRatio, y, -0.80, 5.0, -0.65, 15.0, -0.50, 30.0)
    case HighNewpageUpdateRatio => StepsAbove(m.newpageUpdateRatio, y, 0.05, 5.0, 0.10, 10.0, 0.20, 20.0)
    case StalePlannerStats => EachCosts(m.stalePlannerStatsTables, y, 2.0, 8, 15.0)
    case WalLevelMinimalWithReplicas => y == if m.walLevel == Minimal && m.replicaCount > 0 then 80.0 else 0.0
    case WalLevelLogicalWithoutPublications =>
      y == if m.walLevel == Logical && m.logicalSlotsActive == 0 && !m.walLevelManaged then 5.0 else 0.0
    case HostCpuSaturation =>
      if m.numVcpu <= 0.0 then y == 0.0 else StepsAt(m.loadAvg15 / m.numVcpu, y, 1.0, 10.0, 2.0, 30.0, 4.0, 60.0)
    case PoolerSaturation =>
      if m.poolerPoolSize <= 0.0 then y == 0.0 else StepsAt(m.poolerServerConns / m.poolerPoolSize, y, 0.5, 5.0, 0.6, 15.0, 0.8, 30.0)
    case LatencyRegression => StepsAt(m.latencyRegressionRatio, y, 1.5, 10.0, 3.0, 30.0, 6.0, 50.0)
    case SeqScanRegression => StepsAt(m.seqScanRegressionRatio, y, 1.5, 10.0, 3.0, 25.0, 6.0, 40.0)
    case HostDiskSpace => StepsAt(m.diskUsedRatio, y, 0.70, 10.0, 0.80, 30.0, 0.90, 80.0)
  }

  lemma ConnectionsCharged(r: RuleId, m: RawMetrics)
    requires CategoryOf(r) == Connections
    ensures Costs(r, m, Charge(r, m))
  {
  }

  lemma PerformanceCharged(r: RuleId, m: RawMetrics)
    requires CategoryOf(r) == Performance
    ensures Costs(r, m, Charge(r, m))
  {
  }

  lemma StorageCharged(r: RuleId, m: RawMetrics)
    requires CategoryOf(r) == Storage
    ensures Costs(r, m, Charge(r, m))
  {
  }

  lemma ReplicationCharged(r: RuleId, m: RawMetrics)
    requires CategoryOf(r) == Replication
    ensures Costs(r, m, Charge(r, m))
  {
  }

  lemma AgeCharged(age: nat)
    ensures AgeCosts(age as real, XidAge(age))
  {
  }

  lemma OverdueCharged(hours: real, y: real)
    requires y == OverdueVacuum(hours)
    ensures (hours <= 168.0 ==> y == 0.0) && Between(hours, y, 168.0, 0.0, 504.0, 14.0)
    ensures (504.0 < hours <= 1224.0 ==> OnLine(hours, y, 504.0, 15.0, 1224.0, 30.0)) && (hours >= 1224.0 ==> y == 30.0)
  {
  }

  predicate ByCurve(r: RuleId) {
    r == XidWraparoundRisk || r == RelfrozenxidAgeOutlier || r == StaleVacuum
  }

  lemma CountsCharged(r: RuleId, m: RawMetrics)
    requires CategoryOf(r) == Maintenance && !ByCurve(r)
    ensures Costs(r, m, Charge(r, m))
  {
  }

  lemma MaintenanceCharged(r: RuleId, m: RawMetrics)
    requires CategoryOf(r) == Maintenance
    ensures Costs(r, m, Charge(r, m))
  {
    if r == StaleVacuum {
      OverdueCharged(m.maxOverdueVacuumAgeHours, OverdueVacuum(m.maxOverdueVacuumAgeHours));
    } else if r == XidWraparoundRisk {
      AgeCharged(m.maxXidAge);
    } else if r == RelfrozenxidAgeOutlier {
      AgeCharged(m.maxRelfrozenxidAge);
    } else {
      CountsCharged(r, m);
    }
  }

  lemma HorizonCharged(r: RuleId, m: RawMetrics)
    requires CategoryOf(r) == Horizon
    ensures Costs(r, m, Charge(r, m))
  {
  }

  lemma WalCheckpointCharged(r: RuleId, m: RawMetrics)
    requires CategoryOf(r) == WalCheckpoint
    ensures Costs(r, m, Charge(r, m))
  {
  }

  lemma LocksCharged(r: RuleId, m: RawMetrics)
    requires CategoryOf(r) == Locks
    ensures Costs(r, m, Charge(r, m))
  {
  }

  /** Every condition is charged what the table says. */
  lemma ChargeInPoints(r: RuleId, m: RawMetrics)
    ensures Costs(r, m, Charge(r, m))
  {
    match CategoryOf(r)
    case Connections => ConnectionsCharged(r, m);
    case Performance => PerformanceCharged(r, m);
    case Storage => StorageCharged(r, m);
    case Replication => ReplicationCharged(r, m);
    case Maintenance => MaintenanceCharged(r, m);
    case Horizon => HorizonCharged(r, m);
    case WalCheckpoint => WalCheckpointCharged(r, m);
    case Locks => LocksCharged(r, m);
  }

  lemma ConnectionsOnce(r: RuleId, m: RawMetrics, y: real, z: real)
    requires CategoryOf(r) == Connections && Costs(r, m, y) && Costs(r, m, z)
    ensures y == z
  {
  }

  lemma PerformanceOnce(r: RuleId, m: RawMetrics, y: real, z: real)
    requires CategoryOf(r) == Performance && Costs(r, m, y) && Costs(r, m, z)
    ensures y == z
  {
  }

  lemma StorageOnce(r: RuleId, m: RawMetrics, y: real, z: real)
    requires CategoryOf(r) == Storage && Costs(r, m, y) && Costs(r, m, z)
    ensures y == z
  {
  }

  lemma ReplicationOnce(r: RuleId, m: RawMetrics, y: real, z: real)
    requires CategoryOf(r) == Replication && Costs(r, m, y) && Costs(r, m, z)
    ensures y == z
  {
  }

  lemma MaintenanceOnce(r: RuleId, m: RawMetrics, y: real, z: real)
    requires CategoryOf(r) == Maintenance && Costs(r, m, y) && Costs(r, m, z)
    ensures y == z
  {
  }

  lemma HorizonOnce(r: RuleId, m: RawMetrics, y: real, z: real)
    requires CategoryOf(r) == Horizon && Costs(r, m, y) && Costs(r, m, z)
    ensures y == z
  {
  }

  lemma WalCheckpointOnce(r: RuleId, m: RawMetrics, y: real, z: real)
    requires CategoryOf(r) == WalCheckpoint && Costs(r, m, y) && Costs(r, m, z)
    ensures y == z
  {
  }

  lemma LocksOnce(r: RuleId, m: RawMetrics, y: real, z: real)
    requires CategoryOf(r) == Locks && Costs(r, m, y) && Costs(r, m, z)
    ensures y == z
  {
  }

  /** The table leaves no choice. */
  lemma PointsAreDetermined(r: RuleId, m: RawMetrics, y: real, z: real)
    requires Costs(r, m, y) && Costs(r, m, z)
    ensures y == z
  {
    match CategoryOf(r)
    case Connections => ConnectionsOnce(r, m, y, z);
    case Performance => PerformanceOnce(r, m, y, z);
    case Storage => StorageOnce(r, m, y, z);
    case Replication => ReplicationOnce(r, m, y, z);
    case Maintenance => MaintenanceOnce(r, m, y, z);
    case Horizon => HorizonOnce(r, m, y, z);
    case WalCheckpoint => WalCheckpointOnce(r, m, y, z);
    case Locks => LocksOnce(r, m, y, z);
  }

  // ----- severities

  /** Reported from low on, as MEDIUM from med on and as HIGH from high on. */
  predicate Levels(x: real, low: real, med: real, high: real, s: Option<Severity>) {
    && (s == None <==> x < low) && (s == Some(High) <==> x >= high) && (s == Some(Medium) <==> med <= x < high)
  }

  /** Reported below low, as MEDIUM below med and as HIGH below high. */
  predicate LevelsBelow(x: real, low: real, med: real, high: real, s: Option<Severity>) {
    && (s == None <==> x >= low) && (s == Some(High) <==> x < high) && (s == Some(Medium) <==> high <= x < med)
  }

  predicate Flag(on: bool, severity: Severity, s: Option<Severity>) {
    s == if on then Some(severity) else None
  }

  /** The severity a rule reports. */
  predicate Reports(r: RuleId, m: RawMetrics, s: Option<Severity>) {
    match r
    case HighConnectionRatio => if m.maxConnections == 0 then s == None else Levels(m.totalConnections as real / m.maxConnections as real, 0.60, 0.80, 0.95, s)
    case IdleInTransaction => Levels(m.idleInTransaction as real, 2.0, 5.0, 10.0, s)
    case LongRunningTransaction => Levels(m.longestTransactionSeconds, 300.0, 600.0, 1800.0, s)
    case LowCacheHitRatio => if 0 < m.cacheSampleBlocks < 50_000 then s == None else LevelsBelow(m.cacheHitRatio, 95.0, 90.0, 85.0, s)
    case HighMaxDeadRatio => Levels(m.maxDeadRatio, 10.0, 20.0, 30.0, s)
    case HighAvgDeadRatio => Levels(m.avgDeadRatio, 5.0, 15.0, 25.0, s)
    case ManyBloatedTables => Levels(m.tablesHighBloat as real, 5.0, 10.0, 20.0, s)
    case ReplicationLagTime => if m.replicaCount == 0 then s == None else Levels(m.maxReplayLagSeconds, 1.0, 5.0, 30.0, s)
    case ReplicationLagBytes =>
      if m.replicaCount == 0 then s == None else Levels(m.maxLagBytes as real, 10_485_760.0, 104_857_600.0, 1_073_741_824.0, s)
    case DisconnectedReplicas => s == if m.disconnectedReplicas == 0 then None else if m.disconnectedReplicas == 1 then Some(Medium) else Some(High)
    case XidWraparoundRisk => Levels(m.maxXidAge as real, 150_000_000.0, 200_000_000.0, 1_600_000_000.0, s)
    case StaleVacuum => Levels(m.maxOverdueVacuumAgeHours, 168.0, 504.0, 1440.0, s)
    case VacuumBacklog => Levels(m.vacuumBacklogTables as real, 6.0, 15.0, 30.0, s)
    case TablesNeverVacuumed => Levels(m.tablesNeverVacuumed as real, 1.0, 2.0, 5.0, s)
    case AutovacuumDisabled => Flag(!m.autovacuumEnabled, High, s)
    case TrackCountsDisabled => Flag(!m.trackCountsEnabled, High, s)
    case TablesWithAutovacuumOff => Flag(m.tablesWithAutovacuumOff > 0, Low, s)
    case RelfrozenxidAgeOutlier =>
      var high := m.maxRelfrozenxidAge >= 1_600_000_000 || m.coldMaxRelfrozenxidAge >= 1_600_000_000;
      var medium := m.maxRelfrozenxidAge >= 200_000_000 || m.coldFreezeRatio >= 1.0;
      var low := m.maxRelfrozenxidAge >= 150_000_000 || m.coldFreezeRatio >= 0.9;
      s == if high then Some(High) else if medium then Some(Medium) else if low then Some(Low) else None
    case ColdTablesMaintenance => Flag(m.coldTables > 0, Low, s)
    case HorizonLagXids => Levels(m.horizonLagXids as real, 1_000_000.0, 10_000_000.0, 100_000_000.0, s)
    case RequestedCheckpointRatio =>
      var total := m.timedCheckpoints + m.requestedCheckpoints;
      if total < 10 then s == None else Levels(m.requestedCheckpoints as real / total as real, 0.05, 0.10, 0.20, s)
    case TrackIoTimingDisabled => Flag(!m.trackIoTiming, Low, s)
    case ActiveLockWaiters => Levels(m.activeLockWaiters as real, 1.0, 3.0, 10.0, s)
    case LongestLockWaitSeconds => Levels(m.longestLockWaitSeconds, 10.0, 30.0, 60.0, s)
    case UngrantedLocks => Levels(m.ungrantedLocks as real, 2.0, 5.0, 15.0, s)
    case DeadlocksRate => Flag(m.deadlocksTotal > 0, Low, s)
    case LockPoolSaturation =>
      if m.maxLocksPerTransaction == 0 || m.maxConnections == 0 then s == None
      else Levels(m.heavyweightLocksTotal as real / (m.maxLocksPerTransaction as real * m.maxConnections as real), 0.5, 0.6, 0.8, s)
    case LowHotUpdateRatio => LevelsBelow(m.hotUpdateRatio, 0.80, 0.65, 0.50, s)
    case HighNewpageUpdateRatio => Levels(m.newpageUpdateRatio, 0.05, 0.10, 0.20, s)
    case StalePlannerStats => Levels(m.stalePlannerStatsTables as real, 3.0, 5.0, 10.0, s)
    case WalLevelMinimalWithReplicas => Flag(m.walLevel == Minimal && m.replicaCount > 0, High, s)
    case WalLevelLogicalWithoutPublications => Flag(m.walLevel == Logical && m.logicalSlotsActive == 0 && !m.walLevelManaged, Low, s)
    case ChecksumFailures => Flag(m.checksumFailuresRate > 0.0, High, s)
    case HostCpuSaturation => if m.numVcpu <= 0.0 then s == None else Levels(m.loadAvg15 / m.numVcpu, 1.0, 2.0, 4.0, s)
    case PoolerSaturation => if m.poolerPoolSize <= 0.0 then s == None else Levels(m.poolerServerConns / m.poolerPoolSize, 0.5, 0.6, 0.8, s)
    case SequenceExhaustion =>
      var t, free := m.sequenceThresholds, 100.0 * (1.0 - m.sequenceExhaustionMax);
      s == if free < t.error then Some(High) else if free < t.warning then Some(Medium) else if free < t.notice then Some(Low) else None
    case LatencyRegression => Levels(m.latencyRegressionRatio, 1.5, 3.0, 6.0, s)
    case SeqScanRegression => Levels(m.seqScanRegressionRatio, 1.5, 3.0, 6.0, s)
    case HostDiskSpace => Levels(m.diskUsedRatio, 0.70, 0.80, 0.90, s)
  }

  lemma ConnectionsReported(r: RuleId, m: RawMetrics)
    requires CategoryOf(r) == Connections
    ensures Reports(r, m, Triggered(r, m))
  {
  }

  lemma PerformanceReported(r: RuleId, m: RawMetrics)
    requires CategoryOf(r) == Performance
    ensures Reports(r, m, Triggered(r, m))
  {
  }

  lemma StorageReported(r: RuleId, m: RawMetrics)
    requires CategoryOf(r) == Storage
    ensures Reports(r, m, Triggered(r, m))
  {
  }

  lemma ReplicationReported(r: RuleId, m: RawMetrics)
    requires CategoryOf(r) == Replication
    ensures Reports(r, m, Triggered(r, m))
  {
  }

  lemma MaintenanceReported(r: RuleId, m: RawMetrics)
    requires CategoryOf(r) == Maintenance && r != RelfrozenxidAgeOutlier
    ensures Reports(r, m, Triggered(r, m))
  {
  }

  lemma HorizonReported(r: RuleId, m: RawMetrics)
    requires CategoryOf(r) == Horizon
    ensures Reports(r, m, Triggered(r, m))
  {
  }

  lemma WalCheckpointReported(r: RuleId, m: RawMetrics)
    requires CategoryOf(r) == WalCheckpoint
    ensures Reports(r, m, Triggered(r, m))
  {
  }

  lemma LocksReported(r: RuleId, m: RawMetrics)
    requires CategoryOf(r) == Locks
    ensures Reports(r, m, Triggered(r, m))
  {
  }

  lemma OlderTierReported(m: RawMetrics)
    ensures Reports(RelfrozenxidAgeOutlier, m, Triggered(RelfrozenxidAgeOutlier, m))
  {
  }

  /** Every rule reports at these thresholds. */
  lemma TriggeredInNumbers(r: RuleId, m: RawMetrics)
    ensures Reports(r, m, Triggered(r, m))
  {
    if r == RelfrozenxidAgeOutlier {
      OlderTierReported(m);
    } else {
      match CategoryOf(r)
      case Connections => ConnectionsReported(r, m);
      case Performance => PerformanceReported(r, m);
      case Storage => StorageReported(r, m);
      case Replication => ReplicationReported(r, m);
      case Maintenance => MaintenanceReported(r, m);
      case Horizon => HorizonReported(r, m);
      case WalCheckpoint => WalCheckpointReported(r, m);
      case Locks => LocksReported(r, m);
    }
  }

  // ----- severity and charge

  /** The points a severity of a rule stands for, outside the rule's gap. */
  predicate InBand(r: RuleId, s: Severity, y: real) {
    match r
    case HighConnectionRatio | HorizonLagXids | RequestedCheckpointRatio =>
      (match s case Low => 0.0 < y < 30.0 case Medium => 30.0 <= y < 70.0 case High => y >= 70.0)
    case IdleInTransaction => (match s case Low => 10.0 <= y <= 20.0 case Medium => 25.0 <= y <= 30.0 case High => y == 30.0)
    case LongRunningTransaction => (match s case Low => 0.0 < y <= 20.0 case _ => y == 20.0)
    case LowCacheHitRatio => (match s case Low => 0.0 < y <= 20.0 case Medium => 20.0 < y <= 50.0 case High => y > 50.0)
    case HighMaxDeadRatio => (match s case Low => 10.0 <= y < 20.0 case Medium => 20.0 <= y < 40.0 case High => y == 40.0)
    case HighAvgDeadRatio => (match s case Low => false case Medium => 0.0 < y < 20.0 case High => 20.0 <= y <= 30.0)
    case ManyBloatedTables => (match s case Low => 18.0 <= y <= 27.0 case _ => y == 30.0)
    case ReplicationLagTime => (match s case Low => 0.0 < y < 10.0 case Medium => 10.0 <= y < 50.0 case High => y == 50.0)
    case ReplicationLagBytes => (match s case Low => false case Medium => 10.0 < y <= 30.0 case High => y == 30.0)
    case DisconnectedReplicas => (match s case Low => false case Medium => y == 30.0 case High => y == 60.0)
    case XidWraparoundRisk => (match s case Low => false case Medium => 0.0 < y < 80.0 case High => 80.0 <= y <= 100.0)
    case RelfrozenxidAgeOutlier => (match s case Low => false case Medium => 0.0 < y < 80.0 case High => 0.0 < y <= 100.0)
    case StaleVacuum => (match s case Low => 0.0 < y < 14.0 case Medium => 14.0 <= y <= 30.0 case High => y == 30.0)
    case VacuumBacklog => (match s case Low => 1.5 <= y <= 13.5 case _ => y == 15.0)
    case TablesNeverVacuumed => (match s case Low => y == 5.0 case Medium => 10.0 <= y <= 20.0 case High => y == 20.0)
    case AutovacuumDisabled | TrackCountsDisabled => s == High && y == 100.0
    case TablesWithAutovacuumOff => s == Low && 3.0 <= y <= 15.0
    case StalePlannerStats => (match s case Low => 6.0 <= y <= 8.0 case Medium => 10.0 <= y <= 15.0 case High => y == 15.0)
    case ActiveLockWaiters | HostCpuSaturation => y == (match s case Low => 10.0 case Medium => 30.0 case High => 60.0)
    case UngrantedLocks | LowHotUpdateRatio | PoolerSaturation => y == (match s case Low => 5.0 case Medium => 15.0 case High => 30.0)
    case LongestLockWaitSeconds => (match s case Low => y == 5.0 case Medium => y == 5.0 || y == 20.0 case High => y == 20.0 || y == 40.0)
    case LockPoolSaturation => (match s case Low => y == 5.0 case Medium => y == 5.0 || y == 15.0 case High => y == 15.0 || y == 30.0)
    case HighNewpageUpdateRatio => (match s case Low => y == 5.0 case Medium => y == 5.0 || y == 10.0 case High => y == 10.0 || y == 20.0)
    case DeadlocksRate => s == Low && 3.0 <= y <= 20.0
    case TrackIoTimingDisabled | WalLevelLogicalWithoutPublications => s == Low && y == 5.0
    case WalLevelMinimalWithReplicas => s == High && y == 80.0
    case LatencyRegression => y == (match s case Low => 10.0 case Medium => 30.0 case High => 50.0)
    case SeqScanRegression => y == (match s case Low => 10.0 case Medium => 25.0 case High => 40.0)
    case HostDiskSpace => y == (match s case Low => 10.0 case Medium => 30.0 case High => 80.0)
    case ColdTablesMaintenance | ChecksumFailures | SequenceExhaustion => false
  }

  lemma ConnectionsBanded(r: RuleId, m: RawMetrics)
    requires CategoryOf(r) == Connections && Triggered(r, m).Some? && !InGap(r, m)
    ensures InBand(r, Triggered(r, m).value, Charge(r, m))
  {
  }

  lemma PerformanceBanded(r: RuleId, m: RawMetrics)
    requires CategoryOf(r) == Performance && Triggered(r, m).Some? && !InGap(r, m)
    ensures InBand(r, Triggered(r, m).value, Charge(r, m))
  {
  }

  lemma StorageBanded(r: RuleId, m: RawMetrics)
    requires CategoryOf(r) == Storage && Triggered(r, m).Some? && !InGap(r, m)
    ensures InBand(r, Triggered(r, m).value, Charge(r, m))
  {
  }

  lemma ReplicationBanded(r: RuleId, m: RawMetrics)
    requires CategoryOf(r) == Replication && Triggered(r, m).Some? && !InGap(r, m)
    ensures InBand(r, Triggered(r, m).value, Charge(r, m))
  {
  }

  lemma MaintenanceBanded(r: RuleId, m: RawMetrics)
    requires CategoryOf(r) == Maintenance && Triggered(r, m).Some? && !InGap(r, m)
    ensures InBand(r, Triggered(r, m).value, Charge(r, m))
  {
  }

  lemma HorizonBanded(r: RuleId, m: RawMetrics)
    requires CategoryOf(r) == Horizon && Triggered(r, m).Some? && !InGap(r, m)
    ensures InBand(r, Triggered(r, m).value, Charge(r, m))
  {
  }

  lemma WalCheckpointBanded(r: RuleId, m: RawMetrics)
    requires CategoryOf(r) == WalCheckpoint && Triggered(r, m).Some? && !InGap(r, m)
    ensures InBand(r, Triggered(r, m).value, Charge(r, m))
  {
  }

  lemma LocksBanded(r: RuleId, m: RawMetrics)
    requires CategoryOf(r) == Locks && Triggered(r, m).Some? && !InGap(r, m)
    ensures InBand(r, Triggered(r, m).value, Charge(r, m))
  {
  }

  /** Outside its gap a rule's severity and its charge lie in the same band. */
  lemma SeverityMatchesCharge(r: RuleId, m: RawMetrics)
    requires Triggered(r, m).Some? && !InGap(r, m)
    ensures InBand(r, Triggered(r, m).value, Charge(r, m))
  {
    match CategoryOf(r)
    case Connections => ConnectionsBanded(r, m);
    case Performance => PerformanceBanded(r, m);
    case Storage => StorageBanded(r, m);
    case Replication => ReplicationBanded(r, m);
    case Maintenance => MaintenanceBanded(r, m);
    case Horizon => HorizonBanded(r, m);
    case WalCheckpoint => WalCheckpointBanded(r, m);
    case Locks => LocksBanded(r, m);
  }

  // ----- which rules apply

  /** On one database the rules about the instance are skipped, on a standby those about upkeep. */
  lemma AppliesWhen(r: RuleId, m: RawMetrics, databaseScoped: bool)
    ensures Applies(r, m, databaseScoped) <==>
      match r
      case HighConnectionRatio | IdleInTransaction | LongRunningTransaction | HostCpuSaturation | PoolerSaturation
        | ReplicationLagTime | ReplicationLagBytes | DisconnectedReplicas | HorizonLagXids
        | RequestedCheckpointRatio | WalLevelMinimalWithReplicas | WalLevelLogicalWithoutPublications
        | ActiveLockWaiters | LongestLockWaitSeconds | UngrantedLocks | DeadlocksRate | LockPoolSaturation => !databaseScoped
      case XidWraparoundRisk | StaleVacuum | VacuumBacklog | TablesNeverVacuumed | AutovacuumDisabled | TrackCountsDisabled
        | TablesWithAutovacuumOff | RelfrozenxidAgeOutlier | ColdTablesMaintenance | StalePlannerStats => !m.inRecovery
      case _ => true
  {
  }
}
