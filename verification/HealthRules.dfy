/** The rule catalogue: which findings the metrics trigger, and that they agree with the score. */
module HealthRules {
  import opened Common
  import opened HealthMetrics
  import opened HealthPenalties
  import opened HealthScore
  import opened RealArithmetic
  import Sorting
  import Text

  datatype Severity = High | Medium | Low

  datatype RuleId =
    | HighConnectionRatio | IdleInTransaction | LongRunningTransaction | LowCacheHitRatio | HighMaxDeadRatio
    | HighAvgDeadRatio | ManyBloatedTables | ReplicationLagTime | ReplicationLagBytes | DisconnectedReplicas
    | XidWraparoundRisk | StaleVacuum | VacuumBacklog | TablesNeverVacuumed | AutovacuumDisabled
    | TrackCountsDisabled | TablesWithAutovacuumOff | RelfrozenxidAgeOutlier | ColdTablesMaintenance | HorizonLagXids
    | RequestedCheckpointRatio | TrackIoTimingDisabled | ActiveLockWaiters | LongestLockWaitSeconds | UngrantedLocks
    | DeadlocksRate | LockPoolSaturation | LowHotUpdateRatio | HighNewpageUpdateRatio | StalePlannerStats
    | WalLevelMinimalWithReplicas | WalLevelLogicalWithoutPublications | ChecksumFailures | HostCpuSaturation
    | PoolerSaturation | SequenceExhaustion | LatencyRegression | SeqScanRegression | HostDiskSpace

  datatype Recommendation = Recommendation(rule: RuleId, severity: Severity)

  const CONNECTION_TO_REPLICATION_RULES: seq<RuleId> := [
    HighConnectionRatio, IdleInTransaction, LongRunningTransaction, LowCacheHitRatio, HighMaxDeadRatio,
    HighAvgDeadRatio, ManyBloatedTables, ReplicationLagTime, ReplicationLagBytes, DisconnectedReplicas]

  const MAINTENANCE_RULES: seq<RuleId> := [
    XidWraparoundRisk, StaleVacuum, VacuumBacklog, TablesNeverVacuumed, AutovacuumDisabled,
    TrackCountsDisabled, TablesWithAutovacuumOff, RelfrozenxidAgeOutlier, ColdTablesMaintenance, HorizonLagXids]

  const LOCK_AND_MINOR_RULES: seq<RuleId> := [
    RequestedCheckpointRatio, TrackIoTimingDisabled, ActiveLockWaiters, LongestLockWaitSeconds, UngrantedLocks,
    DeadlocksRate, LockPoolSaturation, LowHotUpdateRatio, HighNewpageUpdateRatio, StalePlannerStats]

  const METRICS_RULES: seq<RuleId> := [
    WalLevelMinimalWithReplicas, WalLevelLogicalWithoutPublications, ChecksumFailures, HostCpuSaturation,
    PoolerSaturation, SequenceExhaustion, LatencyRegression, SeqScanRegression, HostDiskSpace]

  /** The catalogue in declaration order. */
  const REGISTRY: seq<RuleId> :=
    CONNECTION_TO_REPLICATION_RULES + MAINTENANCE_RULES + LOCK_AND_MINOR_RULES + METRICS_RULES

  function IdOf(r: RuleId): string {
    match r
    case HighConnectionRatio => "high_connection_ratio"
    case IdleInTransaction => "idle_in_transaction"
    case LongRunningTransaction => "long_running_transaction"
    case LowCacheHitRatio => "low_cache_hit_ratio"
    case HighMaxDeadRatio => "high_max_dead_ratio"
    case HighAvgDeadRatio => "high_avg_dead_ratio"
    case ManyBloatedTables => "many_bloated_tables"
    case ReplicationLagTime => "replication_lag_time"
    case ReplicationLagBytes => "replication_lag_bytes"
    case DisconnectedReplicas => "disconnected_replicas"
    case XidWraparoundRisk => "xid_wraparound_risk"
    case StaleVacuum => "stale_vacuum"
    case VacuumBacklog => "vacuum_backlog"
    case TablesNeverVacuumed => "tables_never_vacuumed"
    case AutovacuumDisabled => "autovacuum_disabled"
    case TrackCountsDisabled => "track_counts_disabled"
    case TablesWithAutovacuumOff => "tables_with_autovacuum_off"
    case RelfrozenxidAgeOutlier => "relfrozenxid_age_outlier"
    case ColdTablesMaintenance => "cold_tables_maintenance"
    case HorizonLagXids => "horizon_lag_xids"
    case RequestedCheckpointRatio => "requested_checkpoint_ratio"
    case TrackIoTimingDisabled => "track_io_timing_disabled"
    case ActiveLockWaiters => "active_lock_waiters"
    case LongestLockWaitSeconds => "longest_lock_wait_seconds"
    case UngrantedLocks => "ungranted_locks"
    case DeadlocksRate => "deadlocks_rate"
    case LockPoolSaturation => "lock_pool_saturation"
    case LowHotUpdateRatio => "low_hot_update_ratio"
    case HighNewpageUpdateRatio => "high_newpage_update_ratio"
    case StalePlannerStats => "stale_planner_stats"
    case WalLevelMinimalWithReplicas => "wal_level_minimal_with_replicas"
    case WalLevelLogicalWithoutPublications => "wal_level_logical_without_publications"
    case ChecksumFailures => "checksum_failures"
    case HostCpuSaturation => "host_cpu_saturation"
    case PoolerSaturation => "pooler_saturation"
    case SequenceExhaustion => "sequence_exhaustion"
    case LatencyRegression => "latency_regression"
    case SeqScanRegression => "seq_scan_regression"
    case HostDiskSpace => "host_disk_space"
  }

  function CategoryOf(r: RuleId): Category {
    match r
    case HighConnectionRatio | IdleInTransaction | LongRunningTransaction | HostCpuSaturation | PoolerSaturation => Connections
    case LowCacheHitRatio | TrackIoTimingDisabled | LatencyRegression | SeqScanRegression => Performance
    case HighMaxDeadRatio | HighAvgDeadRatio | ManyBloatedTables | LowHotUpdateRatio | HighNewpageUpdateRatio
      | ChecksumFailures | SequenceExhaustion | HostDiskSpace => Storage
    case ReplicationLagTime | ReplicationLagBytes | DisconnectedReplicas => Replication
    case XidWraparoundRisk | StaleVacuum | VacuumBacklog | TablesNeverVacuumed | AutovacuumDisabled | TrackCountsDisabled
      | TablesWithAutovacuumOff | RelfrozenxidAgeOutlier | ColdTablesMaintenance | StalePlannerStats => Maintenance
    case HorizonLagXids => Horizon
    case RequestedCheckpointRatio | WalLevelMinimalWithReplicas | WalLevelLogicalWithoutPublications => WalCheckpoint
    case ActiveLockWaiters | LongestLockWaitSeconds | UngrantedLocks | DeadlocksRate | LockPoolSaturation => Locks
  }

  function SeverityFor(v: real, high: real, med: real, low: real): Option<Severity> {
    if v >= high then Some(High) else if v >= med then Some(Medium) else if v >= low then Some(Low) else None
  }

  /** Lower is worse. */
  function SeverityForBelow(v: real, high: real, med: real, low: real): Option<Severity> {
    if v < high then Some(High) else if v < med then Some(Medium) else if v < low then Some(Low) else None
  }

  function When(fires: bool, severity: Severity): Option<Severity> {
    if fires then Some(severity) else None
  }

  /** Rank of a severity, HIGH first; nothing at all ranks last. */
  function Rank(s: Option<Severity>): nat {
    match s
    case Some(High) => 0
    case Some(Medium) => 1
    case Some(Low) => 2
    case None => 3
  }

  function XidSeverity(age: nat): Option<Severity> {
    SeverityFor(age as real, XID_FAILSAFE_AGE as real, XID_FREEZE_MAX_AGE as real, XID_FREEZE_TABLE_AGE as real)
  }

  /** Cold tables go by their own freeze threshold, and no ratio alone is HIGH. */
  function ColdFreezeSeverity(m: RawMetrics): Option<Severity> {
    if m.coldMaxRelfrozenxidAge >= XID_FAILSAFE_AGE then Some(High)
    else if m.coldFreezeRatio >= 1.0 then Some(Medium)
    else if m.coldFreezeRatio >= 0.9 then Some(Low)
    else None
  }

  /** The severity a rule reports, none when it is not triggered. */
  function Triggered(r: RuleId, m: RawMetrics): Option<Severity> {
    match r
    case HighConnectionRatio =>
      if m.maxConnections == 0 then None else SeverityFor(Ratio(m.totalConnections, m.maxConnections), 0.95, 0.80, 0.60)
    case IdleInTransaction => SeverityFor(m.idleInTransaction as real, 10.0, 5.0, 2.0)
    case LongRunningTransaction => SeverityFor(m.longestTransactionSeconds, 1800.0, 600.0, 300.0)
    case LowCacheHitRatio =>
      if CacheHitRatioMeaningful(m) then SeverityForBelow(m.cacheHitRatio, 85.0, 90.0, 95.0) else None
    case HighMaxDeadRatio => SeverityFor(m.maxDeadRatio, 30.0, 20.0, 10.0)
    case HighAvgDeadRatio => SeverityFor(m.avgDeadRatio, 25.0, 15.0, 5.0)
    case ManyBloatedTables => SeverityFor(m.tablesHighBloat as real, 20.0, 10.0, 5.0)
    case ReplicationLagTime =>
      if m.replicaCount == 0 then None else SeverityFor(m.maxReplayLagSeconds, 30.0, 5.0, 1.0)
    case ReplicationLagBytes =>
      if m.replicaCount == 0 then None else SeverityFor(m.maxLagBytes as real / 1048576.0, 1024.0, 100.0, 10.0)
    case DisconnectedReplicas => SeverityFor(m.disconnectedReplicas as real, 2.0, 1.0, 1.0)
    case XidWraparoundRisk => XidSeverity(m.maxXidAge)
    case StaleVacuum => SeverityFor(m.maxOverdueVacuumAgeHours / 24.0, 60.0, 21.0, 7.0)
    case VacuumBacklog => SeverityFor(m.vacuumBacklogTables as real, 30.0, 15.0, 6.0)
    case TablesNeverVacuumed => SeverityFor(m.tablesNeverVacuumed as real, 5.0, 2.0, 1.0)
    case AutovacuumDisabled => When(!m.autovacuumEnabled, High)
    case TrackCountsDisabled => When(!m.trackCountsEnabled, High)
    case TablesWithAutovacuumOff => When(m.tablesWithAutovacuumOff > 0, Low)
    case RelfrozenxidAgeOutlier =>
      var own, cold := XidSeverity(m.maxRelfrozenxidAge), ColdFreezeSeverity(m);
      if Rank(cold) < Rank(own) then cold else own
    case ColdTablesMaintenance => When(m.coldTables > 0, Low)
    case HorizonLagXids => SeverityFor(m.horizonLagXids as real, 100_000_000.0, 10_000_000.0, 1_000_000.0)
    case RequestedCheckpointRatio =>
      var total := m.timedCheckpoints + m.requestedCheckpoints;
      if total < 10 then None else SeverityFor(Ratio(m.requestedCheckpoints, total), 0.20, 0.10, 0.05)
    case TrackIoTimingDisabled => When(!m.trackIoTiming, Low)
    case ActiveLockWaiters => SeverityFor(m.activeLockWaiters as real, 10.0, 3.0, 1.0)
    case LongestLockWaitSeconds => SeverityFor(m.longestLockWaitSeconds, 60.0, 30.0, 10.0)
    case UngrantedLocks => SeverityFor(m.ungrantedLocks as real, 15.0, 5.0, 2.0)
    case DeadlocksRate => When(m.deadlocksTotal > 0, Low)
    case LockPoolSaturation =>
      if m.maxLocksPerTransaction > 0 && m.maxConnections > 0 then SeverityFor(LockSaturation(m), 0.8, 0.6, 0.5) else None
    case LowHotUpdateRatio => SeverityForBelow(m.hotUpdateRatio, 0.50, 0.65, 0.80)
    case HighNewpageUpdateRatio => SeverityFor(m.newpageUpdateRatio, 0.20, 0.10, 0.05)
    case StalePlannerStats => SeverityFor(m.stalePlannerStatsTables as real, 10.0, 5.0, 3.0)
    case WalLevelMinimalWithReplicas => When(m.walLevel == Minimal && m.replicaCount > 0, High)
    case WalLevelLogicalWithoutPublications =>
      When(m.walLevel == Logical && m.logicalSlotsActive == 0 && !m.walLevelManaged, Low)
    case ChecksumFailures => When(m.checksumFailuresRate > 0.0, High)
    case HostCpuSaturation =>
      if m.numVcpu > 0.0 then SeverityFor(Saturation(m.loadAvg15, m.numVcpu), 4.0, 2.0, 1.0) else None
    case PoolerSaturation =>
      if m.poolerPoolSize > 0.0 then SeverityFor(Saturation(m.poolerServerConns, m.poolerPoolSize), 0.8, 0.6, 0.5) else None
    case SequenceExhaustion =>
      (match SequenceLevel(FreePctOf(m.sequenceExhaustionMax), m.sequenceThresholds)
       case Error => Some(High)
       case Warning => Some(Medium)
       case Notice => Some(Low)
       case Fine => None)
    case LatencyRegression => SeverityFor(m.latencyRegressionRatio, 6.0, 3.0, 1.5)
    case SeqScanRegression => SeverityFor(m.seqScanRegressionRatio, 6.0, 3.0, 1.5)
    case HostDiskSpace => SeverityFor(m.diskUsedRatio, DISK_USED_CRITICAL, 0.80, 0.70)
  }

  predicate InstanceOnly(c: Category) {
    c in {Connections, Replication, Horizon, WalCheckpoint, Locks}
  }

  /** Instance-only rules are skipped for one database, maintenance rules on a standby. */
  predicate Applies(r: RuleId, m: RawMetrics, databaseScoped: bool) {
    !(databaseScoped && InstanceOnly(CategoryOf(r))) && !(m.inRecovery && CategoryOf(r) == Maintenance)
  }

  predicate Reported(r: RuleId, m: RawMetrics, databaseScoped: bool) {
    Applies(r, m, databaseScoped) && Triggered(r, m).Some?
  }

  function SeverityRank(s: Severity): nat {
    match s
    case High => 0
    case Medium => 1
    case Low => 2
  }

  /** HIGH first, then by rule id. */
  predicate Sooner(a: Recommendation, b: Recommendation) {
    SeverityRank(a.severity) < SeverityRank(b.severity)
    || (a.severity == b.severity && Text.LexLe(IdOf(a.rule), IdOf(b.rule)))
  }

  lemma SoonerOrder()
    ensures Sorting.TotalPreorder(Sooner)
  {
    Text.LexOrder();
  }

  /** High before medium before low; within a severity no id that is less, character by character, comes later. */
  ghost predicate HighFirst(out: seq<Recommendation>) {
    forall i, j :: 0 <= i < j < |out| ==>
      (out[j].severity == High ==> out[i].severity == High) && (out[i].severity == Low ==> out[j].severity == Low) && NamedInOrder(out[i], out[j])
  }

  ghost predicate NamedInOrder(a: Recommendation, b: Recommendation) {
    a.severity == b.severity ==> !Text.Precedes(IdOf(b.rule), IdOf(a.rule))
  }

  lemma SortedIsHighFirst(out: seq<Recommendation>)
    requires Sorting.Sorted(out, Sooner)
    ensures HighFirst(out)
  {
    forall i, j | 0 <= i < j < |out|
      ensures NamedInOrder(out[i], out[j])
    {
      assert Sooner(out[i], out[j]);
      Text.LexNotPreceded(IdOf(out[i].rule), IdOf(out[j].rule));
    }
  }

  // ----- evaluation

  function Hits(rules: seq<RuleId>, m: RawMetrics, databaseScoped: bool): (out: seq<Recommendation>)
    ensures forall x :: x in out ==> x.rule in rules && Reported(x.rule, m, databaseScoped) && Triggered(x.rule, m) == Some(x.severity)
    ensures forall r :: r in rules && Reported(r, m, databaseScoped) ==> Recommendation(r, Triggered(r, m).value) in out
  {
    if rules == [] then []
    else
      var front, r := Hits(rules[..|rules| - 1], m, databaseScoped), rules[|rules| - 1];
      if Reported(r, m, databaseScoped) then front + [Recommendation(r, Triggered(r, m).value)] else front
  }

  /** Every rule is in the catalogue. */
  lemma Registered(r: RuleId)
    ensures r in REGISTRY
  {
    assert r in CONNECTION_TO_REPLICATION_RULES || r in MAINTENANCE_RULES || r in LOCK_AND_MINOR_RULES || r in METRICS_RULES;
  }

  /** The conditions that floor the score, as rules. */
  predicate FloorRule(r: RuleId, m: RawMetrics) {
    match r
    case ChecksumFailures | HostDiskSpace => true
    case XidWraparoundRisk | AutovacuumDisabled | TrackCountsDisabled | SequenceExhaustion => !m.inRecovery
    case RelfrozenxidAgeOutlier => !m.inRecovery && XidSeverity(m.maxRelfrozenxidAge) == Some(High)
    case _ => false
  }

  /** The rule that names the catastrophic condition. */
  function FloorReason(m: RawMetrics): RuleId
    requires Floored(m)
  {
    if m.checksumFailuresRate > 0.0 then ChecksumFailures
    else if m.diskUsedRatio >= DISK_USED_CRITICAL then HostDiskSpace
    else if m.maxRelfrozenxidAge >= XID_FAILSAFE_AGE then RelfrozenxidAgeOutlier
    else if m.maxXidAge >= XID_FAILSAFE_AGE then XidWraparoundRisk
    else if !m.autovacuumEnabled then AutovacuumDisabled
    else if !m.trackCountsEnabled then TrackCountsDisabled
    else SequenceExhaustion
  }

  lemma FlooredIsReported(m: RawMetrics)
    requires Floored(m)
    ensures var r := FloorReason(m);
      FloorRule(r, m) && Reported(r, m, false) && Triggered(r, m) == Some(High)
  {
  }

  /** The score is floored exactly when a rule for a catastrophic condition reports HIGH. */
  lemma FlooredIffHighRule(m: RawMetrics)
    ensures Floored(m) <==> exists r :: FloorRule(r, m) && Reported(r, m, false) && Triggered(r, m) == Some(High)
  {
    if Floored(m) {
      FlooredIsReported(m);
    }
  }

  /** Runs the catalogue: every triggered rule that applies, HIGH first. */
  method Evaluate(m: RawMetrics, databaseScoped: bool) returns (out: seq<Recommendation>)
    ensures HighFirst(out) && multiset(out) == multiset(Hits(REGISTRY, m, databaseScoped))
    ensures forall r :: Reported(r, m, databaseScoped) <==> exists x :: x in out && x.rule == r
    ensures forall x :: x in out ==> Triggered(x.rule, m) == Some(x.severity)
    ensures !databaseScoped && Floored(m) ==> out != [] && out[0].severity == High
  {
    out := [];
    for i := 0 to |REGISTRY|
      invariant out == Hits(REGISTRY[..i], m, databaseScoped)
    {
      var r := REGISTRY[i];
      assert REGISTRY[..i + 1][..i] == REGISTRY[..i];
      if Applies(r, m, databaseScoped) {
        var hit := Triggered(r, m);
        if hit.Some? {
          out := out + [Recommendation(r, hit.value)];
        }
      }
    }
    assert REGISTRY[..|REGISTRY|] == REGISTRY;
    ghost var hits := out;
    out := Sorting.Sort(out, Sooner);
    HitsSorted(hits, out, m, databaseScoped);
    SortedIsHighFirst(out);
  }

  lemma HitsSorted(hits: seq<Recommendation>, out: seq<Recommendation>, m: RawMetrics, databaseScoped: bool)
    requires hits == Hits(REGISTRY, m, databaseScoped) && out == Sorting.Sort(hits, Sooner)
    ensures Sorting.Sorted(out, Sooner) && multiset(out) == multiset(hits)
    ensures forall r :: Reported(r, m, databaseScoped) <==> exists x :: x in out && x.rule == r
    ensures forall x :: x in out ==> Triggered(x.rule, m) == Some(x.severity)
    ensures !databaseScoped && Floored(m) ==> out != [] && out[0].severity == High
  {
    SoonerOrder();
    Sorting.SortKeeps(hits, Sooner);
    Sorting.SortSorted(hits, Sooner);
    forall x
      ensures x in out <==> x in hits
    {
      assert x in out <==> x in multiset(out);
      assert x in hits <==> x in multiset(hits);
    }
    forall r
      ensures Reported(r, m, databaseScoped) <==> exists x :: x in out && x.rule == r
    {
      Registered(r);
    }
    if !databaseScoped && Floored(m) {
      FlooredIsReported(m);
      Registered(FloorReason(m));
      FirstIsHigh(out, Recommendation(FloorReason(m), High));
    }
  }

  lemma FirstIsHigh(out: seq<Recommendation>, x: Recommendation)
    requires Sorting.Sorted(out, Sooner) && x in out && x.severity == High
    ensures out[0].severity == High
  {
    var i :| 0 <= i < |out| && out[i] == x;
    if i > 0 {
      assert Sooner(out[0], out[i]);
    }
  }

  // ----- getting worse

  /** What only the rules look at is no better either. */
  predicate RuleWorse(a: RawMetrics, b: RawMetrics) {
    && a.coldMaxRelfrozenxidAge <= b.coldMaxRelfrozenxidAge && a.coldFreezeRatio <= b.coldFreezeRatio
    && a.coldTables <= b.coldTables
  }

  /** The sample of checkpoints stays large enough, or the rule was not triggered before. */
  predicate StillJudged(a: RawMetrics, b: RawMetrics) {
    a.timedCheckpoints + a.requestedCheckpoints < 10 || b.timedCheckpoints + b.requestedCheckpoints >= 10
    || 20 * a.requestedCheckpoints < a.timedCheckpoints + a.requestedCheckpoints
  }

  /** With more requested and fewer timed checkpoints the rule gets milder exactly when the sample is lost. */
  lemma CheckpointRuleMonotone(a: RawMetrics, b: RawMetrics)
    requires a.requestedCheckpoints <= b.requestedCheckpoints && b.timedCheckpoints <= a.timedCheckpoints
    ensures Rank(Triggered(RequestedCheckpointRatio, b)) <= Rank(Triggered(RequestedCheckpointRatio, a)) <==> StillJudged(a, b)
  {
    var t, r, t', r' := a.timedCheckpoints, a.requestedCheckpoints, b.timedCheckpoints, b.requestedCheckpoints;
    if t + r >= 10 {
      ShareBelow(t, r);
      if t' + r' >= 10 {
        ShareMonotone(t, r, t', r');
      }
    }
  }

  /** The share is below 5% exactly when 20 r < t + r. */
  lemma ShareBelow(t: nat, r: nat)
    requires t + r > 0
    ensures Ratio(r, t + r) < 0.05 <==> 20 * r < t + r
  {
    Twentieth(Ratio(r, t + r), (t + r) as real, r as real);
    assert (20 * r) as real == 20.0 * r as real;
  }

  lemma Twentieth(x: real, d: real, r: real)
    requires d > 0.0 && x == r / d
    ensures x < 0.05 <==> 20.0 * r < d
  {
    QuotientBelow(r, d, 0.05);
  }

  /** No rule gets milder when the metrics get worse, but the one that can lose its sample. */
  lemma RulesMonotone(r: RuleId, a: RawMetrics, b: RawMetrics)
    requires Worse(a, b) && RuleWorse(a, b)
    ensures Rank(Triggered(r, b)) <= Rank(Triggered(r, a)) <==> (r == RequestedCheckpointRatio ==> StillJudged(a, b))
  {
    match r
    case HighConnectionRatio =>
      if a.maxConnections > 0 {
        RatioMonotone(a.totalConnections, b.totalConnections, a.maxConnections);
      }
    case RequestedCheckpointRatio => CheckpointRuleMonotone(a, b);
    case LockPoolSaturation => SaturationMonotone(a, b);
    case HostCpuSaturation =>
      if a.numVcpu > 0.0 {
        QuotientMonotone(a.loadAvg15, b.loadAvg15, a.numVcpu);
      }
    case PoolerSaturation =>
      if a.poolerPoolSize > 0.0 {
        QuotientMonotone(a.poolerServerConns, b.poolerServerConns, a.poolerPoolSize);
      }
    case _ =>
  }
}
