/** What the health score is computed from, and Go's rounding to one decimal place. */
module HealthMetrics {
  datatype Category =
    Connections | Performance | Storage | Replication | Maintenance | Horizon | WalCheckpoint | Locks

  datatype WalLevel = Minimal | Replica | Logical

  /** Free percentages below which a sequence is an error, a warning, a notice. */
  datatype SequenceThresholds = SequenceThresholds(error: real, warning: real, notice: real)

  /** The metrics of one instance; counts and ages are never negative, ratios are as measured. */
  datatype RawMetrics = RawMetrics(
    inRecovery: bool,
    totalConnections: nat, idleInTransaction: nat, longestTransactionSeconds: real, maxConnections: nat,
    cacheHitRatio: real, cacheSampleBlocks: nat, trackIoTiming: bool,
    maxDeadRatio: real, avgDeadRatio: real, tablesHighBloat: nat,
    replicaCount: nat, maxReplayLagSeconds: real, maxLagBytes: nat, disconnectedReplicas: nat,
    maxXidAge: nat, vacuumBacklogTables: nat, maxOverdueVacuumAgeHours: real, tablesNeverVacuumed: nat,
    autovacuumEnabled: bool, trackCountsEnabled: bool, tablesWithAutovacuumOff: nat,
    maxRelfrozenxidAge: nat, coldMaxRelfrozenxidAge: nat, coldFreezeRatio: real, coldTables: nat,
    horizonLagXids: nat,
    timedCheckpoints: nat, requestedCheckpoints: nat,
    activeLockWaiters: nat, longestLockWaitSeconds: real, ungrantedLocks: nat, deadlocksTotal: nat,
    heavyweightLocksTotal: nat, maxLocksPerTransaction: nat,
    hotUpdateRatio: real, newpageUpdateRatio: real, stalePlannerStatsTables: nat,
    walLevel: WalLevel, logicalSlotsActive: nat, walLevelManaged: bool,
    sequenceThresholds: SequenceThresholds,
    loadAvg15: real, numVcpu: real, poolerServerConns: real, poolerPoolSize: real,
    checksumFailuresRate: real, sequenceExhaustionMax: real,
    latencyRegressionRatio: real, seqScanRegressionRatio: real, diskUsedRatio: real)

  const XID_FREEZE_TABLE_AGE := 150_000_000
  const XID_FREEZE_MAX_AGE := 200_000_000
  const XID_FAILSAFE_AGE := 1_600_000_000
  const XID_SHUTDOWN_AGE := 2_100_000_000
  const DISK_USED_CRITICAL := 0.90
  const MIN_CACHE_SAMPLE_BLOCKS := 50_000

  /** Level of a sequence by the percentage of its values still free. */
  datatype Level = Fine | Notice | Warning | Error

  function SequenceLevel(freePct: real, t: SequenceThresholds): Level {
    if freePct < t.error then Error else if freePct < t.warning then Warning else if freePct < t.notice then Notice else Fine
  }

  function FreePctOf(usedRatio: real): real {
    100.0 * (1.0 - usedRatio)
  }

  function MinReal(a: real, b: real): real { if a <= b then a else b }

  function MaxReal(a: real, b: real): real { if a >= b then a else b }

  function MaxAge(a: nat, b: nat): nat { if a >= b then a else b }

  function Cap(penalty: real): real { MinReal(penalty, 100.0) }

  /** Rounds half away from zero. */
  function RoundAway(x: real): int {
    if x >= 0.0 then (x + 0.5).Floor else -((-x + 0.5).Floor)
  }

  function Round1(x: real): real {
    RoundAway(x * 10.0) as real / 10.0
  }

  lemma Round1Monotone(x: real, y: real)
    requires x <= y
    ensures Round1(x) <= Round1(y)
  {
    assert RoundAway(x * 10.0) <= RoundAway(y * 10.0);
  }

  /** Rounding keeps bounds that have one decimal place. */
  lemma Round1Between(x: real)
    ensures 0.0 <= x <= 100.0 ==> 0.0 <= Round1(x) <= 100.0
    ensures x <= 30.0 ==> Round1(x) <= 30.0
  {
    if x <= 30.0 {
      Round1Monotone(x, 30.0);
      assert RoundAway(300.0) == 300;
    }
    if 0.0 <= x <= 100.0 {
      Round1Monotone(x, 100.0);
      assert RoundAway(1000.0) == 1000;
    }
  }

  function Ratio(n: nat, d: nat): real
    requires d > 0
  {
    n as real / d as real
  }
}
