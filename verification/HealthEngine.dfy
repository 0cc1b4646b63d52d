/** The score as the code computes it: one category slice adjusted, weighted and reweighted in place. */
module HealthEngine {
  import opened HealthMetrics
  import opened HealthPenalties
  import opened HealthScore

  /** Position of the first category of that name, the length when there is none. */
  function FirstOf(s: seq<CategoryResult>, name: Category): (i: nat)
    ensures i <= |s| && (i < |s| ==> s[i].name == name) && forall j :: 0 <= j < i ==> s[j].name != name
  {
    if s == [] then 0 else if s[0].name == name then 0 else 1 + FirstOf(s[1..], name)
  }

  /** The named category with delta more penalty, capped at 100. */
  function Raised(s: seq<CategoryResult>, name: Category, delta: real): (r: seq<CategoryResult>)
    ensures |r| == |s|
  {
    var i := FirstOf(s, name);
    if i == |s| then s else s[i := s[i].(penalty := Cap(s[i].penalty + delta))]
  }

  lemma FirstOfIs(s: seq<CategoryResult>, name: Category, i: nat)
    requires i <= |s| && (i < |s| ==> s[i].name == name) && forall j :: 0 <= j < i ==> s[j].name != name
    ensures FirstOf(s, name) == i
  {
  }

  predicate AtMostHundred(s: seq<CategoryResult>) {
    forall i :: 0 <= i < |s| ==> s[i].penalty <= 100.0
  }

  lemma RaisedByNothing(s: seq<CategoryResult>, name: Category)
    requires AtMostHundred(s)
    ensures Raised(s, name, 0.0) == s
  {
  }

  /** Capping on the way does not matter. */
  lemma RaisedTwice(s: seq<CategoryResult>, name: Category, d: real, e: real)
    requires d >= 0.0 && e >= 0.0
    ensures Raised(Raised(s, name, d), name, e) == Raised(s, name, d + e)
  {
    var i := FirstOf(s, name);
    if i < |s| {
      FirstOfIs(Raised(s, name, d), name, i);
    }
  }

  method AddPenalty(cats: array<CategoryResult>, name: Category, delta: real)
    modifies cats
    ensures cats[..] == Raised(old(cats[..]), name, delta)
  {
    for i := 0 to cats.Length
      invariant cats[..] == old(cats[..]) && forall j :: 0 <= j < i ==> cats[j].name != name
    {
      if cats[i].name == name {
        FirstOfIs(cats[..], name, i);
        cats[i] := cats[i].(penalty := MinReal(cats[i].penalty + delta, 100.0));
        return;
      }
    }
    FirstOfIs(cats[..], name, cats.Length);
  }

  /** Adds points to what was added to the category before. */
  method Add(cats: array<CategoryResult>, name: Category, delta: real, ghost before: seq<CategoryResult>, ghost added: real)
    requires delta >= 0.0 && added >= 0.0 && cats[..] == Raised(before, name, added)
    modifies cats
    ensures cats[..] == Raised(before, name, added + delta)
  {
    RaisedTwice(before, name, added, delta);
    AddPenalty(cats, name, delta);
  }

  method AdjustMaintenance(cats: array<CategoryResult>, m: RawMetrics)
    requires AtMostHundred(cats[..])
    modifies cats
    ensures cats[..] == Raised(old(cats[..]), Maintenance, Extra(Maintenance, m))
  {
    ghost var before := cats[..];
    RaisedByNothing(before, Maintenance);
    if !m.autovacuumEnabled {
      Add(cats, Maintenance, 100.0, before, 0.0);
    }
    if !m.trackCountsEnabled {
      Add(cats, Maintenance, 100.0, before, if m.autovacuumEnabled then 0.0 else 100.0);
    }
  }

  method AdjustPerformance(cats: array<CategoryResult>, m: RawMetrics)
    requires AtMostHundred(cats[..])
    modifies cats
    ensures cats[..] == Raised(old(cats[..]), Performance, Extra(Performance, m))
  {
    ghost var before, added := cats[..], 0.0;
    RaisedByNothing(before, Performance);
    if !m.trackIoTiming {
      Add(cats, Performance, 5.0, before, added);
      added := added + 5.0;
    }
    if m.latencyRegressionRatio >= 6.0 {
      Add(cats, Performance, 50.0, before, added);
      added := added + 50.0;
    } else if m.latencyRegressionRatio >= 3.0 {
      Add(cats, Performance, 30.0, before, added);
      added := added + 30.0;
    } else if m.latencyRegressionRatio >= 1.5 {
      Add(cats, Performance, 10.0, before, added);
      added := added + 10.0;
    }
    if m.seqScanRegressionRatio >= 6.0 {
      Add(cats, Performance, 40.0, before, added);
    } else if m.seqScanRegressionRatio >= 3.0 {
      Add(cats, Performance, 25.0, before, added);
    } else if m.seqScanRegressionRatio >= 1.5 {
      Add(cats, Performance, 10.0, before, added);
    }
  }

  method AdjustStorage(cats: array<CategoryResult>, m: RawMetrics)
    requires AtMostHundred(cats[..])
    modifies cats
    ensures cats[..] == Raised(old(cats[..]), Storage, Extra(Storage, m))
  {
    ghost var before := cats[..];
    RaisedByNothing(before, Storage);
    var hot := HotUpdate(m.hotUpdateRatio);
    Add(cats, Storage, hot, before, 0.0);
    if m.diskUsedRatio >= DISK_USED_CRITICAL {
      Add(cats, Storage, 80.0, before, hot);
    } else if m.diskUsedRatio >= 0.80 {
      Add(cats, Storage, 30.0, before, hot);
    } else if m.diskUsedRatio >= 0.70 {
      Add(cats, Storage, 10.0, before, hot);
    }
  }

  method AdjustWalCheckpoint(cats: array<CategoryResult>, m: RawMetrics)
    requires AtMostHundred(cats[..])
    modifies cats
    ensures cats[..] == Raised(old(cats[..]), WalCheckpoint, Extra(WalCheckpoint, m))
  {
    ghost var before := cats[..];
    RaisedByNothing(before, WalCheckpoint);
    if m.walLevel == Minimal && m.replicaCount > 0 {
      Add(cats, WalCheckpoint, 80.0, before, 0.0);
    }
    if m.walLevel == Logical && m.logicalSlotsActive == 0 && !m.walLevelManaged {
      Add(cats, WalCheckpoint, 5.0, before, 0.0);
    }
  }

  method AdjustConnections(cats: array<CategoryResult>, m: RawMetrics)
    requires AtMostHundred(cats[..])
    modifies cats
    ensures cats[..] == Raised(old(cats[..]), Connections, Extra(Connections, m))
  {
    ghost var before, added := cats[..], 0.0;
    RaisedByNothing(before, Connections);
    if m.numVcpu > 0.0 {
      var sat := m.loadAvg15 / m.numVcpu;
      var points := if sat >= 4.0 then 60.0 else if sat >= 2.0 then 30.0 else if sat >= 1.0 then 10.0 else 0.0;
      Add(cats, Connections, points, before, added);
      added := added + points;
    }
    if m.poolerPoolSize > 0.0 {
      var sat := m.poolerServerConns / m.poolerPoolSize;
      var points := if sat >= 0.8 then 30.0 else if sat >= 0.6 then 15.0 else if sat >= 0.5 then 5.0 else 0.0;
      Add(cats, Connections, points, before, added);
    }
  }

  /** The eight categories in their order with the penalties f gives them. */
  predicate Holds(s: seq<CategoryResult>, penalties: seq<real>) {
    |s| == |penalties| == 8 && forall i :: 0 <= i < 8 ==> s[i].name == ORDER[i] && s[i].penalty == penalties[i]
  }

  /** Only penalties differ. */
  predicate SameRest(s: seq<CategoryResult>, t: seq<CategoryResult>) {
    |s| == |t| && forall j :: 0 <= j < |s| ==> s[j].weight == t[j].weight && s[j].score == t[j].score
  }

  lemma RaisedAt(s: seq<CategoryResult>, penalties: seq<real>, i: nat, delta: real)
    requires Holds(s, penalties) && i < 8
    ensures Holds(Raised(s, ORDER[i], delta), penalties[i := Cap(penalties[i] + delta)])
    ensures SameRest(Raised(s, ORDER[i], delta), s)
  {
    assert forall j, k :: 0 <= j < k < 8 ==> ORDER[j] != ORDER[k];
    FirstOfIs(s, ORDER[i], i);
  }

  lemma BaseAtMostHundred(c: Category, m: RawMetrics)
    ensures Base(c, m) <= 100.0
  {
    assert RoundAway(1000.0) == 1000;
    match c
    case Connections =>
      if m.maxConnections > 0 {
        CapRounds(ConnectionUse(Ratio(m.totalConnections, m.maxConnections))
          + PerItem(m.idleInTransaction, 5.0, 30.0) + LongTransaction(m.longestTransactionSeconds));
      }
    case Performance => CapRounds(if CacheHitRatioMeaningful(m) then CacheMiss(m.cacheHitRatio) else 0.0);
    case Storage =>
      CapRounds(MaxDead(m.maxDeadRatio) + AvgDead(m.avgDeadRatio)
        + PerItemOver(m.tablesHighBloat, 5, 0, 3.0, 30.0) + NewpageUpdates(m.newpageUpdateRatio));
    case Replication => BaseInRange(c, m.(maxDeadRatio := 0.0));
    case Maintenance => MaintenanceInRange(m);
    case Horizon => CapRounds(HorizonLag(m.horizonLagXids));
    case WalCheckpoint => CapRounds(Checkpoints(m.timedCheckpoints, m.requestedCheckpoints));
    case Locks => BaseInRange(c, m.(maxDeadRatio := 0.0));
  }

  lemma CapRounds(x: real)
    ensures Round1(Cap(x)) <= 100.0
  {
    assert RoundAway(1000.0) == 1000;
    Round1Monotone(Cap(x), 100.0);
  }

  function Bases(m: RawMetrics): (r: seq<real>)
    ensures |r| == 8
  {
    seq(8, i requires 0 <= i < 8 => Base(ORDER[i], m))
  }

  function Extras(m: RawMetrics): (r: seq<real>)
    ensures |r| == 8
  {
    seq(8, i requires 0 <= i < 8 => Extra(ORDER[i], m))
  }

  /** What applyInstanceAdjustments adds to the eight categories, in the order it does it. */
  function AllRaised(s: seq<CategoryResult>, e: seq<real>): (r: seq<CategoryResult>)
    requires |e| == 8
    ensures |r| == |s|
  {
    var s := Raised(s, Maintenance, e[4]);
    var s := Raised(s, Performance, e[1]);
    var s := Raised(s, Storage, e[2]);
    var s := Raised(s, WalCheckpoint, e[6]);
    Raised(s, Connections, e[0])
  }

  function Capped(p: seq<real>, e: seq<real>): (r: seq<real>)
    requires |p| == |e| == 8
    ensures |r| == 8
  {
    seq(8, i requires 0 <= i < 8 => Cap(p[i] + e[i]))
  }

  /** The penalties after the five additions. */
  function AddedUp(p: seq<real>, e: seq<real>): (r: seq<real>)
    requires |p| == |e| == 8
    ensures |r| == 8
  {
    var p := p[4 := Cap(p[4] + e[4])];
    var p := p[1 := Cap(p[1] + e[1])];
    var p := p[2 := Cap(p[2] + e[2])];
    var p := p[6 := Cap(p[6] + e[6])];
    p[0 := Cap(p[0] + e[0])]
  }

  lemma AddedUpIs(p: seq<real>, e: seq<real>)
    requires |p| == |e| == 8 && e[3] == 0.0 && e[5] == 0.0 && e[7] == 0.0 && p[3] <= 100.0 && p[5] <= 100.0 && p[7] <= 100.0
    ensures AddedUp(p, e) == Capped(p, e)
  {
  }

  lemma AllRaisedAddsUp(s: seq<CategoryResult>, p: seq<real>, e: seq<real>)
    requires |e| == 8 && Holds(s, p)
    ensures Holds(AllRaised(s, e), AddedUp(p, e)) && SameRest(AllRaised(s, e), s)
  {
    var s1 := Raised(s, Maintenance, e[4]);
    var s2 := Raised(s1, Performance, e[1]);
    var s3 := Raised(s2, Storage, e[2]);
    var s4 := Raised(s3, WalCheckpoint, e[6]);
    var p1 := p[4 := Cap(p[4] + e[4])];
    var p2 := p1[1 := Cap(p1[1] + e[1])];
    var p3 := p2[2 := Cap(p2[2] + e[2])];
    var p4 := p3[6 := Cap(p3[6] + e[6])];
    RaisedAt(s, p, 4, e[4]);
    RaisedAt(s1, p1, 1, e[1]);
    RaisedAt(s2, p2, 2, e[2]);
    RaisedAt(s3, p3, 6, e[6]);
    RaisedAt(s4, p4, 0, e[0]);
  }

  lemma AllRaisedHolds(s: seq<CategoryResult>, p: seq<real>, e: seq<real>)
    requires |e| == 8 && Holds(s, p) && AtMostHundred(s) && e[3] == 0.0 && e[5] == 0.0 && e[7] == 0.0
    ensures Holds(AllRaised(s, e), Capped(p, e)) && SameRest(AllRaised(s, e), s)
  {
    assert s[3].penalty <= 100.0 && s[5].penalty <= 100.0 && s[7].penalty <= 100.0;
    AllRaisedAddsUp(s, p, e);
    AddedUpIs(p, e);
  }

  function Rounded(s: seq<CategoryResult>): (r: seq<CategoryResult>)
    ensures |r| == |s|
  {
    seq(|s|, i requires 0 <= i < |s| => s[i].(penalty := Round1(s[i].penalty)))
  }

  lemma RaisedStaysCapped(s: seq<CategoryResult>, name: Category, delta: real)
    requires AtMostHundred(s)
    ensures AtMostHundred(Raised(s, name, delta))
  {
  }

  method RoundPenalties(cats: array<CategoryResult>)
    modifies cats
    ensures cats[..] == Rounded(old(cats[..]))
  {
    for i := 0 to cats.Length
      invariant forall j :: 0 <= j < i ==> cats[j] == old(cats[j]).(penalty := Round1(old(cats[j]).penalty))
      invariant forall j :: i <= j < cats.Length ==> cats[j] == old(cats[j])
    {
      cats[i] := cats[i].(penalty := Round1(cats[i].penalty));
    }
  }

  /** Folds the instance-only signals into the penalties, and rounds once at the end. */
  method ApplyInstanceAdjustments(cats: array<CategoryResult>, m: RawMetrics)
    requires AtMostHundred(cats[..])
    modifies cats
    ensures cats[..] == Rounded(AllRaised(old(cats[..]), Extras(m)))
  {
    ghost var s := cats[..];
    AdjustMaintenance(cats, m);
    RaisedStaysCapped(s, Maintenance, Extra(Maintenance, m));
    s := cats[..];
    AdjustPerformance(cats, m);
    RaisedStaysCapped(s, Performance, Extra(Performance, m));
    s := cats[..];
    AdjustStorage(cats, m);
    RaisedStaysCapped(s, Storage, Extra(Storage, m));
    s := cats[..];
    AdjustWalCheckpoint(cats, m);
    RaisedStaysCapped(s, WalCheckpoint, Extra(WalCheckpoint, m));
    AdjustConnections(cats, m);
    ExtrasAre(m);
    RoundPenalties(cats);
  }

  lemma ExtrasAre(m: RawMetrics)
    ensures var e := Extras(m);
      e[0] == Extra(Connections, m) && e[1] == Extra(Performance, m) && e[2] == Extra(Storage, m)
      && e[4] == Extra(Maintenance, m) && e[6] == Extra(WalCheckpoint, m)
  {
  }

  method SumWeights(cats: array<CategoryResult>, drop: set<Category>) returns (dropped: real, other: real)
    ensures dropped == DroppedSum(cats[..], drop) && other == OtherSum(cats[..], drop)
  {
    ghost var s := cats[..];
    dropped, other := 0.0, 0.0;
    for i := 0 to cats.Length
      invariant dropped == DroppedSum(s[..i], drop) && other == OtherSum(s[..i], drop)
    {
      assert s[..i + 1][..i] == s[..i];
      if cats[i].name in drop {
        dropped := dropped + cats[i].weight;
      } else {
        other := other + cats[i].weight;
      }
    }
    assert s[..cats.Length] == s;
  }

  function Zeroed(c: CategoryResult, drop: set<Category>): CategoryResult {
    if c.name in drop then c.(weight := 0.0, penalty := 0.0) else c
  }

  method ZeroDropped(cats: array<CategoryResult>, drop: set<Category>)
    modifies cats
    ensures forall j :: 0 <= j < cats.Length ==> cats[j] == Zeroed(old(cats[j]), drop)
  {
    for i := 0 to cats.Length
      invariant forall j :: 0 <= j < i ==> cats[j] == Zeroed(old(cats[j]), drop)
      invariant forall j :: i <= j < cats.Length ==> cats[j] == old(cats[j])
    {
      if cats[i].name in drop {
        cats[i] := cats[i].(weight := 0.0, penalty := 0.0);
      }
    }
  }

  method HandOver(cats: array<CategoryResult>, drop: set<Category>, dropped: real, other: real)
    requires other != 0.0 && forall j :: 0 <= j < cats.Length ==> cats[j] == Zeroed(cats[j], drop)
    modifies cats
    ensures forall j :: 0 <= j < cats.Length ==> cats[j] == Reweighted(old(cats[j]), drop, dropped, other)
  {
    for i := 0 to cats.Length
      invariant forall j :: 0 <= j < i ==> cats[j] == Reweighted(old(cats[j]), drop, dropped, other)
      invariant forall j :: i <= j < cats.Length ==> cats[j] == old(cats[j])
    {
      if cats[i].name !in drop {
        cats[i] := cats[i].(weight := cats[i].weight + ShareOf(cats[i].weight, dropped, other));
      }
    }
  }

  /** Zeroes the dropped categories and hands their weight to the others in proportion. */
  method RedistributeWeights(cats: array<CategoryResult>, drop: set<Category>)
    modifies cats
    ensures cats[..] == Redistributed(old(cats[..]), drop)
  {
    var dropped, other := SumWeights(cats, drop);
    if dropped == 0.0 {
      return;
    }
    ZeroDropped(cats, drop);
    if other == 0.0 {
      return;
    }
    HandOver(cats, drop, dropped, other);
  }

  /** The eight penalties before the instance's own signals. */
  function Fresh(m: RawMetrics): (s: seq<CategoryResult>)
    ensures |s| == 8
  {
    seq(8, i requires 0 <= i < 8 => CategoryResult(ORDER[i], 0.0, WeightOf(DEFAULT_WEIGHTS, ORDER[i]), Base(ORDER[i], m)))
  }

  lemma FreshAtMostHundred(m: RawMetrics)
    ensures AtMostHundred(Fresh(m))
  {
    forall i | 0 <= i < 8
      ensures Fresh(m)[i].penalty <= 100.0
    {
      BaseAtMostHundred(ORDER[i], m);
    }
  }

  lemma NoExtras(m: RawMetrics)
    ensures var e := Extras(m); e[3] == 0.0 && e[5] == 0.0 && e[7] == 0.0
  {
  }

  /** The adjusted categories carry the penalties the score is defined from. */
  lemma AdjustedIs(m: RawMetrics)
    ensures var r := Rounded(AllRaised(Fresh(m), Extras(m)));
      |r| == 8 && forall i :: 0 <= i < 8 ==> r[i].name == ORDER[i] && r[i].score == 0.0 && r[i].penalty == Penalty(ORDER[i], m)
  {
    FreshAtMostHundred(m);
    NoExtras(m);
    AllRaisedHolds(Fresh(m), Bases(m), Extras(m));
  }

  function Scored(s: seq<CategoryResult>): (r: seq<CategoryResult>)
    ensures |r| == |s|
    ensures forall i :: 0 <= i < |s| ==>
      r[i].score + r[i].penalty == 100.0 && r[i].name == s[i].name && r[i].penalty == s[i].penalty && r[i].weight == s[i].weight
  {
    seq(|s|, i requires 0 <= i < |s| => s[i].(score := 100.0 - s[i].penalty))
  }

  /** Sums the weighted penalties and notes each category's own score. */
  method SumPenalties(cats: array<CategoryResult>) returns (total: real)
    modifies cats
    ensures total == Total(old(cats[..])) && cats[..] == Scored(old(cats[..]))
  {
    ghost var s := cats[..];
    total := 0.0;
    for i := 0 to cats.Length
      invariant total == Total(s[..i])
      invariant forall j :: 0 <= j < i ==> cats[j] == s[j].(score := 100.0 - s[j].penalty)
      invariant forall j :: i <= j < cats.Length ==> cats[j] == s[j]
    {
      assert s[..i + 1][..i] == s[..i];
      total := total + cats[i].penalty * cats[i].weight;
      cats[i] := cats[i].(score := 100.0 - cats[i].penalty);
    }
    assert s[..cats.Length] == s;
  }

  method AssignWeights(cats: array<CategoryResult>, w: Weights)
    modifies cats
    ensures forall j :: 0 <= j < cats.Length ==> cats[j] == old(cats[j]).(weight := WeightOf(w, old(cats[j]).name))
  {
    for i := 0 to cats.Length
      invariant forall j :: 0 <= j < i ==> cats[j] == old(cats[j]).(weight := WeightOf(w, old(cats[j]).name))
      invariant forall j :: i <= j < cats.Length ==> cats[j] == old(cats[j])
    {
      cats[i] := cats[i].(weight := WeightOf(w, cats[i].name));
    }
  }

  /** The penalties of the instance before its weights. */
  method AdjustedCategories(m: RawMetrics) returns (cats: array<CategoryResult>)
    ensures fresh(cats) && cats.Length == 8
    ensures forall i :: 0 <= i < 8 ==> cats[i].name == ORDER[i] && cats[i].score == 0.0 && cats[i].penalty == Penalty(ORDER[i], m)
  {
    cats := new CategoryResult[8](i requires 0 <= i < 8 =>
      CategoryResult(ORDER[i], 0.0, WeightOf(DEFAULT_WEIGHTS, ORDER[i]), Base(ORDER[i], m)));
    assert cats[..] == Fresh(m);
    FreshAtMostHundred(m);
    AdjustedIs(m);
    ApplyInstanceAdjustments(cats, m);
    assert forall i :: 0 <= i < 8 ==> cats[i] == cats[..][i];
  }

  /** The weighted categories, those without a signal dropped. */
  method GradedCategories(m: RawMetrics, w: Weights) returns (cats: array<CategoryResult>)
    ensures fresh(cats) && cats[..] == Graded(m, w)
  {
    cats := AdjustedCategories(m);
    var effective := Normalize(if Valid(w) then w else DEFAULT_WEIGHTS);
    AssignWeights(cats, effective);
    assert cats[..] == Weighted(m, effective);
    var drop: set<Category> := {};
    if !(m.replicaCount > 0) {
      drop := drop + {Replication};
    }
    if m.inRecovery {
      drop := drop + {Maintenance};
    }
    assert drop == Dropped(m);
    if drop != {} {
      RedistributeWeights(cats, drop);
    } else {
      NothingDropped(cats[..]);
    }
  }

  /** Computes the health score. */
  method CalculateWithWeights(m: RawMetrics, w: Weights) returns (r: Result)
    ensures r.score == ScoreOf(m, w) && r.categories == Scored(Graded(m, w))
    ensures r.hasReplication == (m.replicaCount > 0) && r.inRecovery == m.inRecovery
    ensures m.maxDeadRatio >= 0.0 ==> 0.0 <= r.score <= 100.0 && (Floored(m) ==> r.score <= CRITICAL_SCORE_CEILING)
  {
    var cats := GradedCategories(m, w);
    var total := SumPenalties(cats);
    var score := MaxReal(0.0, MinReal(100.0, 100.0 - total));
    var ceiling := CriticalCeiling(m);
    if ceiling < score {
      score := ceiling;
    }
    if m.maxDeadRatio >= 0.0 {
      ScoreInRange(m, w);
    }
    r := Result(Round1(score), cats[..], m.replicaCount > 0, m.inRecovery);
  }
}
