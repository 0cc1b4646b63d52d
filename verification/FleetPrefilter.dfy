/**
 * The prefilter: which targets are candidates, which are scored from a snapshot only and
 * which are left to the sweep; and the memory of exact scores that the next split uses.
 */
module FleetPrefilter {
  import opened Common
  import opened FleetTargets
  import Sorting

  /** What the instant metrics say of a target: an error, nothing at all, or an estimate. */
  datatype Reading = NotMapped | ReadFailed | NoSignals | Estimate(score: real, floored: bool)

  /** The last exact score of a target; topAt is None until it makes a returned top. */
  datatype Known = Known(score: real, at: int, topAt: Option<int>)

  datatype Input = Input(
    targets: seq<Target>, enabled: bool, exhaustive: bool, ended: bool,
    readings: map<Target, Reading>, now: int, stickyTtl: int, margin: nat)

  datatype Ranked = Ranked(t: Target, score: real, floored: bool)

  datatype Split = Split(
    candidates: seq<Target>, sqlOnly: seq<Target>, sweep: seq<Target>,
    withMetrics: int, floor: nat, sticky: nat, unmapped: nat, failed: nat, unavailable: bool)

  const MAX_FLEET_LIMIT := 50

  /** A target without an error and without readings is one without signals. */
  function ReadingOf(i: Input, t: Target): Reading {
    if t in i.readings then i.readings[t] else NoSignals
  }

  function Those(ts: seq<Target>, p: Target -> bool): (r: seq<Target>)
    ensures forall t :: t in r <==> t in ts && p(t)
    ensures NoRepeats(ts) ==> NoRepeats(r)
    ensures |r| <= |ts|
  {
    if ts == [] then []
    else
      var rest := Those(ts[..|ts| - 1], p);
      if p(ts[|ts| - 1]) then rest + [ts[|ts| - 1]] else rest
  }

  function Unmapped(i: Input, ts: seq<Target>): seq<Target> {
    Those(ts, t => ReadingOf(i, t).NotMapped?)
  }

  function Failing(i: Input, ts: seq<Target>): seq<Target> {
    Those(ts, t => ReadingOf(i, t).ReadFailed?)
  }

  function Unranked(i: Input, ts: seq<Target>): seq<Target> {
    Those(ts, t => ReadingOf(i, t).NoSignals?)
  }

  function Estimated(i: Input, ts: seq<Target>): seq<Target> {
    Those(ts, t => ReadingOf(i, t).Estimate?)
  }

  /** The estimate, or the last exact score while it is recent and lower. */
  function Adjusted(i: Input, known: map<Target, Known>, t: Target): real
    requires ReadingOf(i, t).Estimate?
  {
    var score := ReadingOf(i, t).score;
    if t in known && i.now - known[t].at < i.stickyTtl && known[t].score < score then known[t].score else score
  }

  predicate Sticky(i: Input, known: map<Target, Known>, t: Target) {
    t in known && known[t].topAt.Some? && i.now - known[t].topAt.value < i.stickyTtl
  }

  predicate LowerScore(a: Ranked, b: Ranked) {
    a.score <= b.score
  }

  /** The estimated part of the fleet with adjusted scores, lowest first. */
  function RankedOf(i: Input, known: map<Target, Known>, ts: seq<Target>): (r: seq<Ranked>)
    requires forall t :: t in ts ==> ReadingOf(i, t).Estimate?
    ensures |r| == |ts|
  {
    seq(|ts|, k requires 0 <= k < |ts| => Ranked(ts[k], Adjusted(i, known, ts[k]), ReadingOf(i, ts[k]).floored))
  }

  function Ranking(i: Input, known: map<Target, Known>): seq<Ranked> {
    Sorting.Sort(RankedOf(i, known, Estimated(i, i.targets)), LowerScore)
  }

  function Top(i: Input, known: map<Target, Known>): seq<Ranked> {
    var r := Ranking(i, known);
    r[..Min(|r|, MAX_FLEET_LIMIT + i.margin)]
  }

  predicate InTop(i: Input, known: map<Target, Known>, t: Target) {
    exists r :: r in Top(i, known) && r.t == t
  }

  /** Only an estimated target that is not floored, not sticky and not among the lowest is passed over. */
  predicate PassedOver(i: Input, known: map<Target, Known>, t: Target) {
    && t in i.targets && ReadingOf(i, t).Estimate? && !ReadingOf(i, t).floored
    && !Sticky(i, known, t) && !InTop(i, known, t)
  }

  /** The metrics read failed as a whole, and not because the budget ended. */
  predicate Unavailable(i: Input) {
    && Failing(i, i.targets) != [] && Estimated(i, i.targets) == [] && Unranked(i, i.targets) == [] && !i.ended
  }

  predicate SnapshotOnly(i: Input, t: Target) {
    t in i.targets && (ReadingOf(i, t).NotMapped? || (ReadingOf(i, t).ReadFailed? && Unavailable(i)))
  }

  function SetOf(ts: seq<Target>): set<Target> {
    set t | t in ts
  }

  /** What prefilter promises of a ranked split: each target is in exactly the part it belongs to. */
  ghost predicate Splits(i: Input, known: map<Target, Known>, candidates: seq<Target>, sqlOnly: seq<Target>, sweep: seq<Target>) {
    && (forall t :: t in sweep <==> PassedOver(i, known, t))
    && (forall t :: t in sqlOnly <==> SnapshotOnly(i, t))
    && (forall t :: t in candidates <==> t in i.targets && !PassedOver(i, known, t) && !SnapshotOnly(i, t))
    && NoRepeats(candidates) && (NoRepeats(i.targets) ==> NoRepeats(sqlOnly) && NoRepeats(sweep))
  }

  // ----- what the split means

  lemma {:induction false} DistinctCounts(ts: seq<Target>, t: Target)
    requires NoRepeats(ts)
    ensures multiset(ts)[t] == if t in ts then 1 else 0
  {
    if ts != [] {
      var front, last := ts[..|ts| - 1], ts[|ts| - 1];
      assert ts == front + [last];
      DistinctCounts(front, t);
    }
  }

  /** Candidates, snapshot-only and sweep are disjoint and together exactly the fleet. */
  lemma SplitIsLossless(i: Input, known: map<Target, Known>, candidates: seq<Target>, sqlOnly: seq<Target>, sweep: seq<Target>)
    requires Splits(i, known, candidates, sqlOnly, sweep) && NoRepeats(i.targets)
    ensures SetOf(candidates) !! SetOf(sqlOnly) && SetOf(candidates) !! SetOf(sweep) && SetOf(sqlOnly) !! SetOf(sweep)
    ensures multiset(candidates) + multiset(sqlOnly) + multiset(sweep) == multiset(i.targets)
    ensures |candidates| + |sqlOnly| + |sweep| == |i.targets|
  {
    forall t
      ensures multiset(candidates)[t] + multiset(sqlOnly)[t] + multiset(sweep)[t] == multiset(i.targets)[t]
    {
      DistinctCounts(candidates, t);
      DistinctCounts(sqlOnly, t);
      DistinctCounts(sweep, t);
      DistinctCounts(i.targets, t);
    }
    assert multiset(candidates) + multiset(sqlOnly) + multiset(sweep) == multiset(i.targets);
    assert |multiset(candidates) + multiset(sqlOnly) + multiset(sweep)| == |candidates| + |sqlOnly| + |sweep|;
    assert |multiset(i.targets)| == |i.targets|;
  }

  lemma RankingKeeps(i: Input, known: map<Target, Known>)
    ensures var r, es := Ranking(i, known), Estimated(i, i.targets);
      && |r| == |es| && Sorting.Sorted(r, LowerScore)
      && (forall x :: x in r ==> x.t in es && x.score == Adjusted(i, known, x.t) && x.floored == ReadingOf(i, x.t).floored)
      && (forall t :: t in es ==> exists k :: 0 <= k < |r| && r[k].t == t)
  {
    var es := Estimated(i, i.targets);
    var raw, r := RankedOf(i, known, es), Ranking(i, known);
    Sorting.SortKeeps(raw, LowerScore);
    Sorting.SortSorted(raw, LowerScore);
    forall x | x in r
      ensures x.t in es && x.score == Adjusted(i, known, x.t) && x.floored == ReadingOf(i, x.t).floored
    {
      assert x in multiset(r);
      assert x in raw;
    }
    forall t | t in es
      ensures exists k :: 0 <= k < |r| && r[k].t == t
    {
      var k :| 0 <= k < |es| && es[k] == t;
      assert raw[k] in multiset(raw);
      assert raw[k] in r;
    }
  }

  /** A swept target is estimated at or above all of the first MaxFleetLimit + CandidateMargin. */
  lemma SweptIsOutsideTheBest(i: Input, known: map<Target, Known>, t: Target)
    requires PassedOver(i, known, t)
    ensures |Top(i, known)| == MAX_FLEET_LIMIT + i.margin
    ensures forall r :: r in Top(i, known) ==> r.t != t && r.score <= Adjusted(i, known, t)
  {
    var r, top := Ranking(i, known), Top(i, known);
    RankingKeeps(i, known);
    var k :| 0 <= k < |r| && r[k].t == t;
    if k < |top| {
      assert false;
    }
    forall x | x in top
      ensures x.t != t && x.score <= Adjusted(i, known, t)
    {
      var j :| 0 <= j < |top| && top[j] == x;
      assert LowerScore(r[j], r[k]);
      assert r[k] in r;
    }
  }

  // ----- the split on readings and memory alone

  /** The target is known by its estimate, or by a last exact score that has not expired, to be at most x. */
  predicate KnownAtMost(i: Input, known: map<Target, Known>, t: Target, x: real) {
    && t in i.readings && i.readings[t].Estimate?
    && (i.readings[t].score <= x || (t in known && i.now - known[t].at < i.stickyTtl && known[t].score <= x))
  }

  /** Both the estimate and an exact score that has not expired are at least x. */
  predicate KnownAtLeast(i: Input, known: map<Target, Known>, t: Target, x: real) {
    && t in i.readings && i.readings[t].Estimate?
    && i.readings[t].score >= x && (t in known && i.now - known[t].at < i.stickyTtl ==> known[t].score >= x)
  }

  /** The adjusted score is the lower of the two, an expired exact score playing no part. */
  lemma AdjustedIsLower(i: Input, known: map<Target, Known>, t: Target, x: real)
    requires ReadingOf(i, t).Estimate?
    ensures Adjusted(i, known, t) <= x <==> KnownAtMost(i, known, t, x)
    ensures Adjusted(i, known, t) >= x <==> KnownAtLeast(i, known, t, x)
  {
  }

  /**
   * Whatever is swept has 50 + margin other ranked targets before it: each is known to be
   * at most as healthy as the swept target's own estimate, and as its own exact score
   * while that has not expired.
   */
  lemma SweptByReadings(i: Input, known: map<Target, Known>, t: Target) returns (better: seq<Target>)
    requires PassedOver(i, known, t)
    ensures |better| == 50 + i.margin && t !in better && multiset(better) <= multiset(i.targets)
    ensures t in i.targets && t in i.readings && i.readings[t].Estimate? && !i.readings[t].floored
    ensures forall u :: u in better ==> KnownAtMost(i, known, u, i.readings[t].score)
    ensures t in known && i.now - known[t].at < i.stickyTtl ==> forall u :: u in better ==> KnownAtMost(i, known, u, known[t].score)
  {
    var top := Top(i, known);
    better := TargetsOf(top);
    SweptIsOutsideTheBest(i, known, t);
    RankingKeeps(i, known);
    forall u | u in better
      ensures u != t && ReadingOf(i, u).Estimate? && Adjusted(i, known, u) <= Adjusted(i, known, t)
    {
      var k :| 0 <= k < |top| && top[k].t == u;
      assert top[k] in top && top[k] in Ranking(i, known);
    }
    forall u | u in better
      ensures KnownAtMost(i, known, u, Adjusted(i, known, t))
    {
      AdjustedIsLower(i, known, u, Adjusted(i, known, t));
    }
    AdjustedIsLower(i, known, t, Adjusted(i, known, t));
    TopIsPartOfTargets(i, known);
  }

  lemma {:induction false} ThoseArePart(ts: seq<Target>, p: Target -> bool)
    ensures multiset(Those(ts, p)) <= multiset(ts)
  {
    if ts != [] {
      ThoseArePart(ts[..|ts| - 1], p);
      assert ts == ts[..|ts| - 1] + [ts[|ts| - 1]];
    }
  }

  lemma TopIsPartOfTargets(i: Input, known: map<Target, Known>)
    ensures multiset(TargetsOf(Top(i, known))) <= multiset(i.targets)
  {
    var r, top := Ranking(i, known), Top(i, known);
    RankingTargets(i, known);
    ThoseArePart(i.targets, t => ReadingOf(i, t).Estimate?);
    assert TargetsOf(r) == TargetsOf(top) + TargetsOf(r[|top|..]);
  }

  /** The metrics read failed for some target, gave nothing for any, and the budget has not ended. */
  predicate NothingRead(i: Input) {
    && !i.ended && (exists t :: t in i.targets && t in i.readings && i.readings[t].ReadFailed?)
    && forall t :: t in i.targets ==> t in i.readings && (i.readings[t].NotMapped? || i.readings[t].ReadFailed?)
  }

  /**
   * Which targets are candidates: all without a reading, those whose read failed while
   * others did not, and of the estimated ones all that are floored, were at the top within
   * the sticky time, or are among the lowest.
   */
  predicate CandidateBy(i: Input, known: map<Target, Known>, t: Target) {
    t in i.targets &&
    if t !in i.readings then true
    else match i.readings[t]
      case NotMapped => false
      case ReadFailed => !NothingRead(i)
      case NoSignals => true
      case Estimate(_, floored) =>
        floored || (t in known && known[t].topAt.Some? && i.now - known[t].topAt.value < i.stickyTtl) || InTop(i, known, t)
  }

  lemma UnavailableIs(i: Input)
    ensures Unavailable(i) <==> NothingRead(i)
  {
    var ts := i.targets;
    assert Failing(i, ts) != [] <==> exists t :: t in Failing(i, ts) by {
      if Failing(i, ts) != [] {
        assert Failing(i, ts)[0] in Failing(i, ts);
      }
    }
    if Estimated(i, ts) != [] {
      assert Estimated(i, ts)[0] in Estimated(i, ts);
    }
    if Unranked(i, ts) != [] {
      assert Unranked(i, ts)[0] in Unranked(i, ts);
    }
  }

  /** Of a split exactly these are candidates, the unmapped and the unreadable ones snapshot-only, and all others swept. */
  lemma SplitByReadings(
    i: Input, known: map<Target, Known>, candidates: seq<Target>, sqlOnly: seq<Target>, sweep: seq<Target>, t: Target)
    requires Splits(i, known, candidates, sqlOnly, sweep)
    ensures t in candidates <==> CandidateBy(i, known, t)
    ensures t in sqlOnly <==> t in i.targets && t in i.readings && (i.readings[t].NotMapped? || (i.readings[t].ReadFailed? && NothingRead(i)))
    ensures t in sweep <==> t in i.targets && t !in candidates && t !in sqlOnly
  {
    UnavailableIs(i);
  }

  // ----- the orders of the parts

  function RecentScore(known: map<Target, Known>, now: int, ttl: int, t: Target): Option<real> {
    if t in known && now - known[t].at < ttl then Some(known[t].score) else None
  }

  /** Recent scores ascending, unknown last. */
  function KnownFirst(known: map<Target, Known>, now: int, ttl: int): (Target, Target) -> bool {
    (a, b) =>
      var x, y := RecentScore(known, now, ttl, a), RecentScore(known, now, ttl, b);
      if x.Some? && y.Some? then x.value <= y.value else x.Some? || y.None?
  }

  /** Oldest exact score first, unknown before all. */
  function StalerFirst(known: map<Target, Known>): (Target, Target) -> bool {
    (a, b) => a !in known || (b in known && known[a].at <= known[b].at)
  }

  /** Targets with an exact score that has not expired first, lower scores before higher ones. */
  predicate RecentFirst(known: map<Target, Known>, now: int, ttl: int, r: seq<Target>) {
    forall j, k :: 0 <= j < k < |r| && r[k] in known && now - known[r[k]].at < ttl ==>
      r[j] in known && now - known[r[j]].at < ttl && known[r[j]].score <= known[r[k]].score
  }

  /** Targets without any exact score first, older scores before newer ones. */
  predicate OldestFirst(known: map<Target, Known>, r: seq<Target>) {
    forall j, k :: 0 <= j < k < |r| && r[j] in known ==> r[k] in known && known[r[j]].at <= known[r[k]].at
  }

  lemma SortedIsRecentFirst(known: map<Target, Known>, now: int, ttl: int, r: seq<Target>)
    requires Sorting.Sorted(r, KnownFirst(known, now, ttl))
    ensures RecentFirst(known, now, ttl, r)
  {
    forall j, k | 0 <= j < k < |r| && r[k] in known && now - known[r[k]].at < ttl
      ensures r[j] in known && now - known[r[j]].at < ttl && known[r[j]].score <= known[r[k]].score
    {
      assert KnownFirst(known, now, ttl)(r[j], r[k]);
    }
  }

  lemma SortedIsOldestFirst(known: map<Target, Known>, r: seq<Target>)
    requires Sorting.Sorted(r, StalerFirst(known))
    ensures OldestFirst(known, r)
  {
    forall j, k | 0 <= j < k < |r| && r[j] in known
      ensures r[k] in known && known[r[j]].at <= known[r[k]].at
    {
      assert StalerFirst(known)(r[j], r[k]);
    }
  }

  lemma SortedPermutation(ts: seq<Target>, le: (Target, Target) -> bool)
    requires Sorting.TotalPreorder(le)
    ensures var r := Sorting.Sort(ts, le);
      multiset(r) == multiset(ts) && Sorting.Sorted(r, le)
  {
    Sorting.SortKeeps(ts, le);
    Sorting.SortSorted(ts, le);
  }

  lemma TwiceCounted(ts: seq<Target>, j: nat, k: nat)
    requires j < k < |ts| && ts[j] == ts[k]
    ensures multiset(ts)[ts[j]] >= 2
  {
    assert ts == ts[..j] + [ts[j]] + ts[j + 1..k] + [ts[k]] + ts[k + 1..];
  }

  lemma SameMembers(a: seq<Target>, b: seq<Target>)
    requires multiset(a) == multiset(b)
    ensures forall t :: t in a <==> t in b
    ensures NoRepeats(a) ==> NoRepeats(b)
  {
    forall t
      ensures t in a <==> t in b
    {
      assert t in a <==> t in multiset(a);
      assert t in b <==> t in multiset(b);
    }
    if NoRepeats(a) {
      forall j, k | 0 <= j < k < |b|
        ensures b[j] != b[k]
      {
        if b[j] == b[k] {
          TwiceCounted(b, j, k);
          DistinctCounts(a, b[j]);
        }
      }
    }
  }

  // ----- the order of the candidates

  function TargetsOf(rs: seq<Ranked>): (ts: seq<Target>)
    ensures |ts| == |rs|
  {
    seq(|rs|, k requires 0 <= k < |rs| => rs[k].t)
  }

  /** Appends the targets that are not there yet, in order. */
  function Adding(acc: seq<Target>, ts: seq<Target>): (r: seq<Target>)
    ensures acc <= r && forall t :: t in r <==> t in acc || t in ts
  {
    if ts == [] then acc
    else
      var front, last := Adding(acc, ts[..|ts| - 1]), ts[|ts| - 1];
      assert ts == ts[..|ts| - 1] + [last];
      if last in front then front else front + [last]
  }

  function Wanted(ts: seq<Target>, wanted: set<Target>): seq<Target> {
    Those(ts, t => t in wanted)
  }

  /** Floored first, then sticky, then the lowest, then whatever has no estimate. */
  function CandidateOrder(ranked: seq<Ranked>, sticky: set<Target>, best: nat, unranked: seq<Target>, failed: seq<Target>): seq<Target> {
    var floored := Adding([], Wanted(TargetsOf(ranked), FlooredIn(ranked)));
    var kept := Adding(floored, Wanted(TargetsOf(ranked), sticky));
    var lowest := Adding(kept, TargetsOf(ranked[..Min(|ranked|, best)]));
    Adding(Adding(lowest, unranked), failed)
  }

  function Candidates(i: Input, known: map<Target, Known>): seq<Target> {
    CandidateOrder(Ranking(i, known), StickySet(i, known, Estimated(i, i.targets)), MAX_FLEET_LIMIT + i.margin,
                   Unranked(i, i.targets), if Unavailable(i) then [] else Failing(i, i.targets))
  }

  /** Why a target is a candidate, most urgent first. */
  function Stage(i: Input, known: map<Target, Known>, t: Target): nat {
    match ReadingOf(i, t)
    case Estimate(_, floored) => if floored then 0 else if Sticky(i, known, t) then 1 else 2
    case NoSignals => 3
    case _ => 4
  }

  /** By stage, and with an estimate by that, lowest first. */
  predicate Sooner(i: Input, known: map<Target, Known>, a: Target, b: Target) {
    Stage(i, known, a) < Stage(i, known, b)
    || (Stage(i, known, a) == Stage(i, known, b)
        && (ReadingOf(i, a).Estimate? && ReadingOf(i, b).Estimate? ==> Adjusted(i, known, a) <= Adjusted(i, known, b)))
  }

  predicate InOrder(i: Input, known: map<Target, Known>, ts: seq<Target>) {
    forall j, k :: 0 <= j < k < |ts| ==> Sooner(i, known, ts[j], ts[k])
  }

  /** What is added is in order and after all that is there. */
  predicate Follows(i: Input, known: map<Target, Known>, acc: seq<Target>, ts: seq<Target>) {
    && (forall t, a :: t in ts && t !in acc && a in acc ==> Sooner(i, known, a, t))
    && forall j, k :: 0 <= j < k < |ts| && ts[j] !in acc && ts[k] !in acc ==> Sooner(i, known, ts[j], ts[k])
  }

  lemma {:induction false} AddingInOrder(i: Input, known: map<Target, Known>, acc: seq<Target>, ts: seq<Target>)
    requires InOrder(i, known, acc) && Follows(i, known, acc, ts)
    ensures InOrder(i, known, Adding(acc, ts))
  {
    if ts != [] {
      var front, last := ts[..|ts| - 1], ts[|ts| - 1];
      assert ts == front + [last];
      AddingInOrder(i, known, acc, front);
      forall a | a in Adding(acc, front) && last !in Adding(acc, front)
        ensures Sooner(i, known, a, last)
      {
        if a !in acc {
          var j :| 0 <= j < |front| && front[j] == a;
          assert ts[j] == a;
        }
      }
    }
  }

  /** Rows of a ranking are in the order of their adjusted estimates. */
  predicate ByEstimate(i: Input, known: map<Target, Known>, ts: seq<Target>) {
    && (forall t :: t in ts ==> ReadingOf(i, t).Estimate?)
    && forall j, k :: 0 <= j < k < |ts| ==> Adjusted(i, known, ts[j]) <= Adjusted(i, known, ts[k])
  }

  lemma RankingByEstimate(i: Input, known: map<Target, Known>)
    ensures ByEstimate(i, known, TargetsOf(Ranking(i, known))) && ByEstimate(i, known, TargetsOf(Top(i, known)))
  {
    var r := Ranking(i, known);
    RankingKeeps(i, known);
    forall k | 0 <= k < |r|
      ensures ReadingOf(i, r[k].t).Estimate? && r[k].score == Adjusted(i, known, r[k].t)
    {
      assert r[k] in r;
    }
    forall j, k | 0 <= j < k < |r|
      ensures r[j].score <= r[k].score
    {
      assert LowerScore(r[j], r[k]);
    }
  }

  lemma {:induction false} ThoseByEstimate(i: Input, known: map<Target, Known>, ts: seq<Target>, p: Target -> bool)
    requires ByEstimate(i, known, ts)
    ensures ByEstimate(i, known, Those(ts, p))
  {
    if ts != [] {
      var front, last := ts[..|ts| - 1], ts[|ts| - 1];
      assert ts == front + [last];
      ThoseByEstimate(i, known, front, p);
      forall a | a in Those(front, p)
        ensures Adjusted(i, known, a) <= Adjusted(i, known, last)
      {
        var j :| 0 <= j < |front| && front[j] == a;
        assert ts[j] == a;
      }
    }
  }

  /** Targets of one stage, after only earlier ones, follow. */
  lemma StageFollows(i: Input, known: map<Target, Known>, acc: seq<Target>, ts: seq<Target>, stage: nat)
    requires forall t :: t in ts && t !in acc ==> Stage(i, known, t) == stage
    requires forall a :: a in acc ==> Stage(i, known, a) < stage
    requires stage <= 2 ==> ByEstimate(i, known, ts)
    ensures Follows(i, known, acc, ts)
  {
    forall j, k | 0 <= j < k < |ts| && ts[j] !in acc && ts[k] !in acc
      ensures Sooner(i, known, ts[j], ts[k])
    {
      assert ts[j] in ts && ts[k] in ts;
    }
  }

  /** Candidates are scored most urgent first: floored ones, sticky ones, the lowest estimates, then those without any. */
  lemma CandidatesInOrder(i: Input, known: map<Target, Known>)
    ensures InOrder(i, known, Candidates(i, known))
  {
    var ts, flooredSet := TargetsOf(Ranking(i, known)), FlooredIn(Ranking(i, known));
    var sticky := StickySet(i, known, Estimated(i, i.targets));
    RankingByEstimate(i, known);
    ThoseByEstimate(i, known, ts, t => t in sticky);
    RankedMembers(i, known, flooredSet, sticky);
    FlooredStage(i, known, Wanted(ts, flooredSet));
    LaterStages(i, known, Adding([], Wanted(ts, flooredSet)), Wanted(ts, sticky));
  }

  predicate FlooredBy(i: Input, t: Target) {
    t in i.readings && i.readings[t].Estimate? && i.readings[t].floored
  }

  predicate StickyBy(i: Input, known: map<Target, Known>, t: Target) {
    t in i.readings && i.readings[t].Estimate? && t in known && known[t].topAt.Some? && i.now - known[t].topAt.value < i.stickyTtl
  }

  /**
   * The same on readings and memory: no floored target after one that is not, no sticky
   * one after one that is neither, no estimated one after one without; and of two that are
   * estimated and equally urgent the first is known to be at most as healthy as the second.
   */
  lemma CandidatesByReadings(i: Input, known: map<Target, Known>, j: nat, k: nat, x: real)
    requires j < k < |Candidates(i, known)|
    ensures var a, b := Candidates(i, known)[j], Candidates(i, known)[k];
      && (FlooredBy(i, b) ==> FlooredBy(i, a))
      && (StickyBy(i, known, b) ==> FlooredBy(i, a) || StickyBy(i, known, a))
      && (b in i.readings && i.readings[b].Estimate? ==> a in i.readings && i.readings[a].Estimate?)
      && (b !in i.readings || i.readings[b].NoSignals? ==> a !in i.readings || !(i.readings[a].ReadFailed? || i.readings[a].NotMapped?))
      && ((FlooredBy(i, a) <==> FlooredBy(i, b)) && (StickyBy(i, known, a) <==> StickyBy(i, known, b)) && KnownAtMost(i, known, b, x)
          ==> KnownAtMost(i, known, a, x))
  {
    CandidatesInOrder(i, known);
    var a, b := Candidates(i, known)[j], Candidates(i, known)[k];
    assert Sooner(i, known, a, b);
    if KnownAtMost(i, known, b, x) && ReadingOf(i, a).Estimate? {
      AdjustedIsLower(i, known, b, x);
      AdjustedIsLower(i, known, a, x);
    }
  }

  lemma FlooredStage(i: Input, known: map<Target, Known>, a: seq<Target>)
    requires ByEstimate(i, known, a) && forall t :: t in a ==> ReadingOf(i, t).floored
    ensures InOrder(i, known, Adding([], a))
  {
    StageFollows(i, known, [], a, 0);
    AddingInOrder(i, known, [], a);
  }

  /** Which targets the ranked stages want. */
  lemma RankedMembers(i: Input, known: map<Target, Known>, floored: set<Target>, sticky: set<Target>)
    requires floored == FlooredIn(Ranking(i, known)) && sticky == StickySet(i, known, Estimated(i, i.targets))
    ensures var ts := TargetsOf(Ranking(i, known));
      && ByEstimate(i, known, Wanted(ts, floored))
      && (forall t :: t in Wanted(ts, floored) <==> t in Estimated(i, i.targets) && ReadingOf(i, t).floored)
      && (forall t :: t in Wanted(ts, sticky) <==> t in Estimated(i, i.targets) && Sticky(i, known, t))
    ensures forall t :: t in TargetsOf(Top(i, known)) ==> t in Estimated(i, i.targets)
  {
    var ts := TargetsOf(Ranking(i, known));
    RankingByEstimate(i, known);
    ThoseByEstimate(i, known, ts, t => t in floored);
    RankingTargets(i, known);
    SameMembers(ts, Estimated(i, i.targets));
    RankingSets(i, known);
    forall t | t in TargetsOf(Top(i, known))
      ensures t in ts
    {
      var k :| 0 <= k < |Top(i, known)| && Top(i, known)[k].t == t;
      assert ts[k] == t;
    }
  }

  lemma LaterStages(i: Input, known: map<Target, Known>, floored: seq<Target>, b: seq<Target>)
    requires InOrder(i, known, floored) && ByEstimate(i, known, b) && ByEstimate(i, known, TargetsOf(Top(i, known)))
    requires forall t :: t in floored <==> t in Estimated(i, i.targets) && ReadingOf(i, t).floored
    requires forall t :: t in b <==> t in Estimated(i, i.targets) && Sticky(i, known, t)
    requires forall t :: t in TargetsOf(Top(i, known)) ==> t in Estimated(i, i.targets)
    ensures var lowest := Adding(Adding(floored, b), TargetsOf(Top(i, known)));
      InOrder(i, known, Adding(Adding(lowest, Unranked(i, i.targets)), if Unavailable(i) then [] else Failing(i, i.targets)))
  {
    StageFollows(i, known, floored, b, 1);
    AddingInOrder(i, known, floored, b);
    var kept, c := Adding(floored, b), TargetsOf(Top(i, known));
    StageFollows(i, known, kept, c, 2);
    AddingInOrder(i, known, kept, c);
    var lowest, d := Adding(kept, c), Unranked(i, i.targets);
    StageFollows(i, known, lowest, d, 3);
    AddingInOrder(i, known, lowest, d);
    var rest, e := Adding(lowest, d), if Unavailable(i) then [] else Failing(i, i.targets);
    StageFollows(i, known, rest, e, 4);
    AddingInOrder(i, known, rest, e);
  }

  // ----- the code

  function TargetsIn(rs: seq<Ranked>): set<Target> {
    set r | r in rs :: r.t
  }

  function FlooredIn(rs: seq<Ranked>): set<Target> {
    set r | r in rs && r.floored :: r.t
  }

  /** Adds the targets of the wanted rows that are not picked yet, in order. */
  method Pick(rs: seq<Ranked>, wanted: set<Target>, picked: set<Target>, candidates: seq<Target>)
    returns (picked': set<Target>, candidates': seq<Target>, added: nat)
    requires SetOf(candidates) == picked && NoRepeats(candidates)
    ensures picked' == picked + TargetsIn(rs) * wanted && SetOf(candidates') == picked' && NoRepeats(candidates')
    ensures candidates <= candidates' && added == |candidates'| - |candidates|
    ensures candidates' == Adding(candidates, Wanted(TargetsOf(rs), wanted))
  {
    picked', candidates', added := picked, candidates, 0;
    ghost var ts := TargetsOf(rs);
    for k := 0 to |rs|
      invariant candidates' == Adding(candidates, Wanted(ts[..k], wanted)) && added == |candidates'| - |candidates|
      invariant Holds(candidates', picked')
    {
      WantedOneMore(candidates, ts, k, wanted);
      if rs[k].t in wanted && rs[k].t !in picked' {
        HoldsOneMore(candidates', picked', rs[k].t);
        picked', candidates', added := picked' + {rs[k].t}, candidates' + [rs[k].t], added + 1;
      } else {
        assert rs[k].t in picked' <==> rs[k].t in SetOf(candidates');
      }
    }
    assert ts[..|rs|] == ts;
    PickedSet(rs, wanted, candidates);
  }

  /** The candidates are the picked targets, each once. */
  predicate Holds(candidates: seq<Target>, picked: set<Target>) {
    SetOf(candidates) == picked && NoRepeats(candidates)
  }

  lemma HoldsOneMore(candidates: seq<Target>, picked: set<Target>, t: Target)
    requires Holds(candidates, picked) && t !in picked
    ensures Holds(candidates + [t], picked + {t}) && t !in candidates
  {
    assert t in SetOf(candidates) <==> t in candidates;
  }

  lemma PickedSet(rs: seq<Ranked>, wanted: set<Target>, candidates: seq<Target>)
    ensures SetOf(Adding(candidates, Wanted(TargetsOf(rs), wanted))) == SetOf(candidates) + TargetsIn(rs) * wanted
  {
    var ts := TargetsOf(rs);
    forall t
      ensures t in ts <==> t in TargetsIn(rs)
    {
      if t in ts {
        var k :| 0 <= k < |ts| && ts[k] == t;
        assert rs[k] in rs;
      } else if r :| r in rs && r.t == t {
        var k :| 0 <= k < |rs| && rs[k] == r;
        assert ts[k] == t;
      }
    }
  }

  lemma WantedOneMore(acc: seq<Target>, ts: seq<Target>, k: nat, wanted: set<Target>)
    requires k < |ts|
    ensures var before := Adding(acc, Wanted(ts[..k], wanted));
      Adding(acc, Wanted(ts[..k + 1], wanted)) == if ts[k] in wanted && ts[k] !in before then before + [ts[k]] else before
  {
    assert ts[..k + 1][..k] == ts[..k];
    var w := Wanted(ts[..k], wanted);
    assert (w + [ts[k]])[..|w|] == w;
  }

  /** Adds the targets that are not picked yet, in order. */
  method PickAll(ts: seq<Target>, picked: set<Target>, candidates: seq<Target>)
    returns (picked': set<Target>, candidates': seq<Target>)
    requires SetOf(candidates) == picked && NoRepeats(candidates)
    ensures picked' == picked + SetOf(ts) && SetOf(candidates') == picked' && NoRepeats(candidates')
    ensures candidates <= candidates' && candidates' == Adding(candidates, ts)
  {
    picked', candidates' := picked, candidates;
    for k := 0 to |ts|
      invariant picked' == picked + SetOf(ts[..k]) && SetOf(candidates') == picked' && NoRepeats(candidates')
      invariant candidates <= candidates' && candidates' == Adding(candidates, ts[..k])
    {
      assert ts[..k + 1][..k] == ts[..k];
      if ts[k] !in picked' {
        picked', candidates' := picked' + {ts[k]}, candidates' + [ts[k]];
      }
    }
    assert ts[..|ts|] == ts;
  }

  /** Sorts the fleet by what the instant metrics say of each target. */
  method Classify(i: Input) returns (estimated: seq<Target>, unranked: seq<Target>, failed: seq<Target>, unmapped: seq<Target>)
    ensures estimated == Estimated(i, i.targets) && unranked == Unranked(i, i.targets)
    ensures failed == Failing(i, i.targets) && unmapped == Unmapped(i, i.targets)
  {
    var ts := i.targets;
    estimated, unranked, failed, unmapped := [], [], [], [];
    for k := 0 to |ts|
      invariant estimated == Estimated(i, ts[..k]) && unranked == Unranked(i, ts[..k])
      invariant failed == Failing(i, ts[..k]) && unmapped == Unmapped(i, ts[..k])
    {
      assert ts[..k + 1][..k] == ts[..k];
      match ReadingOf(i, ts[k]) {
        case NotMapped => unmapped := unmapped + [ts[k]];
        case ReadFailed => failed := failed + [ts[k]];
        case NoSignals => unranked := unranked + [ts[k]];
        case Estimate(_, _) => estimated := estimated + [ts[k]];
      }
    }
    assert ts[..|ts|] == ts;
  }

  function StickySet(i: Input, known: map<Target, Known>, ts: seq<Target>): set<Target> {
    set t | t in ts && Sticky(i, known, t)
  }

  function AsRead(i: Input, t: Target): Ranked
    requires ReadingOf(i, t).Estimate?
  {
    Ranked(t, ReadingOf(i, t).score, ReadingOf(i, t).floored)
  }

  /** One row after the lookup of its target. */
  method Recall(i: Input, known: map<Target, Known>, r: Ranked) returns (r': Ranked, sticky: bool)
    requires ReadingOf(i, r.t).Estimate? && r == AsRead(i, r.t)
    ensures r' == Ranked(r.t, Adjusted(i, known, r.t), ReadingOf(i, r.t).floored) && sticky == Sticky(i, known, r.t)
  {
    r', sticky := r, false;
    if r.t in known {
      var last := known[r.t];
      if i.now - last.at < i.stickyTtl {
        r' := r.(score := if last.score < r.score then last.score else r.score);
      }
      if last.topAt.Some? && i.now - last.topAt.value < i.stickyTtl {
        sticky := true;
      }
    }
  }

  lemma StickyOneMore(i: Input, known: map<Target, Known>, ts: seq<Target>, k: nat)
    requires k < |ts|
    ensures StickySet(i, known, ts[..k + 1]) == StickySet(i, known, ts[..k]) + if Sticky(i, known, ts[k]) then {ts[k]} else {}
  {
    assert ts[..k + 1] == ts[..k] + [ts[k]];
  }

  lemma EstimatedRead(i: Input, k: nat)
    requires k < |Estimated(i, i.targets)|
    ensures ReadingOf(i, Estimated(i, i.targets)[k]).Estimate?
  {
    assert Estimated(i, i.targets)[k] in Estimated(i, i.targets);
  }

  /** Lowers estimates to recent exact scores, notes the sticky targets and sorts. */
  method Rank(i: Input, known: map<Target, Known>, estimated: seq<Target>) returns (ranked: seq<Ranked>, sticky: set<Target>)
    requires estimated == Estimated(i, i.targets)
    ensures ranked == Ranking(i, known) && sticky == StickySet(i, known, estimated)
  {
    ranked, sticky := [], {};
    for k := 0 to |estimated|
      invariant ranked == RankedOf(i, known, estimated)[..k] && sticky == StickySet(i, known, estimated[..k])
    {
      EstimatedRead(i, k);
      StickyOneMore(i, known, estimated, k);
      var r, kept := Recall(i, known, AsRead(i, estimated[k]));
      ranked := ranked + [r];
      if kept {
        sticky := sticky + {estimated[k]};
      }
    }
    assert estimated[..|estimated|] == estimated;
    assert ranked == RankedOf(i, known, estimated);
    ranked := Sorting.Sort(ranked, LowerScore);
  }

  /** Floored first, then sticky, then the lowest, then whatever has no estimate. */
  method PickCandidates(ranked: seq<Ranked>, sticky: set<Target>, best: nat, unranked: seq<Target>, failed: seq<Target>)
    returns (candidates: seq<Target>, picked: set<Target>, floor: nat, kept: nat)
    ensures picked == FlooredIn(ranked) + TargetsIn(ranked) * sticky + TargetsIn(ranked[..Min(|ranked|, best)])
      + SetOf(unranked) + SetOf(failed)
    ensures SetOf(candidates) == picked && NoRepeats(candidates) && floor + kept <= |candidates|
    ensures floor == |FlooredIn(ranked)| && candidates == CandidateOrder(ranked, sticky, best, unranked, failed)
  {
    var n;
    picked, candidates, floor := PickFloored(ranked);
    picked, candidates, kept := Pick(ranked, sticky, picked, candidates);
    var top := ranked[..Min(|ranked|, best)];
    AllWanted(top, TargetsOf(top));
    picked, candidates, n := Pick(top, TargetsIn(top), picked, candidates);
    picked, candidates := PickAll(unranked, picked, candidates);
    picked, candidates := PickAll(failed, picked, candidates);
  }

  method PickFloored(ranked: seq<Ranked>) returns (picked: set<Target>, candidates: seq<Target>, floor: nat)
    ensures picked == FlooredIn(ranked) && SetOf(candidates) == picked && NoRepeats(candidates)
    ensures floor == |candidates| == |FlooredIn(ranked)|
    ensures candidates == Adding([], Wanted(TargetsOf(ranked), FlooredIn(ranked)))
  {
    picked, candidates, floor := Pick(ranked, FlooredIn(ranked), {}, []);
    assert TargetsIn(ranked) * FlooredIn(ranked) == FlooredIn(ranked);
    DistinctSize(candidates);
  }

  lemma AllWanted(rs: seq<Ranked>, ts: seq<Target>)
    requires ts == TargetsOf(rs)
    ensures Wanted(ts, TargetsIn(rs)) == ts
  {
    forall t | t in ts
      ensures t in TargetsIn(rs)
    {
      var k :| 0 <= k < |ts| && ts[k] == t;
      assert rs[k] in rs;
    }
    EachWanted(ts, TargetsIn(rs));
  }

  lemma {:induction false} EachWanted(ts: seq<Target>, wanted: set<Target>)
    requires forall t :: t in ts ==> t in wanted
    ensures Wanted(ts, wanted) == ts
  {
    if ts != [] {
      EachWanted(ts[..|ts| - 1], wanted);
      assert ts == ts[..|ts| - 1] + [ts[|ts| - 1]];
    }
  }

  lemma {:induction false} DistinctSize(ts: seq<Target>)
    requires NoRepeats(ts)
    ensures |SetOf(ts)| == |ts|
  {
    if ts != [] {
      var front, last := ts[..|ts| - 1], ts[|ts| - 1];
      DistinctSize(front);
      assert SetOf(ts) == SetOf(front) + {last};
    }
  }

  lemma RankingSets(i: Input, known: map<Target, Known>)
    ensures TargetsIn(Ranking(i, known)) == SetOf(Estimated(i, i.targets))
    ensures forall t :: t in FlooredIn(Ranking(i, known)) <==> t in Estimated(i, i.targets) && ReadingOf(i, t).floored
    ensures forall t :: t in TargetsIn(Top(i, known)) <==> InTop(i, known, t)
    ensures TargetsIn(Top(i, known)) <= SetOf(Estimated(i, i.targets))
  {
    var es, r := Estimated(i, i.targets), Ranking(i, known);
    RankingKeeps(i, known);
    forall t | t in es
      ensures t in TargetsIn(r) && (ReadingOf(i, t).floored ==> t in FlooredIn(r))
    {
      var k :| 0 <= k < |r| && r[k].t == t;
      assert r[k] in r;
    }
    forall x | x in Top(i, known)
      ensures x in r
    {
    }
  }

  /** The picked targets are exactly those that are neither passed over nor snapshot-only. */
  lemma PickedMeans(i: Input, known: map<Target, Known>, picked: set<Target>, failed: seq<Target>)
    requires var r := Ranking(i, known);
      picked == FlooredIn(r) + TargetsIn(r) * StickySet(i, known, Estimated(i, i.targets)) + TargetsIn(Top(i, known))
        + SetOf(Unranked(i, i.targets)) + SetOf(failed)
    requires failed == if Unavailable(i) then [] else Failing(i, i.targets)
    ensures forall t :: t in picked <==> t in i.targets && !PassedOver(i, known, t) && !SnapshotOnly(i, t)
  {
    RankingSets(i, known);
    forall t
      ensures t in picked <==> t in i.targets && !PassedOver(i, known, t) && !SnapshotOnly(i, t)
    {
      match ReadingOf(i, t)
      case NotMapped =>
      case ReadFailed =>
      case NoSignals =>
      case Estimate(_, _) =>
    }
  }

  /** A finished row: the exact score, none when it could not be computed. */
  datatype Finished = Finished(t: Target, score: Option<real>)

  /** What remembering rows [..n] makes of the entry of t: the last score of t, and whether a top row was its. */
  function Noted(known: map<Target, Known>, rows: seq<Finished>, limit: int, at: int, t: Target): Option<Known> {
    if rows == [] then (if t in known then Some(known[t]) else None)
    else
      var n := |rows| - 1;
      var before := Noted(known, rows[..n], limit, at, t);
      if rows[n].t != t || rows[n].score.None? then before
      else Some(Known(rows[n].score.value, at, if n < limit then Some(at) else if before.Some? then before.value.topAt else None))
  }

  /** Entries too old to lower an estimate or to keep a place are forgotten. */
  predicate Forgotten(k: Known, at: int, ttl: int) {
    at - k.at >= ttl && (k.topAt.None? || at - k.topAt.value >= ttl)
  }

  ghost predicate Remembers(known: map<Target, Known>, known': map<Target, Known>, rows: seq<Finished>, limit: int, at: int, ttl: int) {
    forall t ::
      var noted := Noted(known, rows, limit, at, t);
      && (t in known' <==> noted.Some? && !Forgotten(noted.value, at, ttl))
      && (t in known' ==> known'[t] == noted.value)
  }

  lemma {:induction false} TopRowNoted(known: map<Target, Known>, rows: seq<Finished>, limit: int, at: int, n: nat)
    requires n < |rows| && n < limit && rows[n].score.Some?
    ensures var k := Noted(known, rows, limit, at, rows[n].t); k.Some? && k.value.topAt == Some(at) && k.value.at == at
  {
    if n < |rows| - 1 {
      TopRowNoted(known, rows[..|rows| - 1], limit, at, n);
    }
  }

  predicate ScoredAt(rows: seq<Finished>, n: nat, t: Target) {
    n < |rows| && rows[n].t == t && rows[n].score.Some?
  }

  lemma {:induction false} UnscoredNoted(known: map<Target, Known>, rows: seq<Finished>, limit: int, at: int, t: Target)
    requires forall n :: 0 <= n < |rows| ==> !ScoredAt(rows, n, t)
    ensures Noted(known, rows, limit, at, t) == if t in known then Some(known[t]) else None
  {
    if rows != [] {
      var front := rows[..|rows| - 1];
      assert forall n :: 0 <= n < |front| ==> (ScoredAt(front, n, t) <==> ScoredAt(rows, n, t));
      assert !ScoredAt(rows, |rows| - 1, t);
      UnscoredNoted(known, front, limit, at, t);
    }
  }

  /** Of a target scored last in row n that score and this time are noted, and the top time when any of its rows made the top. */
  lemma {:induction false} ScoredNoted(known: map<Target, Known>, rows: seq<Finished>, limit: int, at: int, t: Target, n: nat)
    requires ScoredAt(rows, n, t) && forall m :: n < m < |rows| ==> !ScoredAt(rows, m, t)
    ensures var k := Noted(known, rows, limit, at, t);
      && k.Some? && k.value.score == rows[n].score.value && k.value.at == at
      && ((exists m :: 0 <= m < limit && ScoredAt(rows, m, t)) ==> k.value.topAt == Some(at))
      && ((forall m :: 0 <= m < limit ==> !ScoredAt(rows, m, t)) ==> k.value.topAt == if t in known then known[t].topAt else None)
    decreases |rows|
  {
    var front := rows[..|rows| - 1];
    assert forall m :: 0 <= m < |front| ==> (ScoredAt(front, m, t) <==> ScoredAt(rows, m, t));
    if n < |rows| - 1 {
      assert !ScoredAt(rows, |rows| - 1, t);
      ScoredNoted(known, front, limit, at, t, n);
    } else if m :| 0 <= m < |front| && ScoredAt(front, m, t) {
      var last := LastScored(front, t, m);
      ScoredNoted(known, front, limit, at, t, last);
    } else {
      UnscoredNoted(known, front, limit, at, t);
    }
  }

  lemma LastScored(rows: seq<Finished>, t: Target, m: nat) returns (n: nat)
    requires ScoredAt(rows, m, t)
    ensures ScoredAt(rows, n, t) && forall k :: n < k < |rows| ==> !ScoredAt(rows, k, t)
  {
    n := |rows| - 1;
    while !ScoredAt(rows, n, t)
      decreases n
      invariant m <= n < |rows| && forall k :: n < k < |rows| ==> !ScoredAt(rows, k, t)
    {
      n := n - 1;
    }
  }

  /** What was noted is kept while its score or its place at the top is younger than the sticky time. */
  lemma KeptWhileRecent(known: map<Target, Known>, known': map<Target, Known>, rows: seq<Finished>, limit: int, at: int, ttl: int, t: Target)
    requires Remembers(known, known', rows, limit, at, ttl)
    ensures var k := Noted(known, rows, limit, at, t);
      && (t in known' <==> k.Some? && (at - k.value.at < ttl || (k.value.topAt.Some? && at - k.value.topAt.value < ttl)))
      && (t in known' ==> known'[t] == k.value)
  {
  }

  /** One finished computation as it is remembered. */
  datatype Computation = Computation(rows: seq<Finished>, limit: int, at: int)

  /** What is known before, between and after these computations, whose times never go back. */
  ghost predicate Remembered(memory: seq<map<Target, Known>>, done: seq<Computation>, ttl: int) {
    && |memory| == |done| + 1
    && (forall s :: 0 <= s < |done| ==> Remembers(memory[s], memory[s + 1], done[s].rows, done[s].limit, done[s].at, ttl))
    && forall s, u :: 0 <= s < u < |done| ==> done[s].at <= done[u].at
  }

  predicate OnTopSince(known: map<Target, Known>, t: Target, at: int) {
    t in known && known[t].topAt.Some? && known[t].topAt.value >= at
  }

  lemma {:induction false} NotedStaysOnTop(known: map<Target, Known>, rows: seq<Finished>, limit: int, now: int, t: Target, at: int)
    requires OnTopSince(known, t, at) && at <= now
    ensures var k := Noted(known, rows, limit, now, t); k.Some? && k.value.topAt.Some? && k.value.topAt.value >= at
  {
    if rows != [] {
      NotedStaysOnTop(known, rows[..|rows| - 1], limit, now, t, at);
    }
  }

  lemma OnTopKept(known: map<Target, Known>, known': map<Target, Known>, c: Computation, ttl: int, t: Target, at: int)
    requires Remembers(known, known', c.rows, c.limit, c.at, ttl) && at <= c.at && c.at - at < ttl
    requires OnTopSince(known, t, at) || exists n :: 0 <= n < |c.rows| && n < c.limit && c.rows[n].t == t && c.rows[n].score.Some? && c.at == at
    ensures OnTopSince(known', t, at)
  {
    if OnTopSince(known, t, at) {
      NotedStaysOnTop(known, c.rows, c.limit, c.at, t, at);
    } else {
      var n :| 0 <= n < |c.rows| && n < c.limit && c.rows[n].t == t && c.rows[n].score.Some? && c.at == at;
      TopRowNoted(known, c.rows, c.limit, c.at, n);
    }
  }

  /** A row that made the top of a computation is known to have been there, as long as it is recent, whatever is computed later. */
  lemma {:induction false} TopIsRemembered(memory: seq<map<Target, Known>>, done: seq<Computation>, ttl: int, j: nat, n: nat, m: nat)
    requires Remembered(memory, done, ttl) && j < m <= |done| && n < |done[j].rows| && n < done[j].limit && done[j].rows[n].score.Some?
    requires done[m - 1].at - done[j].at < ttl
    ensures OnTopSince(memory[m], done[j].rows[n].t, done[j].at)
  {
    if m - 1 > j {
      TopIsRemembered(memory, done, ttl, j, n, m - 1);
    }
    OnTopKept(memory[m - 1], memory[m], done[m - 1], ttl, done[j].rows[n].t, done[j].at);
  }

  /**
   * A row that made the top of one computation is not passed over by any split within the
   * sticky time, however many computations end in between.
   */
  lemma TopStaysCandidate(memory: seq<map<Target, Known>>, done: seq<Computation>, j: nat, n: nat, i: Input)
    requires Remembered(memory, done, i.stickyTtl) && j < |done| && done[|done| - 1].at <= i.now
    requires n < |done[j].rows| && n < done[j].limit && done[j].rows[n].score.Some? && i.now - done[j].at < i.stickyTtl
    ensures !PassedOver(i, memory[|done|], done[j].rows[n].t)
  {
    TopIsRemembered(memory, done, i.stickyTtl, j, n, |done|);
  }

  class Memory {
    var known: map<Target, Known>

    constructor ()
      ensures known == map[]
    {
      known := map[];
    }

    /** Targets scored recently, worst first, and the others after them. */
    method ByKnownScore(ts: seq<Target>, now: int, ttl: int) returns (r: seq<Target>)
      ensures multiset(r) == multiset(ts) && RecentFirst(known, now, ttl, r)
    {
      SortedPermutation(ts, KnownFirst(known, now, ttl));
      r := Sorting.Sort(ts, KnownFirst(known, now, ttl));
      SortedIsRecentFirst(known, now, ttl, r);
    }

    /** Targets never scored, then those scored longest ago. */
    method StalestFirst(ts: seq<Target>) returns (r: seq<Target>)
      ensures multiset(r) == multiset(ts) && OldestFirst(known, r)
    {
      SortedPermutation(ts, StalerFirst(known));
      r := Sorting.Sort(ts, StalerFirst(known));
      SortedIsOldestFirst(known, r);
    }

    /** The targets of the ranking that were not picked. */
    method NotPicked(ranked: seq<Ranked>, picked: set<Target>) returns (sweep: seq<Target>)
      ensures sweep == Those(TargetsOf(ranked), t => t !in picked)
    {
      ghost var ts := TargetsOf(ranked);
      sweep := [];
      for k := 0 to |ranked|
        invariant sweep == Those(ts[..k], t => t !in picked)
      {
        assert ts[..k + 1][..k] == ts[..k];
        if ranked[k].t !in picked {
          sweep := sweep + [ranked[k].t];
        }
      }
      assert ts[..|ranked|] == ts;
    }

    /** The three parts, the last two not yet in order. */
    method Parts(i: Input) returns (s: Split)
      ensures Splits(i, known, s.candidates, s.sqlOnly, s.sweep) && s.candidates == Candidates(i, known)
      ensures s.withMetrics == |i.targets| - |s.sqlOnly| && s.unmapped == |Unmapped(i, i.targets)|
      ensures s.failed == |Failing(i, i.targets)| && s.unavailable == Unavailable(i)
    {
      var estimated, unranked, failed, sqlOnly := Classify(i);
      s := Split([], [], [], 0, 0, 0, |sqlOnly|, |failed|, false);
      if |failed| > 0 && estimated == [] && unranked == [] && !i.ended {
        s := s.(unavailable := true);
        sqlOnly, failed := sqlOnly + failed, [];
      }
      SnapshotOnlyMeans(i, sqlOnly);
      var ranked, sticky := Rank(i, known, estimated);
      var candidates, picked, floor, kept := PickCandidates(ranked, sticky, MAX_FLEET_LIMIT + i.margin, unranked, failed);
      PickedMeans(i, known, picked, failed);
      var sweep := NotPicked(ranked, picked);
      PartsSplit(i, known, candidates, picked, sqlOnly, sweep);
      s := s.(candidates := candidates, sqlOnly := sqlOnly, sweep := sweep,
              withMetrics := |i.targets| - |sqlOnly|, floor := floor, sticky := kept);
    }

    /** Splits the fleet by what the instant metrics say and what is remembered. */
    method RankedSplit(i: Input) returns (s: Split)
      ensures Splits(i, known, s.candidates, s.sqlOnly, s.sweep) && s.candidates == Candidates(i, known)
      ensures RecentFirst(known, i.now, i.stickyTtl, s.sqlOnly) && OldestFirst(known, s.sweep)
      ensures s.withMetrics == |i.targets| - |s.sqlOnly| && s.unmapped == |Unmapped(i, i.targets)|
      ensures s.failed == |Failing(i, i.targets)| && s.unavailable == Unavailable(i)
    {
      var parts := Parts(i);
      var sqlOnly := ByKnownScore(parts.sqlOnly, i.now, i.stickyTtl);
      var sweep := StalestFirst(parts.sweep);
      SameMembers(parts.sqlOnly, sqlOnly);
      SameMembers(parts.sweep, sweep);
      assert |parts.sqlOnly| == |multiset(parts.sqlOnly)| == |sqlOnly|;
      s := parts.(sqlOnly := sqlOnly, sweep := sweep);
    }

    /** Without metrics everything is scored from snapshots; an exhaustive call takes everything as candidate. */
    method Prefilter(i: Input) returns (s: Split)
      ensures !i.enabled ==> multiset(s.sqlOnly) == multiset(i.targets) && s.candidates == [] && s.sweep == []
      ensures !i.enabled ==> RecentFirst(known, i.now, i.stickyTtl, s.sqlOnly)
      ensures i.enabled && i.exhaustive ==> s.candidates == i.targets && s.sqlOnly == [] && s.sweep == []
      ensures i.enabled && !i.exhaustive ==> Splits(i, known, s.candidates, s.sqlOnly, s.sweep) && s.candidates == Candidates(i, known)
      ensures i.enabled && !i.exhaustive ==> InOrder(i, known, s.candidates)
      ensures i.enabled && !i.exhaustive ==> RecentFirst(known, i.now, i.stickyTtl, s.sqlOnly) && OldestFirst(known, s.sweep)
      ensures NoRepeats(i.targets) ==> multiset(s.candidates) + multiset(s.sqlOnly) + multiset(s.sweep) == multiset(i.targets)
    {
      if !i.enabled {
        var all := ByKnownScore(i.targets, i.now, i.stickyTtl);
        return Split([], all, [], 0, 0, 0, 0, 0, false);
      }
      if i.exhaustive {
        return Split(i.targets, [], [], |i.targets|, 0, 0, 0, 0, false);
      }
      s := RankedSplit(i);
      CandidatesInOrder(i, known);
      if NoRepeats(i.targets) {
        SplitIsLossless(i, known, s.candidates, s.sqlOnly, s.sweep);
      }
    }

    /** Keeps what was just scored: a score for each scored row, and a place at the top for the first ones. */
    method Remember(rows: seq<Finished>, limit: int, at: int, ttl: int)
      modifies this
      ensures Remembers(old(known), known, rows, limit, at, ttl)
    {
      for n := 0 to |rows|
        invariant forall t :: t in known <==> Noted(old(known), rows[..n], limit, at, t).Some?
        invariant forall t :: t in known ==> known[t] == Noted(old(known), rows[..n], limit, at, t).value
      {
        assert rows[..n + 1][..n] == rows[..n];
        if rows[n].score.Some? {
          var topAt := if n < limit then Some(at) else if rows[n].t in known then known[rows[n].t].topAt else None;
          known := known[rows[n].t := Known(rows[n].score.value, at, topAt)];
        }
      }
      assert rows[..|rows|] == rows;
      known := map t | t in known && !Forgotten(known[t], at, ttl) :: known[t];
    }
  }

  lemma {:induction false} TargetsOfInsert(x: Ranked, rs: seq<Ranked>)
    ensures multiset(TargetsOf(Sorting.Insert(x, rs, LowerScore))) == multiset{x.t} + multiset(TargetsOf(rs))
  {
    if rs == [] || LowerScore(x, rs[0]) {
      assert TargetsOf([x] + rs) == [x.t] + TargetsOf(rs);
    } else {
      var r := Sorting.Insert(x, rs[1..], LowerScore);
      TargetsOfInsert(x, rs[1..]);
      assert TargetsOf([rs[0]] + r) == [rs[0].t] + TargetsOf(r);
      assert TargetsOf(rs) == [rs[0].t] + TargetsOf(rs[1..]);
    }
  }

  lemma {:induction false} TargetsOfSort(rs: seq<Ranked>)
    ensures multiset(TargetsOf(Sorting.Sort(rs, LowerScore))) == multiset(TargetsOf(rs))
  {
    if rs != [] {
      TargetsOfSort(rs[1..]);
      TargetsOfInsert(rs[0], Sorting.Sort(rs[1..], LowerScore));
      assert TargetsOf(rs) == [rs[0].t] + TargetsOf(rs[1..]);
    }
  }

  lemma RankingTargets(i: Input, known: map<Target, Known>)
    ensures multiset(TargetsOf(Ranking(i, known))) == multiset(Estimated(i, i.targets))
  {
    var es := Estimated(i, i.targets);
    TargetsOfSort(RankedOf(i, known, es));
    assert TargetsOf(RankedOf(i, known, es)) == es;
  }

  lemma SnapshotOnlyMeans(i: Input, sqlOnly: seq<Target>)
    requires sqlOnly == Unmapped(i, i.targets) + if Unavailable(i) then Failing(i, i.targets) else []
    ensures forall t :: t in sqlOnly <==> SnapshotOnly(i, t)
    ensures NoRepeats(i.targets) ==> NoRepeats(sqlOnly)
  {
    var a, b := Unmapped(i, i.targets), if Unavailable(i) then Failing(i, i.targets) else [];
    DistinctConcat(a, b);
  }

  lemma DistinctConcat(a: seq<Target>, b: seq<Target>)
    requires forall t :: t in a ==> t !in b
    ensures NoRepeats(a) && NoRepeats(b) ==> NoRepeats(a + b)
  {
    var c := a + b;
    forall j, k | 0 <= j < k < |c| && NoRepeats(a) && NoRepeats(b)
      ensures c[j] != c[k]
    {
      if j < |a| <= k {
        assert a[j] in a && b[k - |a|] in b;
      }
    }
  }

  lemma PartsSplit(i: Input, known: map<Target, Known>, candidates: seq<Target>, picked: set<Target>, sqlOnly: seq<Target>, sweep: seq<Target>)
    requires SetOf(candidates) == picked && NoRepeats(candidates)
    requires forall t :: t in picked <==> t in i.targets && !PassedOver(i, known, t) && !SnapshotOnly(i, t)
    requires forall t :: t in sqlOnly <==> SnapshotOnly(i, t)
    requires NoRepeats(i.targets) ==> NoRepeats(sqlOnly)
    requires sweep == Those(TargetsOf(Ranking(i, known)), t => t !in picked)
    ensures Splits(i, known, candidates, sqlOnly, sweep)
  {
    var es := Estimated(i, i.targets);
    RankingTargets(i, known);
    SameMembers(es, TargetsOf(Ranking(i, known)));
    assert forall t :: t in candidates <==> t in SetOf(candidates);
  }
}
