/**
 * Whether an index may be dropped from the whole cluster: samples of every host are
 * summed per droppable root, and the root gets one verdict.
 */
module IndexAdvice {
  import opened Common

  datatype Key = Key(schema: string, index: string)

  /** An index as one host counted it; root is the index a DROP would name. */
  datatype Sample = Sample(
    instance: string, root: Key, child: string, table: string, partitioned: bool,
    scans: int, sizeBytes: int, windowDays: real, inRecovery: bool, statsKnown: bool)

  datatype Thresholds = Thresholds(minWindowDays: real, usedScansPerDay: real)

  datatype Verdict = DropCandidate | Used | StaleEvidence | InsufficientData | Unknown

  datatype ReasonCode =
    UnreachableHosts | NoEvidence | UsedOnReplicaOnly | UsedSomewhere | WindowTooShort | FewScans | NeverScanned

  datatype Note = StatsResetNever | Partitioned

  datatype Reason = Reason(code: ReasonCode, notes: seq<Note>, hosts: seq<string>, usedOn: seq<string>, windowDays: real, totalScans: int, hostCount: nat)

  /** What is kept of one host for one root: sums, and the window of its first sample. */
  datatype HostAgg = HostAgg(scans: int, size: int, windowDays: real, inRecovery: bool, statsKnown: bool)

  datatype RootAgg = RootAgg(
    table: string, partitioned: bool, children: set<string>, hosts: map<string, HostAgg>, hostOrder: seq<string>)

  datatype HostUsage = HostUsage(
    instance: string, inRecovery: bool, scans: int, windowDays: real, scansPerDay: real, statsKnown: bool)

  datatype IndexReport = IndexReport(
    root: Key, table: string, partitioned: bool, partitions: nat, sizeBytes: int,
    verdict: Verdict, reason: Reason, perInstance: seq<HostUsage>)

  const MIN_WINDOW_FLOOR := 1.0 / 24.0

  function WithDefaults(t: Thresholds): (r: Thresholds)
    ensures r.minWindowDays > 0.0 && r.usedScansPerDay > 0.0
  {
    Thresholds(if t.minWindowDays <= 0.0 then 7.0 else t.minWindowDays,
               if t.usedScansPerDay <= 0.0 then 0.1 else t.usedScansPerDay)
  }

  function Longer(a: real, b: real): real { if a >= b then a else b }

  function Shorter(a: real, b: real): real { if a <= b then a else b }

  function ScansPerDay(scans: int, windowDays: real): real {
    scans as real / Longer(windowDays, MIN_WINDOW_FLOOR)
  }

  // ----- what the samples say

  predicate Of(s: Sample, k: Key, host: string) {
    s.root == k && s.instance == host
  }

  predicate Seen(samples: seq<Sample>, k: Key, host: string) {
    exists s :: s in samples && Of(s, k, host)
  }

  predicate RootSeen(samples: seq<Sample>, k: Key) {
    exists s :: s in samples && s.root == k
  }

  function ScansOf(samples: seq<Sample>, k: Key, host: string): int {
    if samples == [] then 0
    else ScansOf(samples[..|samples| - 1], k, host) + (if Of(samples[|samples| - 1], k, host) then samples[|samples| - 1].scans else 0)
  }

  function SizeOf(samples: seq<Sample>, k: Key, host: string): int {
    if samples == [] then 0
    else SizeOf(samples[..|samples| - 1], k, host) + (if Of(samples[|samples| - 1], k, host) then samples[|samples| - 1].sizeBytes else 0)
  }

  /** The first sample of a host decides its window and role. */
  function FirstOf(samples: seq<Sample>, k: Key, host: string): Option<Sample> {
    if samples == [] then None
    else
      var first := FirstOf(samples[..|samples| - 1], k, host);
      if first.Some? then first
      else if Of(samples[|samples| - 1], k, host) then Some(samples[|samples| - 1])
      else None
  }

  /** What is known of a host is the sum over its samples, with the window of the first. */
  function AggOf(samples: seq<Sample>, k: Key, host: string): Option<HostAgg> {
    var first := FirstOf(samples, k, host);
    if first.None? then None
    else Some(HostAgg(ScansOf(samples, k, host), SizeOf(samples, k, host),
                      first.value.windowDays, first.value.inRecovery, first.value.statsKnown))
  }

  lemma {:induction false} FirstIsSeen(samples: seq<Sample>, k: Key, host: string)
    ensures FirstOf(samples, k, host).Some? <==> Seen(samples, k, host)
    ensures FirstOf(samples, k, host).Some? ==> FirstOf(samples, k, host).value in samples && Of(FirstOf(samples, k, host).value, k, host)
  {
    if samples != [] {
      FirstIsSeen(samples[..|samples| - 1], k, host);
      assert samples == samples[..|samples| - 1] + [samples[|samples| - 1]];
    }
  }

  // ----- the verdict

  predicate UsedHost(h: HostUsage, th: Thresholds) {
    h.scansPerDay > th.usedScansPerDay
  }

  function TotalScans(hosts: seq<HostUsage>): int {
    if hosts == [] then 0 else TotalScans(hosts[..|hosts| - 1]) + hosts[|hosts| - 1].scans
  }

  function UsedOn(hosts: seq<HostUsage>, th: Thresholds): (r: seq<string>)
    ensures r != [] <==> exists h :: h in hosts && UsedHost(h, th)
  {
    if hosts == [] then []
    else
      var rest, last := UsedOn(hosts[..|hosts| - 1], th), hosts[|hosts| - 1];
      assert hosts == hosts[..|hosts| - 1] + [last];
      if UsedHost(last, th) then rest + [last.instance] else rest
  }

  predicate UsedOnPrimary(hosts: seq<HostUsage>, th: Thresholds) {
    exists h :: h in hosts && UsedHost(h, th) && !h.inRecovery
  }

  predicate WindowGuessed(hosts: seq<HostUsage>) {
    exists h :: h in hosts && !h.statsKnown
  }

  /** The shortest window of the hosts. */
  predicate ShortestWindow(hosts: seq<HostUsage>, w: real) {
    (forall h :: h in hosts ==> w <= h.windowDays) && exists h :: h in hosts && h.windowDays == w
  }

  lemma TallyStep(hosts: seq<HostUsage>, i: nat, th: Thresholds)
    requires i < |hosts|
    ensures TotalScans(hosts[..i + 1]) == TotalScans(hosts[..i]) + hosts[i].scans
    ensures UsedOn(hosts[..i + 1], th) == UsedOn(hosts[..i], th) + (if UsedHost(hosts[i], th) then [hosts[i].instance] else [])
    ensures UsedOnPrimary(hosts[..i + 1], th) <==> UsedOnPrimary(hosts[..i], th) || (UsedHost(hosts[i], th) && !hosts[i].inRecovery)
    ensures WindowGuessed(hosts[..i + 1]) <==> WindowGuessed(hosts[..i]) || !hosts[i].statsKnown
  {
    assert hosts[..i + 1] == hosts[..i] + [hosts[i]];
    assert hosts[..i + 1][..i] == hosts[..i];
  }

  lemma TallyWindow(hosts: seq<HostUsage>, i: nat, w: real)
    requires i < |hosts| && (i == 0 ==> w == hosts[0].windowDays) && (i > 0 ==> ShortestWindow(hosts[..i], w))
    ensures ShortestWindow(hosts[..i + 1], Shorter(w, hosts[i].windowDays))
  {
    assert hosts[..i + 1] == hosts[..i] + [hosts[i]];
  }

  method Tally(hosts: seq<HostUsage>, th: Thresholds)
    returns (usedOn: seq<string>, usedOnPrimary: bool, totalScans: int, windowGuess: bool, minWindow: real)
    requires hosts != []
    ensures usedOn == UsedOn(hosts, th) && usedOnPrimary == UsedOnPrimary(hosts, th)
    ensures totalScans == TotalScans(hosts) && windowGuess == WindowGuessed(hosts) && ShortestWindow(hosts, minWindow)
  {
    usedOn, usedOnPrimary, totalScans, windowGuess, minWindow := [], false, 0, false, hosts[0].windowDays;
    for i := 0 to |hosts|
      invariant usedOn == UsedOn(hosts[..i], th) && totalScans == TotalScans(hosts[..i])
      invariant usedOnPrimary == UsedOnPrimary(hosts[..i], th) && windowGuess == WindowGuessed(hosts[..i])
      invariant i == 0 ==> minWindow == hosts[0].windowDays
      invariant i > 0 ==> ShortestWindow(hosts[..i], minWindow)
    {
      var h := hosts[i];
      TallyStep(hosts, i, th);
      TallyWindow(hosts, i, minWindow);
      totalScans := totalScans + h.scans;
      minWindow := Shorter(minWindow, h.windowDays);
      if !h.statsKnown {
        windowGuess := true;
      }
      if h.scansPerDay > th.usedScansPerDay {
        usedOn := usedOn + [h.instance];
        if !h.inRecovery {
          usedOnPrimary := true;
        }
      }
    }
    assert hosts[..|hosts|] == hosts;
  }

  /** The order of the questions: reachable, used, long enough, ever scanned. */
  predicate Judges(hosts: seq<HostUsage>, unreachable: seq<string>, th: Thresholds, v: Verdict) {
    match v
    case Unknown => unreachable != [] || hosts == []
    case Used => unreachable == [] && exists h :: h in hosts && UsedHost(h, th)
    case InsufficientData => Idle(hosts, unreachable, th) && exists h :: h in hosts && h.windowDays < th.minWindowDays
    case StaleEvidence => Idle(hosts, unreachable, th) && LongEnough(hosts, th) && TotalScans(hosts) > 0
    case DropCandidate => Idle(hosts, unreachable, th) && LongEnough(hosts, th) && TotalScans(hosts) <= 0
  }

  predicate Idle(hosts: seq<HostUsage>, unreachable: seq<string>, th: Thresholds) {
    unreachable == [] && hosts != [] && forall h :: h in hosts ==> !UsedHost(h, th)
  }

  predicate LongEnough(hosts: seq<HostUsage>, th: Thresholds) {
    forall h :: h in hosts ==> h.windowDays >= th.minWindowDays
  }

  /** The verdicts exclude each other. */
  lemma OneVerdict(hosts: seq<HostUsage>, unreachable: seq<string>, th: Thresholds, v: Verdict, v': Verdict)
    requires Judges(hosts, unreachable, th, v) && Judges(hosts, unreachable, th, v')
    ensures v == v'
  {
  }

  /** One verdict from the hosts of one root. */
  method Decide(hosts: seq<HostUsage>, unreachable: seq<string>, th: Thresholds) returns (v: Verdict, reason: Reason)
    ensures Judges(hosts, unreachable, th, v)
    ensures reason.code == UnreachableHosts <==> unreachable != []
    ensures v == Unknown ==> reason.hosts == unreachable
    ensures v == Used ==> reason.usedOn == UsedOn(hosts, th) && (reason.code == UsedOnReplicaOnly <==> !UsedOnPrimary(hosts, th))
    ensures v in {InsufficientData, StaleEvidence, DropCandidate} ==> ShortestWindow(hosts, reason.windowDays)
    ensures Partitioned !in reason.notes
    ensures v in {InsufficientData, DropCandidate} ==> (StatsResetNever in reason.notes <==> WindowGuessed(hosts))
    ensures v == StaleEvidence ==> reason.totalScans == TotalScans(hosts)
    ensures v == DropCandidate ==> reason.code == NeverScanned && reason.hostCount == |hosts|
  {
    var none := Reason(NoEvidence, [], [], [], 0.0, 0, 0);
    if |unreachable| > 0 {
      return Unknown, none.(code := UnreachableHosts, hosts := unreachable);
    }
    if |hosts| == 0 {
      return Unknown, none;
    }
    var usedOn, usedOnPrimary, totalScans, windowGuess, minWindow := Tally(hosts, th);
    var windowNote := if windowGuess then [StatsResetNever] else [];
    if |usedOn| > 0 && !usedOnPrimary {
      return Used, none.(code := UsedOnReplicaOnly, usedOn := usedOn);
    }
    if |usedOn| > 0 {
      return Used, none.(code := UsedSomewhere, usedOn := usedOn);
    }
    if minWindow < th.minWindowDays {
      return InsufficientData, none.(code := WindowTooShort, windowDays := minWindow, notes := windowNote);
    }
    if totalScans > 0 {
      return StaleEvidence, none.(code := FewScans, totalScans := totalScans, windowDays := minWindow);
    }
    return DropCandidate, none.(code := NeverScanned, hostCount := |hosts|, windowDays := minWindow, notes := windowNote);
  }

  // ----- grouping

  function Usage(instance: string, a: HostAgg): HostUsage {
    HostUsage(instance, a.inRecovery, a.scans, a.windowDays, ScansPerDay(a.scans, a.windowDays), a.statsKnown)
  }

  function ChildrenOf(samples: seq<Sample>, k: Key): set<string> {
    set s | s in samples && s.root == k :: s.child
  }

  /** Sample i is the first of its root. */
  predicate Opens(samples: seq<Sample>, k: Key, i: int) {
    0 <= i < |samples| && samples[i].root == k && forall j :: 0 <= j < i ==> samples[j].root != k
  }

  /** Table and partitioning are those of the first sample of the root. */
  ghost predicate Headed(samples: seq<Sample>, k: Key, table: string, partitioned: bool) {
    exists i :: Opens(samples, k, i) && table == samples[i].table && partitioned == samples[i].partitioned
  }

  lemma HeadedKept(samples: seq<Sample>, s: Sample, k: Key, table: string, partitioned: bool)
    requires Headed(samples, k, table, partitioned)
    ensures Headed(samples + [s], k, table, partitioned)
  {
    var i :| Opens(samples, k, i) && table == samples[i].table && partitioned == samples[i].partitioned;
    assert Opens(samples + [s], k, i);
  }

  lemma HeadedByNew(samples: seq<Sample>, s: Sample)
    requires !RootSeen(samples, s.root)
    ensures Headed(samples + [s], s.root, s.table, s.partitioned)
  {
    assert Opens(samples + [s], s.root, |samples|);
  }

  /** What is gathered of a root is what its samples say, host by host. */
  ghost predicate RootOk(samples: seq<Sample>, k: Key, r: RootAgg) {
    && NoRepeats(r.hostOrder) && (forall h :: h in r.hostOrder <==> h in r.hosts)
    && (forall h :: h in r.hosts <==> AggOf(samples, k, h).Some?)
    && (forall h :: h in r.hosts ==> r.hosts[h] == AggOf(samples, k, h).value)
    && r.children == ChildrenOf(samples, k)
  }

  ghost predicate Gathered(samples: seq<Sample>, order: seq<Key>, roots: map<Key, RootAgg>) {
    && NoRepeats(order) && (forall k :: k in order <==> k in roots)
    && (forall k :: k in roots <==> RootSeen(samples, k))
    && (forall k :: k in roots ==> RootOk(samples, k, roots[k]) && Headed(samples, k, roots[k].table, roots[k].partitioned))
  }

  lemma AggOfOneMore(samples: seq<Sample>, s: Sample, k: Key, h: string)
    ensures var before := AggOf(samples, k, h);
      AggOf(samples + [s], k, h) ==
        if !Of(s, k, h) then before
        else if before.None? then Some(HostAgg(ScansOf(samples, k, h) + s.scans, SizeOf(samples, k, h) + s.sizeBytes, s.windowDays, s.inRecovery, s.statsKnown))
        else Some(before.value.(scans := before.value.scans + s.scans, size := before.value.size + s.sizeBytes))
  {
    assert (samples + [s])[..|samples|] == samples;
  }

  lemma {:induction false} NothingOfUnseen(samples: seq<Sample>, k: Key, h: string)
    requires FirstOf(samples, k, h).None?
    ensures ScansOf(samples, k, h) == 0 && SizeOf(samples, k, h) == 0
  {
    if samples != [] {
      NothingOfUnseen(samples[..|samples| - 1], k, h);
    }
  }

  /** Adds one sample to what is gathered of its root. */
  method AddSample(r: RootAgg, s: Sample, ghost samples: seq<Sample>) returns (r': RootAgg)
    requires RootOk(samples, s.root, r)
    ensures RootOk(samples + [s], s.root, r') && r'.table == r.table && r'.partitioned == r.partitioned
  {
    var hosts, hostOrder := r.hosts, r.hostOrder;
    if s.instance !in hosts {
      hosts := hosts[s.instance := HostAgg(0, 0, s.windowDays, s.inRecovery, s.statsKnown)];
      hostOrder := hostOrder + [s.instance];
    }
    var h := hosts[s.instance];
    hosts := hosts[s.instance := h.(scans := h.scans + s.scans, size := h.size + s.sizeBytes)];
    r' := r.(children := r.children + {s.child}, hosts := hosts, hostOrder := hostOrder);
    forall x
      ensures x in hosts <==> AggOf(samples + [s], s.root, x).Some?
      ensures x in hosts ==> hosts[x] == AggOf(samples + [s], s.root, x).value
    {
      AggOfOneMore(samples, s, s.root, x);
      if FirstOf(samples, s.root, x).None? {
        NothingOfUnseen(samples, s.root, x);
      }
    }
  }

  lemma UnseenRoot(samples: seq<Sample>, k: Key, r: RootAgg)
    requires !RootSeen(samples, k) && r.children == {} && r.hosts == map[] && r.hostOrder == []
    ensures RootOk(samples, k, r)
  {
    forall h
      ensures AggOf(samples, k, h).None?
    {
      FirstIsSeen(samples, k, h);
    }
  }

  lemma OtherRoot(samples: seq<Sample>, s: Sample, k: Key, r: RootAgg)
    requires RootOk(samples, k, r) && s.root != k
    ensures RootOk(samples + [s], k, r)
  {
    forall h
      ensures AggOf(samples + [s], k, h) == AggOf(samples, k, h)
    {
      AggOfOneMore(samples, s, k, h);
    }
  }

  lemma OneMoreGathered(samples: seq<Sample>, s: Sample, order: seq<Key>, roots: map<Key, RootAgg>, order': seq<Key>, r: RootAgg)
    requires Gathered(samples, order, roots) && RootOk(samples + [s], s.root, r)
    requires if s.root in roots then r.table == roots[s.root].table && r.partitioned == roots[s.root].partitioned else r.table == s.table && r.partitioned == s.partitioned
    requires order' == if s.root in roots then order else order + [s.root]
    ensures Gathered(samples + [s], order', roots[s.root := r])
  {
    var roots' := roots[s.root := r];
    forall k
      ensures k in roots' <==> RootSeen(samples + [s], k)
      ensures k in roots' ==> RootOk(samples + [s], k, roots'[k]) && Headed(samples + [s], k, roots'[k].table, roots'[k].partitioned)
    {
      if k in roots {
        HeadedKept(samples, s, k, roots[k].table, roots[k].partitioned);
      } else if k == s.root {
        HeadedByNew(samples, s);
      }
      if k == s.root {
        assert s in samples + [s];
      } else if k in roots {
        OtherRoot(samples, s, k, roots[k]);
      }
    }
  }

  /** Groups the samples by root, roots and hosts in the order they were first seen. */
  method Gather(samples: seq<Sample>) returns (order: seq<Key>, roots: map<Key, RootAgg>)
    ensures Gathered(samples, order, roots)
  {
    order, roots := [], map[];
    for n := 0 to |samples|
      invariant Gathered(samples[..n], order, roots)
    {
      var s := samples[n];
      ghost var before, orderBefore := roots, order;
      assert samples[..n + 1] == samples[..n] + [s];
      var r: RootAgg;
      if s.root in roots {
        r := roots[s.root];
      } else {
        r := RootAgg(s.table, s.partitioned, {}, map[], []);
        UnseenRoot(samples[..n], s.root, r);
        order := order + [s.root];
      }
      r := AddSample(r, s, samples[..n]);
      OneMoreGathered(samples[..n], s, orderBefore, before, order, r);
      roots := roots[s.root := r];
    }
    assert samples[..|samples|] == samples;
  }

  /** Each host of the root once, with the sums of its samples. */
  ghost predicate HostsAre(samples: seq<Sample>, k: Key, hosts: seq<HostUsage>) {
    && (forall i, j :: 0 <= i < j < |hosts| ==> hosts[i].instance != hosts[j].instance)
    && (forall u :: u in hosts ==> AggOf(samples, k, u.instance).Some? && u == Usage(u.instance, AggOf(samples, k, u.instance).value))
    && (forall h :: AggOf(samples, k, h).Some? ==> Usage(h, AggOf(samples, k, h).value) in hosts)
  }

  /** The largest size any host has the root at, 0 for none. */
  ghost predicate LargestSize(samples: seq<Sample>, k: Key, size: int) {
    && size >= 0 && (forall h :: Seen(samples, k, h) ==> SizeOf(samples, k, h) <= size)
    && (size == 0 || exists h :: Seen(samples, k, h) && SizeOf(samples, k, h) == size)
  }

  method Hosts(r: RootAgg, ghost samples: seq<Sample>, ghost k: Key) returns (hosts: seq<HostUsage>, size: int)
    requires RootOk(samples, k, r)
    ensures HostsAre(samples, k, hosts) && LargestSize(samples, k, size)
  {
    hosts, size := [], 0;
    for i := 0 to |r.hostOrder|
      invariant |hosts| == i && forall j :: 0 <= j < i ==> r.hostOrder[j] in r.hosts && hosts[j] == Usage(r.hostOrder[j], r.hosts[r.hostOrder[j]])
      invariant size >= 0 && forall j :: 0 <= j < i ==> r.hosts[r.hostOrder[j]].size <= size
      invariant size == 0 || exists j :: 0 <= j < i && r.hosts[r.hostOrder[j]].size == size
    {
      assert r.hostOrder[i] in r.hostOrder;
      var h := r.hosts[r.hostOrder[i]];
      size := Max(size, h.size);
      hosts := hosts + [Usage(r.hostOrder[i], h)];
    }
    HostsCover(samples, k, r, hosts);
    SizesCover(samples, k, r, size);
  }

  lemma HostsCover(samples: seq<Sample>, k: Key, r: RootAgg, hosts: seq<HostUsage>)
    requires RootOk(samples, k, r) && |hosts| == |r.hostOrder|
    requires forall j :: 0 <= j < |hosts| ==> r.hostOrder[j] in r.hosts && hosts[j] == Usage(r.hostOrder[j], r.hosts[r.hostOrder[j]])
    ensures HostsAre(samples, k, hosts)
  {
    forall h | AggOf(samples, k, h).Some?
      ensures Usage(h, AggOf(samples, k, h).value) in hosts
    {
      assert h in r.hosts && h in r.hostOrder;
      var j :| 0 <= j < |r.hostOrder| && r.hostOrder[j] == h;
      assert hosts[j] in hosts;
    }
  }

  lemma SizesCover(samples: seq<Sample>, k: Key, r: RootAgg, size: int)
    requires RootOk(samples, k, r) && size >= 0
    requires forall j :: 0 <= j < |r.hostOrder| ==> r.hostOrder[j] in r.hosts && r.hosts[r.hostOrder[j]].size <= size
    requires size == 0 || exists j :: 0 <= j < |r.hostOrder| && r.hosts[r.hostOrder[j]].size == size
    ensures LargestSize(samples, k, size)
  {
    forall h
      ensures Seen(samples, k, h) <==> h in r.hosts
      ensures h in r.hosts ==> r.hosts[h].size == SizeOf(samples, k, h) <= size
    {
      FirstIsSeen(samples, k, h);
      if h in r.hosts {
        assert h in r.hostOrder;
        var j :| 0 <= j < |r.hostOrder| && r.hostOrder[j] == h;
        assert r.hosts[r.hostOrder[j]].size <= size;
      }
    }
  }

  ghost predicate ReportOk(samples: seq<Sample>, unreachable: seq<string>, th: Thresholds, rep: IndexReport) {
    && RootSeen(samples, rep.root) && HostsAre(samples, rep.root, rep.perInstance)
    && Headed(samples, rep.root, rep.table, rep.partitioned)
    && LargestSize(samples, rep.root, rep.sizeBytes)
    && rep.partitions == (if rep.partitioned then |ChildrenOf(samples, rep.root)| else 0)
    && Judges(rep.perInstance, unreachable, WithDefaults(th), rep.verdict)
    && (rep.partitioned <==> Partitioned in rep.reason.notes)
  }

  /** The report of one root from what is gathered of it. */
  method ReportOf(k: Key, r: RootAgg, unreachable: seq<string>, th: Thresholds, ghost samples: seq<Sample>) returns (rep: IndexReport)
    requires RootSeen(samples, k) && RootOk(samples, k, r) && Headed(samples, k, r.table, r.partitioned)
    ensures rep.root == k && ReportOk(samples, unreachable, th, rep)
  {
    var hosts, size := Hosts(r, samples, k);
    var verdict, reason := Decide(hosts, unreachable, WithDefaults(th));
    var partitions := 0;
    if r.partitioned {
      partitions := |r.children|;
      reason := reason.(notes := reason.notes + [Partitioned]);
    }
    rep := IndexReport(k, r.table, r.partitioned, partitions, size, verdict, reason, hosts);
  }

  /** out has the reports of the first roots in order. */
  ghost predicate ReportsOf(samples: seq<Sample>, unreachable: seq<string>, th: Thresholds, order: seq<Key>, out: seq<IndexReport>) {
    |out| <= |order| && forall j :: 0 <= j < |out| ==> out[j].root == order[j] && ReportOk(samples, unreachable, th, out[j])
  }

  lemma OneMoreReport(
    samples: seq<Sample>, unreachable: seq<string>, th: Thresholds, order: seq<Key>, out: seq<IndexReport>, rep: IndexReport)
    requires ReportsOf(samples, unreachable, th, order, out) && |out| < |order|
    requires rep.root == order[|out|] && ReportOk(samples, unreachable, th, rep)
    ensures ReportsOf(samples, unreachable, th, order, out + [rep])
  {
  }

  lemma ReportsCover(order: seq<Key>, roots: map<Key, RootAgg>, samples: seq<Sample>, out: seq<IndexReport>)
    requires Gathered(samples, order, roots) && |out| == |order| && forall j :: 0 <= j < |out| ==> out[j].root == order[j]
    ensures forall i, j :: 0 <= i < j < |out| ==> out[i].root != out[j].root
    ensures forall k :: RootSeen(samples, k) ==> exists i :: 0 <= i < |out| && out[i].root == k
  {
    forall k | RootSeen(samples, k)
      ensures exists i :: 0 <= i < |out| && out[i].root == k
    {
      assert k in order;
      var i :| 0 <= i < |order| && order[i] == k;
      assert out[i].root == k;
    }
  }

  /** One report for each root that any host has. */
  method Report(samples: seq<Sample>, unreachable: seq<string>, th: Thresholds) returns (out: seq<IndexReport>)
    ensures forall i :: 0 <= i < |out| ==> ReportOk(samples, unreachable, th, out[i])
    ensures forall i, j :: 0 <= i < j < |out| ==> out[i].root != out[j].root
    ensures forall k :: RootSeen(samples, k) ==> exists i :: 0 <= i < |out| && out[i].root == k
  {
    var order, roots := Gather(samples);
    out := [];
    for i := 0 to |order|
      invariant |out| == i && ReportsOf(samples, unreachable, th, order, out)
    {
      assert order[i] in order;
      var rep := ReportOf(order[i], roots[order[i]], unreachable, th, samples);
      OneMoreReport(samples, unreachable, th, order, out, rep);
      out := out + [rep];
    }
    ReportsCover(order, roots, samples, out);
  }

  // ----- what the verdict means

  predicate ScansNonNegative(samples: seq<Sample>) {
    forall s :: s in samples ==> s.scans >= 0
  }

  /** No child of the root was scanned on any host. */
  predicate NeverScannedAnywhere(samples: seq<Sample>, k: Key) {
    forall s :: s in samples && s.root == k ==> s.scans == 0
  }

  /** The window taken for every host, that of its first sample, reaches the minimum. */
  predicate WindowsReach(samples: seq<Sample>, k: Key, days: real) {
    forall s :: s in samples && s.root == k ==>
      FirstOf(samples, k, s.instance).Some? && FirstOf(samples, k, s.instance).value.windowDays >= days
  }

  lemma {:induction false} ScansAddUp(samples: seq<Sample>, k: Key, h: string)
    requires ScansNonNegative(samples)
    ensures ScansOf(samples, k, h) >= 0
    ensures ScansOf(samples, k, h) == 0 <==> forall s :: s in samples && Of(s, k, h) ==> s.scans == 0
  {
    if samples != [] {
      var front, last := samples[..|samples| - 1], samples[|samples| - 1];
      assert samples == front + [last];
      ScansAddUp(front, k, h);
    }
  }

  lemma {:induction false} TotalIsZero(hosts: seq<HostUsage>)
    requires forall u :: u in hosts ==> u.scans >= 0
    ensures TotalScans(hosts) >= 0 && (TotalScans(hosts) == 0 <==> forall u :: u in hosts ==> u.scans == 0)
  {
    if hosts != [] {
      var front, last := hosts[..|hosts| - 1], hosts[|hosts| - 1];
      assert hosts == front + [last];
      TotalIsZero(front);
    }
  }

  /** A host of a report, and the sample it takes its window from. */
  lemma HostOf(samples: seq<Sample>, k: Key, hosts: seq<HostUsage>, u: HostUsage)
    requires HostsAre(samples, k, hosts) && u in hosts && ScansNonNegative(samples)
    ensures u.scans == ScansOf(samples, k, u.instance) >= 0 && Seen(samples, k, u.instance)
    ensures FirstOf(samples, k, u.instance).Some? && u.windowDays == FirstOf(samples, k, u.instance).value.windowDays
    ensures u.scans == 0 ==> u.scansPerDay == 0.0
  {
    FirstIsSeen(samples, k, u.instance);
    ScansAddUp(samples, k, u.instance);
  }

  lemma SampleHost(samples: seq<Sample>, k: Key, hosts: seq<HostUsage>, s: Sample) returns (u: HostUsage)
    requires HostsAre(samples, k, hosts) && s in samples && s.root == k && ScansNonNegative(samples)
    ensures u in hosts && u.instance == s.instance && (u.scans == 0 ==> s.scans == 0)
  {
    assert Of(s, k, s.instance);
    FirstIsSeen(samples, k, s.instance);
    ScansAddUp(samples, k, s.instance);
    u := Usage(s.instance, AggOf(samples, k, s.instance).value);
  }

  lemma HostsFacts(samples: seq<Sample>, k: Key, hosts: seq<HostUsage>, days: real)
    requires HostsAre(samples, k, hosts) && ScansNonNegative(samples)
    ensures (forall u :: u in hosts ==> u.scans == 0) <==> NeverScannedAnywhere(samples, k)
    ensures (forall u :: u in hosts ==> u.windowDays >= days) <==> WindowsReach(samples, k, days)
    ensures TotalScans(hosts) >= 0 && (TotalScans(hosts) == 0 <==> NeverScannedAnywhere(samples, k))
    ensures forall u :: u in hosts && u.scans == 0 ==> u.scansPerDay == 0.0
    ensures RootSeen(samples, k) ==> hosts != []
  {
    forall u | u in hosts
      ensures u.scans == ScansOf(samples, k, u.instance) >= 0 && Seen(samples, k, u.instance)
      ensures FirstOf(samples, k, u.instance).Some? && u.windowDays == FirstOf(samples, k, u.instance).value.windowDays
      ensures NeverScannedAnywhere(samples, k) ==> u.scans == 0
      ensures u.scans == 0 ==> u.scansPerDay == 0.0
    {
      HostOf(samples, k, hosts, u);
      ScansAddUp(samples, k, u.instance);
    }
    forall s | s in samples && s.root == k
      ensures exists u :: u in hosts && u.instance == s.instance && (u.scans == 0 ==> s.scans == 0)
    {
      var u := SampleHost(samples, k, hosts, s);
    }
    TotalIsZero(hosts);
  }

  /**
   * An index is a drop candidate exactly when every host answered, no child of it was ever
   * scanned anywhere, and the window of every host reaches the minimum.
   */
  lemma DropVerdictExact(samples: seq<Sample>, unreachable: seq<string>, th: Thresholds, rep: IndexReport)
    requires ReportOk(samples, unreachable, th, rep) && ScansNonNegative(samples)
    ensures rep.verdict == DropCandidate <==>
      unreachable == [] && NeverScannedAnywhere(samples, rep.root) && WindowsReach(samples, rep.root, WithDefaults(th).minWindowDays)
  {
    HostsFacts(samples, rep.root, rep.perInstance, WithDefaults(th).minWindowDays);
  }

  /** Unknown is given exactly for lack of an answer from some host, and then to every index. */
  lemma UnknownVerdictExact(samples: seq<Sample>, unreachable: seq<string>, th: Thresholds, rep: IndexReport)
    requires ReportOk(samples, unreachable, th, rep) && ScansNonNegative(samples)
    ensures rep.verdict == Unknown <==> unreachable != []
  {
    HostsFacts(samples, rep.root, rep.perInstance, 0.0);
  }

  /** One host scanning the root often enough keeps it, however many partitions or replicas are idle. */
  lemma UsedVerdictExact(samples: seq<Sample>, unreachable: seq<string>, th: Thresholds, rep: IndexReport)
    requires ReportOk(samples, unreachable, th, rep)
    ensures rep.verdict == Used <==>
      unreachable == [] && exists h :: AggOf(samples, rep.root, h).Some? && UsedHost(Usage(h, AggOf(samples, rep.root, h).value), WithDefaults(th))
  {
    var limits := WithDefaults(th);
    if u :| u in rep.perInstance && UsedHost(u, limits) {
      assert UsedHost(Usage(u.instance, AggOf(samples, rep.root, u.instance).value), limits);
    }
  }

  /** Every sample of a host and root carries the same window. */
  predicate WindowsConstant(samples: seq<Sample>) {
    forall s, t :: s in samples && t in samples && s.root == t.root && s.instance == t.instance ==> s.windowDays == t.windowDays
  }

  /** With constant windows it is every sample that must reach the minimum. */
  lemma DropVerdictOverSamples(samples: seq<Sample>, unreachable: seq<string>, th: Thresholds, rep: IndexReport)
    requires ReportOk(samples, unreachable, th, rep) && ScansNonNegative(samples) && WindowsConstant(samples)
    ensures rep.verdict == DropCandidate <==> unreachable == [] && forall s :: s in samples && s.root == rep.root ==>
      s.scans == 0 && s.windowDays >= WithDefaults(th).minWindowDays
  {
    DropVerdictExact(samples, unreachable, th, rep);
    forall s | s in samples && s.root == rep.root
      ensures FirstOf(samples, rep.root, s.instance).Some? && FirstOf(samples, rep.root, s.instance).value.windowDays == s.windowDays
    {
      assert Of(s, rep.root, s.instance);
      FirstIsSeen(samples, rep.root, s.instance);
    }
  }

  // ----- the order of the samples

  lemma {:induction false} ScansWithout(samples: seq<Sample>, j: nat, k: Key, h: string)
    requires j < |samples|
    ensures ScansOf(samples, k, h) == ScansOf(samples[..j] + samples[j + 1..], k, h) + (if Of(samples[j], k, h) then samples[j].scans else 0)
  {
    var n := |samples| - 1;
    if j < n {
      ScansWithout(samples[..n], j, k, h);
      var rest := samples[..j] + samples[j + 1..];
      assert rest[..|rest| - 1] == samples[..n][..j] + samples[..n][j + 1..];
    } else {
      assert samples[..j] + samples[j + 1..] == samples[..n];
    }
  }

  lemma PlaceOf(b: seq<Sample>, s: Sample) returns (j: nat)
    requires s in multiset(b)
    ensures j < |b| && b[j] == s && multiset(b[..j] + b[j + 1..]) == multiset(b) - multiset{s}
  {
    j :| 0 <= j < |b| && b[j] == s;
    assert b == b[..j] + [b[j]] + b[j + 1..];
  }

  lemma {:induction false} ScansOfPermutation(a: seq<Sample>, b: seq<Sample>, k: Key, h: string)
    requires multiset(a) == multiset(b)
    ensures ScansOf(a, k, h) == ScansOf(b, k, h)
  {
    if a == [] {
      assert |multiset(b)| == |b|;
    } else {
      var front, last := a[..|a| - 1], a[|a| - 1];
      assert a == front + [last];
      var j := PlaceOf(b, last);
      var rest := b[..j] + b[j + 1..];
      ScansWithout(b, j, k, h);
      ScansOfPermutation(front, rest, k, h);
    }
  }

  lemma SameSamples(a: seq<Sample>, b: seq<Sample>)
    requires multiset(a) == multiset(b)
    ensures forall s :: s in a <==> s in b
  {
    forall s
      ensures s in a <==> s in b
    {
      assert s in a <==> s in multiset(a);
      assert s in b <==> s in multiset(b);
    }
  }

  /** What the verdict asks of the window a host is judged by. */
  datatype Question = ScannedOften | TooShort

  predicate Holds(q: Question, samples: seq<Sample>, th: Thresholds, s: Sample) {
    match q
    case ScannedOften => ScansPerDay(ScansOf(samples, s.root, s.instance), s.windowDays) > th.usedScansPerDay
    case TooShort => s.windowDays < th.minWindowDays
  }

  /** The answer is yes for the first sample of some host, the one that counts. */
  predicate SomeFirst(q: Question, samples: seq<Sample>, k: Key, th: Thresholds) {
    exists s :: s in samples && s.root == k && FirstOf(samples, k, s.instance).Some?
      && Holds(q, samples, th, FirstOf(samples, k, s.instance).value)
  }

  /** The verdict over the samples themselves. */
  function VerdictOf(samples: seq<Sample>, k: Key, unreachable: seq<string>, th: Thresholds): Verdict {
    if unreachable != [] then Unknown
    else if SomeFirst(ScannedOften, samples, k, WithDefaults(th)) then Used
    else if SomeFirst(TooShort, samples, k, WithDefaults(th)) then InsufficientData
    else if NeverScannedAnywhere(samples, k) then DropCandidate
    else StaleEvidence
  }

  lemma FirstsAreHosts(samples: seq<Sample>, k: Key, hosts: seq<HostUsage>, th: Thresholds)
    requires HostsAre(samples, k, hosts)
    ensures SomeFirst(ScannedOften, samples, k, th) <==> exists u :: u in hosts && UsedHost(u, th)
    ensures SomeFirst(TooShort, samples, k, th) <==> exists u :: u in hosts && u.windowDays < th.minWindowDays
  {
    forall s | s in samples && s.root == k && FirstOf(samples, k, s.instance).Some?
      ensures exists u :: u in hosts && JudgedBy(samples, th, FirstOf(samples, k, s.instance).value, u)
    {
      FirstIsSeen(samples, k, s.instance);
      var u := Usage(s.instance, AggOf(samples, k, s.instance).value);
      assert u in hosts && JudgedBy(samples, th, FirstOf(samples, k, s.instance).value, u);
    }
    forall u | u in hosts
      ensures exists s :: s in samples && s.root == k && FirstOf(samples, k, s.instance).Some? && JudgedBy(samples, th, FirstOf(samples, k, s.instance).value, u)
    {
      FirstIsSeen(samples, k, u.instance);
      var s := FirstOf(samples, k, u.instance).value;
      assert s.instance == u.instance && JudgedBy(samples, th, s, u);
    }
  }

  predicate JudgedBy(samples: seq<Sample>, th: Thresholds, s: Sample, u: HostUsage) {
    (Holds(ScannedOften, samples, th, s) <==> UsedHost(u, th)) && (Holds(TooShort, samples, th, s) <==> u.windowDays < th.minWindowDays)
  }

  /** Grouped by host or read off the samples, the verdict is the same. */
  lemma VerdictExact(samples: seq<Sample>, unreachable: seq<string>, th: Thresholds, rep: IndexReport)
    requires ReportOk(samples, unreachable, th, rep) && ScansNonNegative(samples)
    ensures rep.verdict == VerdictOf(samples, rep.root, unreachable, th)
  {
    var limits := WithDefaults(th);
    HostsFacts(samples, rep.root, rep.perInstance, limits.minWindowDays);
    FirstsAreHosts(samples, rep.root, rep.perInstance, limits);
    OneVerdict(rep.perInstance, unreachable, limits, rep.verdict, VerdictOf(samples, rep.root, unreachable, th));
  }

  // ----- which samples come first

  /** Some sample of the root says yes. */
  predicate CanBe(q: Question, samples: seq<Sample>, k: Key, th: Thresholds) {
    exists s :: s in samples && s.root == k && Holds(q, samples, th, s)
  }

  /** Some host says yes by every sample of the root it has. */
  predicate MustBe(q: Question, samples: seq<Sample>, k: Key, th: Thresholds) {
    exists s :: s in samples && s.root == k && AllHold(q, samples, k, s.instance, th)
  }

  predicate AllHold(q: Question, samples: seq<Sample>, k: Key, host: string, th: Thresholds) {
    forall t :: t in samples && Of(t, k, host) ==> Holds(q, samples, th, t)
  }

  function Those(q: Question, samples: seq<Sample>, th: Thresholds, yes: bool, from: seq<Sample>): (r: seq<Sample>)
    ensures forall s :: s in r <==> s in from && Holds(q, samples, th, s) == yes
  {
    if from == [] then []
    else
      var front, last := from[..|from| - 1], from[|from| - 1];
      assert from == front + [last];
      Those(q, samples, th, yes, front) + (if Holds(q, samples, th, last) == yes then [last] else [])
  }

  /** The samples that give the wanted answer, then the others. */
  function Led(q: Question, samples: seq<Sample>, th: Thresholds, yes: bool): seq<Sample> {
    Those(q, samples, th, yes, samples) + Those(q, samples, th, !yes, samples)
  }

  lemma {:induction false} LedKeeps(q: Question, samples: seq<Sample>, th: Thresholds, yes: bool, from: seq<Sample>)
    ensures multiset(Those(q, samples, th, yes, from) + Those(q, samples, th, !yes, from)) == multiset(from)
  {
    if from != [] {
      assert from == from[..|from| - 1] + [from[|from| - 1]];
      LedKeeps(q, samples, th, yes, from[..|from| - 1]);
    }
  }

  lemma {:induction false} FirstOfTwoParts(a: seq<Sample>, b: seq<Sample>, k: Key, h: string)
    ensures FirstOf(a + b, k, h) == if FirstOf(a, k, h).Some? then FirstOf(a, k, h) else FirstOf(b, k, h)
  {
    if b == [] {
      assert a + b == a;
    } else {
      assert (a + b)[..|a + b| - 1] == a + b[..|b| - 1];
      FirstOfTwoParts(a, b[..|b| - 1], k, h);
    }
  }

  lemma SameHolds(a: seq<Sample>, b: seq<Sample>, th: Thresholds)
    requires multiset(a) == multiset(b)
    ensures forall q, s :: Holds(q, a, th, s) <==> Holds(q, b, th, s)
  {
    forall q, s
      ensures Holds(q, a, th, s) <==> Holds(q, b, th, s)
    {
      ScansOfPermutation(a, b, s.root, s.instance);
    }
  }

  /** Whatever the order, the first samples say yes at most when some sample can, at least when some host must. */
  lemma AnyOrder(q: Question, a: seq<Sample>, b: seq<Sample>, k: Key, th: Thresholds)
    requires multiset(a) == multiset(b)
    ensures MustBe(q, a, k, th) ==> SomeFirst(q, b, k, th)
    ensures SomeFirst(q, b, k, th) ==> CanBe(q, a, k, th)
  {
    SameSamples(a, b);
    SameHolds(a, b, th);
    forall s | s in a && s.root == k
      ensures FirstOf(b, k, s.instance).Some? && FirstOf(b, k, s.instance).value in a && Of(FirstOf(b, k, s.instance).value, k, s.instance)
    {
      assert Of(s, k, s.instance);
      FirstIsSeen(b, k, s.instance);
    }
    if s :| s in a && s.root == k && AllHold(q, a, k, s.instance, th) {
      assert s in b && Holds(q, b, th, FirstOf(b, k, s.instance).value);
    }
  }

  /** Both extremes are reached by some order. */
  lemma SomeOrder(q: Question, a: seq<Sample>, k: Key, th: Thresholds)
    ensures multiset(Led(q, a, th, true)) == multiset(a) == multiset(Led(q, a, th, false))
    ensures CanBe(q, a, k, th) ==> SomeFirst(q, Led(q, a, th, true), k, th)
    ensures SomeFirst(q, Led(q, a, th, false), k, th) ==> MustBe(q, a, k, th)
  {
    LedKeeps(q, a, th, true, a);
    LedKeeps(q, a, th, false, a);
    if s :| s in a && s.root == k && Holds(q, a, th, s) {
      LedFirst(q, a, k, th, true, s);
      assert s in Led(q, a, th, true);
    }
    var b := Led(q, a, th, false);
    SameSamples(a, b);
    SameHolds(a, b, th);
    if s :| s in b && s.root == k && FirstOf(b, k, s.instance).Some? && Holds(q, b, th, FirstOf(b, k, s.instance).value) {
      forall t | t in a && Of(t, k, s.instance)
        ensures Holds(q, a, th, t)
      {
        if !Holds(q, a, th, t) {
          LedFirst(q, a, k, th, false, t);
        }
      }
    }
  }

  lemma LedFirst(q: Question, a: seq<Sample>, k: Key, th: Thresholds, yes: bool, s: Sample)
    requires s in a && s.root == k && Holds(q, a, th, s) == yes
    ensures var b := Led(q, a, th, yes);
      multiset(b) == multiset(a) && FirstOf(b, k, s.instance).Some? && Holds(q, b, th, FirstOf(b, k, s.instance).value) == yes
  {
    var front, b := Those(q, a, th, yes, a), Led(q, a, th, yes);
    LedKeeps(q, a, th, yes, a);
    assert Of(s, k, s.instance) && s in front;
    FirstIsSeen(front, k, s.instance);
    FirstOfTwoParts(front, Those(q, a, th, !yes, a), k, s.instance);
    SameHolds(a, b, th);
  }

  /** Each question that is reached has only one answer: the windows of no host straddle a threshold that counts. */
  predicate OrderFree(samples: seq<Sample>, k: Key, unreachable: seq<string>, th: Thresholds) {
    || unreachable != []
    || MustBe(ScannedOften, samples, k, th)
    || (!CanBe(ScannedOften, samples, k, th) && (MustBe(TooShort, samples, k, th) || !CanBe(TooShort, samples, k, th)))
  }

  /** The verdict is the same for every order the samples can come in exactly when no window straddles. */
  lemma OrderFreeExact(a: seq<Sample>, k: Key, unreachable: seq<string>, th: Thresholds)
    ensures OrderFree(a, k, unreachable, WithDefaults(th)) <==>
      forall b :: multiset(b) == multiset(a) ==> VerdictOf(b, k, unreachable, th) == VerdictOf(a, k, unreachable, th)
  {
    var limits := WithDefaults(th);
    if OrderFree(a, k, unreachable, limits) {
      forall b | multiset(b) == multiset(a)
        ensures VerdictOf(b, k, unreachable, th) == VerdictOf(a, k, unreachable, th)
      {
        SameSamples(a, b);
        AnyOrder(ScannedOften, a, a, k, limits);
        AnyOrder(ScannedOften, a, b, k, limits);
        AnyOrder(TooShort, a, a, k, limits);
        AnyOrder(TooShort, a, b, k, limits);
      }
    } else {
      var q := if CanBe(ScannedOften, a, k, limits) then ScannedOften else TooShort;
      var first, last := Led(q, a, limits, true), Led(q, a, limits, false);
      SomeOrder(q, a, k, limits);
      AnyOrder(ScannedOften, a, first, k, limits);
      AnyOrder(ScannedOften, a, last, k, limits);
      assert VerdictOf(first, k, unreachable, th) != VerdictOf(last, k, unreachable, th);
    }
  }

  /** Windows that belong to the host, not to the sample, never straddle. */
  lemma ConstantWindowsAreOrderFree(samples: seq<Sample>, k: Key, unreachable: seq<string>, th: Thresholds)
    requires WindowsConstant(samples)
    ensures OrderFree(samples, k, unreachable, th)
  {
    forall q | CanBe(q, samples, k, th)
      ensures MustBe(q, samples, k, th)
    {
      var s :| s in samples && s.root == k && Holds(q, samples, th, s);
      assert AllHold(q, samples, k, s.instance, th);
    }
  }

  /**
   * They can differ: two never-scanned samples of one host, one over 30 days and one over
   * 3, make a drop candidate or not depending on which comes first.
   */
  lemma StraddlingWindows(long: Sample, short: Sample)
    requires long.scans == 0 && long.windowDays == 30.0 && short == long.(windowDays := 3.0)
    ensures !OrderFree([long, short], long.root, [], Thresholds(7.0, 0.1))
  {
    var samples, k, th := [long, short], long.root, Thresholds(7.0, 0.1);
    ScansAddUp(samples, k, long.instance);
    assert short in samples && Holds(TooShort, samples, th, short);
    assert long in samples && !Holds(TooShort, samples, th, long);
  }

  // ----- hosts and verdict in numbers

  /** Sample i is the first that its host has of its root. */
  ghost predicate HostOpens(samples: seq<Sample>, k: Key, i: int) {
    0 <= i < |samples| && samples[i].root == k && forall j :: 0 <= j < i && samples[j].root == k ==> samples[j].instance != samples[i].instance
  }

  lemma {:induction false} OpenerIsFirst(samples: seq<Sample>, k: Key, i: int)
    requires HostOpens(samples, k, i)
    ensures FirstOf(samples, k, samples[i].instance) == Some(samples[i])
  {
    var front, host := samples[..|samples| - 1], samples[i].instance;
    if i < |front| {
      assert HostOpens(front, k, i);
      OpenerIsFirst(front, k, i);
    } else {
      FirstIsSeen(front, k, host);
    }
  }

  lemma {:induction false} SeenHostOpens(samples: seq<Sample>, k: Key, host: string) returns (i: int)
    requires Seen(samples, k, host)
    ensures HostOpens(samples, k, i) && samples[i].instance == host
  {
    var front, last := samples[..|samples| - 1], samples[|samples| - 1];
    assert samples == front + [last];
    if Seen(front, k, host) {
      i := SeenHostOpens(front, k, host);
    } else {
      i := |front|;
      forall j | 0 <= j < i && samples[j].root == k
        ensures samples[j].instance != host
      {
        assert samples[j] in front;
      }
    }
  }

  /** The sums are those over the samples of the host and root: over no other sample, over each once. */
  lemma {:induction false} SumsAddUp(a: seq<Sample>, b: seq<Sample>, k: Key, host: string)
    ensures ScansOf(a + b, k, host) == ScansOf(a, k, host) + ScansOf(b, k, host)
    ensures SizeOf(a + b, k, host) == SizeOf(a, k, host) + SizeOf(b, k, host)
    ensures forall s: Sample :: ScansOf([s], k, host) == (if s.root == k && s.instance == host then s.scans else 0)
    ensures forall s: Sample :: SizeOf([s], k, host) == (if s.root == k && s.instance == host then s.sizeBytes else 0)
  {
    if b == [] {
      assert a + b == a;
    } else {
      assert (a + b)[..|a + b| - 1] == a + b[..|b| - 1];
      SumsAddUp(a, b[..|b| - 1], k, host);
    }
  }

  /** More scans than that rate allows over the window, an hour at least. */
  predicate Exceeds(scans: int, windowDays: real, perDay: real) {
    if windowDays * 24.0 >= 1.0 then scans as real > perDay * windowDays else scans as real * 24.0 > perDay
  }

  lemma RateMultiplied(scans: int, windowDays: real, perDay: real)
    ensures ScansPerDay(scans, windowDays) > perDay <==> Exceeds(scans, windowDays, perDay)
  {
    var days := Longer(windowDays, MIN_WINDOW_FLOOR);
    Quotient(scans as real, days, perDay);
  }

  lemma Quotient(x: real, days: real, perDay: real)
    requires days > 0.0
    ensures x / days > perDay <==> x > perDay * days
  {
    var q := x / days;
    assert q * days == x;
    assert (q - perDay) * days == x - perDay * days;
  }

  /** What the report says of a host: the sums over its samples, and window and role of the first of them. */
  predicate RowIs(samples: seq<Sample>, i: nat, u: HostUsage, scans: int)
    requires i < |samples|
  {
    && u.instance == samples[i].instance && u.scans == scans && u.windowDays == samples[i].windowDays
    && u.inRecovery == samples[i].inRecovery && u.statsKnown == samples[i].statsKnown
  }

  /** Every host that has the root gets its row. */
  lemma RowOfHost(samples: seq<Sample>, unreachable: seq<string>, th: Thresholds, rep: IndexReport, i: int) returns (u: HostUsage)
    requires ReportOk(samples, unreachable, th, rep) && HostOpens(samples, rep.root, i)
    ensures u in rep.perInstance && RowIs(samples, i, u, ScansOf(samples, rep.root, samples[i].instance))
    ensures forall perDay :: u.scansPerDay > perDay <==> Exceeds(u.scans, u.windowDays, perDay)
  {
    OpenerIsFirst(samples, rep.root, i);
    u := Usage(samples[i].instance, AggOf(samples, rep.root, samples[i].instance).value);
    forall perDay
      ensures u.scansPerDay > perDay <==> Exceeds(u.scans, u.windowDays, perDay)
    {
      RateMultiplied(u.scans, u.windowDays, perDay);
    }
  }

  /** The hosts named as using the index are those that do. */
  lemma {:induction false} UsedOnAre(hosts: seq<HostUsage>, th: Thresholds)
    ensures forall h :: h in UsedOn(hosts, th) <==> exists u :: u in hosts && u.instance == h && u.scansPerDay > th.usedScansPerDay
  {
    if hosts != [] {
      var front, last := hosts[..|hosts| - 1], hosts[|hosts| - 1];
      UsedOnAre(front, th);
      assert hosts == front + [last];
    }
  }

  /** Some host scans the root more often than that. */
  ghost predicate BusyHost(samples: seq<Sample>, k: Key, perDay: real) {
    exists i :: HostOpens(samples, k, i) && Exceeds(ScansOf(samples, k, samples[i].instance), samples[i].windowDays, perDay)
  }

  /** Some host has counted for fewer days than that. */
  ghost predicate YoungHost(samples: seq<Sample>, k: Key, days: real) {
    exists i :: HostOpens(samples, k, i) && samples[i].windowDays < days
  }

  lemma HostsInNumbers(samples: seq<Sample>, k: Key, th: Thresholds)
    ensures SomeFirst(ScannedOften, samples, k, th) <==> BusyHost(samples, k, th.usedScansPerDay)
    ensures SomeFirst(TooShort, samples, k, th) <==> YoungHost(samples, k, th.minWindowDays)
  {
    forall i | HostOpens(samples, k, i)
      ensures samples[i] in samples && FirstOf(samples, k, samples[i].instance) == Some(samples[i])
      ensures Holds(ScannedOften, samples, th, samples[i]) <==> Exceeds(ScansOf(samples, k, samples[i].instance), samples[i].windowDays, th.usedScansPerDay)
    {
      OpenerIsFirst(samples, k, i);
      RateMultiplied(ScansOf(samples, k, samples[i].instance), samples[i].windowDays, th.usedScansPerDay);
    }
    forall s | s in samples && s.root == k
      ensures exists i :: HostOpens(samples, k, i) && samples[i].instance == s.instance
    {
      assert Of(s, k, s.instance);
      var i := SeenHostOpens(samples, k, s.instance);
    }
  }

  /** The verdict by the limits as given, 7 days and 0.1 scans a day where none are. */
  lemma VerdictInNumbers(samples: seq<Sample>, unreachable: seq<string>, th: Thresholds, rep: IndexReport, days: real, perDay: real)
    requires ReportOk(samples, unreachable, th, rep) && ScansNonNegative(samples)
    requires days == (if th.minWindowDays > 0.0 then th.minWindowDays else 7.0)
    requires perDay == (if th.usedScansPerDay > 0.0 then th.usedScansPerDay else 0.1)
    ensures rep.verdict == (
      if |unreachable| > 0 then Unknown
      else if BusyHost(samples, rep.root, perDay) then Used
      else if YoungHost(samples, rep.root, days) then InsufficientData
      else if forall s :: s in samples && s.root == rep.root ==> s.scans == 0 then DropCandidate
      else StaleEvidence)
  {
    VerdictExact(samples, unreachable, th, rep);
    HostsInNumbers(samples, rep.root, WithDefaults(th));
  }
}
