/**
 * All commits of a store in order, each with the inputs its snapshot was built from: the
 * history of every host, what the per-host deltas computed for the snapshots add up to,
 * and what those kept in the stored snapshots do.
 */
module HotRecord {
  import opened Common
  import opened HotModel
  import opened HotHistory
  import R = HotRanking

  datatype Commit = Commit(at: int, inputs: seq<Input>, missing: seq<string>, topN: int)

  type Record = seq<Commit>

  /** The input of one host, none when it was not sampled. */
  function InputOf(inputs: seq<Input>, h: string): Option<Input> {
    if inputs == [] then None
    else if inputs[|inputs| - 1].sample.instance == h then Some(inputs[|inputs| - 1])
    else InputOf(inputs[..|inputs| - 1], h)
  }

  /** The captures of host h in the first n commits. */
  function LogAt(record: Record, n: nat, h: string): Log
    requires n <= |record|
  {
    if n == 0 then []
    else
      var before, i := LogAt(record, n - 1, h), InputOf(record[n - 1].inputs, h);
      if i.Some? then before + [CaptureOf(i.value, record[n - 1].at)] else before
  }

  /** Every input carried the anchors that the host's captures before it call for. */
  ghost predicate Faithful(record: Record) {
    forall s :: 0 <= s < |record| ==> R.WellFormed(record[s].inputs) && Anchored(record, s)
  }

  ghost predicate Anchored(record: Record, s: nat)
    requires s < |record|
  {
    forall i :: 0 <= i < |record[s].inputs| ==>
      Represents(record[s].inputs[i].anchors, LogAt(record, s, record[s].inputs[i].sample.instance))
  }

  lemma {:induction false} LogAtPrefix(record: Record, c: Commit, n: nat, h: string)
    requires n <= |record|
    ensures LogAt(record + [c], n, h) == LogAt(record, n, h)
  {
    if n > 0 {
      LogAtPrefix(record, c, n - 1, h);
    }
  }

  /** One more commit whose inputs carry the anchors of now. */
  lemma FaithfulStep(record: Record, c: Commit)
    requires Faithful(record) && R.WellFormed(c.inputs)
    requires forall i :: 0 <= i < |c.inputs| ==>
      Represents(c.inputs[i].anchors, LogAt(record, |record|, c.inputs[i].sample.instance))
    ensures Faithful(record + [c])
  {
    var longer := record + [c];
    forall s | 0 <= s < |longer|
      ensures R.WellFormed(longer[s].inputs) && Anchored(longer, s)
    {
      forall i | 0 <= i < |longer[s].inputs|
        ensures Represents(longer[s].inputs[i].anchors, LogAt(longer, s, longer[s].inputs[i].sample.instance))
      {
        LogAtPrefix(record, c, s, longer[s].inputs[i].sample.instance);
        if s < |record| {
          assert Anchored(record, s);
        }
      }
    }
  }

  function LogIn(logs: map<string, Log>, h: string): Log {
    if h in logs then logs[h] else []
  }

  /** The logs are the record, host by host. */
  ghost predicate Recorded(logs: map<string, Log>, record: Record) {
    forall h :: LogIn(logs, h) == LogAt(record, |record|, h)
  }

  lemma {:induction false} InputIsListed(inputs: seq<Input>, h: string) returns (j: nat)
    requires InputOf(inputs, h).Some?
    ensures j < |inputs| && inputs[j] == InputOf(inputs, h).value && inputs[j].sample.instance == h
  {
    j := |inputs| - 1;
    if inputs[j].sample.instance != h {
      j := InputIsListed(inputs[..|inputs| - 1], h);
    }
  }

  lemma {:induction false} InputOfSampled(inputs: seq<Input>, h: string)
    ensures InputOf(inputs, h).Some? <==> h in R.Instances(inputs)
  {
    if inputs != [] {
      InputOfSampled(inputs[..|inputs| - 1], h);
      R.InstancesLast(inputs, |inputs| - 1);
    }
  }

  /** Committing the sampled hosts' captures keeps the logs what the record says. */
  lemma RecordedStep(logs: map<string, Log>, record: Record, c: Commit, longer: map<string, Log>)
    requires Recorded(logs, record) && longer.Keys == R.Instances(c.inputs)
    requires forall i :: 0 <= i < |c.inputs| ==> c.inputs[i].sample.instance in longer
    requires forall i :: 0 <= i < |c.inputs| ==>
      longer[c.inputs[i].sample.instance] == LogIn(logs, c.inputs[i].sample.instance) + [CaptureOf(c.inputs[i], c.at)]
    ensures Recorded(logs + longer, record + [c])
  {
    forall h
      ensures LogIn(logs + longer, h) == LogAt(record + [c], |record| + 1, h)
    {
      LogAtPrefix(record, c, |record|, h);
      InputOfSampled(c.inputs, h);
      if InputOf(c.inputs, h).Some? {
        var j := InputIsListed(c.inputs, h);
      }
    }
  }

  // ----- what is computed for one host

  /** The delta of object k on host h in the aggregate a snapshot is ranked from. */
  function HostDeltaIn(agg: R.Agg, k: Key, h: string): Option<Counters> {
    if k in agg && h in agg[k].perHost then Some(agg[k].perHost[h].delta) else None
  }

  lemma {:induction false} PerHostAt(inputs: seq<Input>, k: Key, h: string)
    requires R.WellFormed(inputs)
    ensures var i, perHost := InputOf(inputs, h), R.PerHostOf(inputs, k);
      && (h in perHost <==> i.Some? && R.HostPart(i.value, k).Some?)
      && (h in perHost ==> Some(perHost[h].delta) == R.HostPart(i.value, k))
  {
    if inputs != [] {
      var front, last := inputs[..|inputs| - 1], inputs[|inputs| - 1];
      PerHostAt(front, k, h);
      if last.sample.instance == h {
        R.HostNotListed(front, k, h);
      }
    }
  }

  /** What a snapshot is ranked from holds, for every host and object, the interval since the host's previous commit. */
  lemma AggregateHoldsInterval(record: Record, s: nat, k: Key, h: string)
    requires Faithful(record) && s < |record|
    ensures var before, i := LogAt(record, s, h), InputOf(record[s].inputs, h);
      HostDeltaIn(R.AddInputs(record[s].inputs), k, h) ==
        if i.None? || before == [] then None
        else IntervalDelta(before[|before| - 1], CaptureOf(i.value, record[s].at), k)
  {
    var inputs := record[s].inputs;
    R.ClusterDeltaIsSum(inputs, k, "");
    PerHostAt(inputs, k, h);
    var i := InputOf(inputs, h);
    if i.Some? {
      var j := InputIsListed(inputs, h);
      assert Anchored(record, s);
      PartIsInterval(LogAt(record, s, h), i.value, k, record[s].at);
    }
  }

  function Amount(d: Option<Counters>, c: string): int {
    if d.Some? then Get(d.value, c) else 0
  }

  /** Counter c of object k on host h, summed over what the snapshots from to n - 1 were ranked from. */
  function SumOfAggregates(record: Record, k: Key, h: string, c: string, from: nat, n: nat): int
    requires from <= n <= |record|
    decreases n
  {
    if n == from then 0
    else SumOfAggregates(record, k, h, c, from, n - 1) + Amount(HostDeltaIn(R.AddInputs(record[n - 1].inputs), k, h), c)
  }

  lemma {:induction false} IntervalsOfPrefix(log: Log, x: Capture, k: Key, i: nat, n: nat, c: string)
    requires i <= n < |log|
    ensures SumOfIntervals(log + [x], k, i, n, c) == SumOfIntervals(log, k, i, n, c)
    decreases n
  {
    if i < n {
      IntervalsOfPrefix(log, x, k, i, n - 1, c);
    }
  }

  lemma OneMoreInterval(log: Log, x: Capture, k: Key, i: nat, c: string)
    requires i < |log|
    ensures SumOfIntervals(log + [x], k, i, |log|, c) ==
      SumOfIntervals(log, k, i, |log| - 1, c) + Amount(IntervalDelta(log[|log| - 1], x, k), c)
  {
    IntervalsOfPrefix(log, x, k, i, |log| - 1, c);
  }

  /** The intervals of host h since its first n captures, summed over all its captures. */
  function IntervalsFrom(log: Log, k: Key, n: nat, c: string): int
    requires 0 < n <= |log|
  {
    SumOfIntervals(log, k, n - 1, |log| - 1, c)
  }

  lemma IntervalsStep(record: Record, k: Key, h: string, c: string, m: nat, n: nat)
    requires Faithful(record) && n < |record| && 0 < m <= |LogAt(record, n, h)|
    ensures |LogAt(record, n, h)| <= |LogAt(record, n + 1, h)|
    ensures IntervalsFrom(LogAt(record, n + 1, h), k, m, c) ==
      IntervalsFrom(LogAt(record, n, h), k, m, c) + Amount(HostDeltaIn(R.AddInputs(record[n].inputs), k, h), c)
  {
    var before, i := LogAt(record, n, h), InputOf(record[n].inputs, h);
    AggregateHoldsInterval(record, n, k, h);
    if i.Some? {
      OneMoreInterval(before, CaptureOf(i.value, record[n].at), k, m - 1, c);
    }
  }

  /** The deltas computed for one host are the intervals of its captures, whichever commits missed it. */
  lemma {:induction false} AggregatesSumIntervals(record: Record, k: Key, h: string, c: string, from: nat, n: nat)
    requires Faithful(record) && from <= n <= |record| && LogAt(record, from, h) != []
    ensures |LogAt(record, from, h)| <= |LogAt(record, n, h)|
    ensures SumOfAggregates(record, k, h, c, from, n) == IntervalsFrom(LogAt(record, n, h), k, |LogAt(record, from, h)|, c)
    decreases n
  {
    if from < n {
      AggregatesSumIntervals(record, k, h, c, from, n - 1);
      IntervalsStep(record, k, h, c, |LogAt(record, from, h)|, n - 1);
    }
  }

  /** No counter that was positive vanished from the object after capture i. */
  predicate KeptSince(log: Log, k: Key, i: nat, c: string) {
    forall j :: i < j < |log| ==> Kept(log, k, j, c)
  }

  function Growth(log: Log, k: Key, i: nat, c: string): int
    requires i < |log|
  {
    Total(log, k, |log| - 1, c) - Total(log, k, i, c)
  }

  lemma IntervalsAreGrowth(log: Log, k: Key, i: nat, c: string)
    requires log != [] && AllMeasurable(log, k, i, |log| - 1)
    requires forall j :: 0 <= j < |log| ==> Total(log, k, j, c) >= 0
    ensures IntervalsFrom(log, k, i + 1, c) == Growth(log, k, i, c) <==> KeptSince(log, k, i, c)
  {
    NothingLostOrCountedTwice(log, k, i, |log| - 1, c);
  }

  /**
   * No interval is lost or counted twice on the way into the snapshots: between any two
   * commits the per-host deltas computed add up to the growth of the counter, whichever hosts were
   * unreachable in between, as long as every interval was measurable, exactly unless a
   * positive counter vanished on the way.
   */
  lemma AggregatesLoseNothing(record: Record, k: Key, h: string, c: string, from: nat, n: nat, log: Log, i: nat)
    requires Faithful(record) && from <= n <= |record|
    requires log == LogAt(record, n, h) && |LogAt(record, from, h)| == i + 1 && log != []
    requires AllMeasurable(log, k, i, |log| - 1)
    requires forall j :: 0 <= j < |log| ==> Total(log, k, j, c) >= 0
    ensures SumOfAggregates(record, k, h, c, from, n) == Growth(log, k, i, c) <==> KeptSince(log, k, i, c)
  {
    AggregatesSumIntervals(record, k, h, c, from, n);
    IntervalsAreGrowth(log, k, i, c);
  }

  /** The stored snapshots are those of the recorded commits. */
  ghost predicate SnapshotsOf(snapshots: seq<R.Snapshot>, rankings: seq<seq<seq<R.Ranked>>>, record: Record) {
    && |snapshots| == |record| == |rankings|
    && forall s :: 0 <= s < |record| ==>
        R.SnapshotOf(snapshots[s], rankings[s], record[s].at, record[s].inputs, record[s].missing, record[s].topN)
  }

  lemma SnapshotsStep(
    snapshots: seq<R.Snapshot>, rankings: seq<seq<seq<R.Ranked>>>, record: Record,
    snap: R.Snapshot, ranking: seq<seq<R.Ranked>>, c: Commit)
    requires SnapshotsOf(snapshots, rankings, record) && R.SnapshotOf(snap, ranking, c.at, c.inputs, c.missing, c.topN)
    ensures SnapshotsOf(snapshots + [snap], rankings + [ranking], record + [c])
  {
  }

  // ----- what is stored of one host

  /** The entry of object k in a top, none when it went into the tail. */
  function EntryOf(top: seq<R.TopEntry>, k: Key): Option<R.Object> {
    if top == [] then None
    else if top[|top| - 1].obj.key == k then Some(top[|top| - 1].obj)
    else EntryOf(top[..|top| - 1], k)
  }

  lemma {:induction false} EntryIsListed(top: seq<R.TopEntry>, k: Key)
    ensures EntryOf(top, k).Some? <==> exists i :: 0 <= i < |top| && top[i].obj.key == k
    ensures EntryOf(top, k).Some? ==> exists i :: 0 <= i < |top| && top[i].obj == EntryOf(top, k).value && top[i].obj.key == k
  {
    if top != [] && top[|top| - 1].obj.key != k {
      EntryIsListed(top[..|top| - 1], k);
    }
  }

  /** The top of the t-th tracked kind and class shows object k. */
  predicate Shows(s: R.Snapshot, t: nat, k: Key) {
    t < |s.ranks| && EntryOf(s.ranks[t].top, k).Some?
  }

  /** The delta of object k on host h as the t-th top stores it. */
  function StoredDelta(s: R.Snapshot, t: nat, k: Key, h: string): Option<Counters> {
    if !Shows(s, t, k) then None
    else
      var perHost := EntryOf(s.ranks[t].top, k).value.perHost;
      if h in perHost then Some(perHost[h].delta) else None
  }

  /** A top entry is the object it was ranked as. */
  lemma EntryIsAggregate(s: R.Snapshot, ranking: seq<seq<R.Ranked>>, c: Commit, t: nat, k: Key)
    requires R.SnapshotOf(s, ranking, c.at, c.inputs, c.missing, c.topN) && t < |R.TRACKED|
    ensures |s.ranks| == |R.TRACKED|
    ensures Shows(s, t, k) ==> k in R.AddInputs(c.inputs) && R.AddInputs(c.inputs)[k] == EntryOf(s.ranks[t].top, k).value
  {
    var all, agg := ranking[t], R.AddInputs(c.inputs);
    assert R.RankedFrom(s.ranks[t], all, R.TRACKED[t].0, R.TRACKED[t].1, agg, c.topN);
    EntryIsListed(s.ranks[t].top, k);
    if Shows(s, t, k) {
      var i :| 0 <= i < |s.ranks[t].top| && s.ranks[t].top[i].obj == EntryOf(s.ranks[t].top, k).value && s.ranks[t].top[i].obj.key == k;
      assert all[i] in multiset(all);
    }
  }

  /**
   * What a stored snapshot keeps of an object on a host is the interval since the host's
   * previous commit, for every object in its top; of the others it keeps nothing by name.
   */
  lemma StoredEntryIsInterval(
    snapshots: seq<R.Snapshot>, rankings: seq<seq<seq<R.Ranked>>>, record: Record, s: nat, t: nat, k: Key, h: string)
    requires Faithful(record) && SnapshotsOf(snapshots, rankings, record) && s < |record| && t < |R.TRACKED|
    ensures StoredDelta(snapshots[s], t, k, h) ==
      if Shows(snapshots[s], t, k) then HostDeltaIn(R.AddInputs(record[s].inputs), k, h) else None
    ensures var before, i := LogAt(record, s, h), InputOf(record[s].inputs, h);
      StoredDelta(snapshots[s], t, k, h) ==
        if !Shows(snapshots[s], t, k) || i.None? || before == [] then None
        else IntervalDelta(before[|before| - 1], CaptureOf(i.value, record[s].at), k)
  {
    EntryIsAggregate(snapshots[s], rankings[s], record[s], t, k);
    AggregateHoldsInterval(record, s, k, h);
  }

  /** Counter c of object k on host h, summed over the t-th tops of the stored snapshots from to n - 1. */
  function SumStored(snapshots: seq<R.Snapshot>, t: nat, k: Key, h: string, c: string, from: nat, n: nat): int
    requires from <= n <= |snapshots|
    decreases n
  {
    if n == from then 0
    else SumStored(snapshots, t, k, h, c, from, n - 1) + Amount(StoredDelta(snapshots[n - 1], t, k, h), c)
  }

  /** The object made the top, or did nothing on the host. */
  predicate ShownAt(s: R.Snapshot, commit: Commit, t: nat, k: Key, h: string, c: string) {
    Shows(s, t, k) || Amount(HostDeltaIn(R.AddInputs(commit.inputs), k, h), c) == 0
  }

  predicate AlwaysShown(snapshots: seq<R.Snapshot>, record: Record, t: nat, k: Key, h: string, c: string, from: nat, n: nat)
    requires n <= |snapshots| == |record|
  {
    forall s :: from <= s < n ==> ShownAt(snapshots[s], record[s], t, k, h, c)
  }

  /** What is stored of one commit is what was computed for it, or nothing. */
  predicate StoredPart(s: R.Snapshot, commit: Commit, t: nat, k: Key, h: string, c: string) {
    var stored, computed := Amount(StoredDelta(s, t, k, h), c), Amount(HostDeltaIn(R.AddInputs(commit.inputs), k, h), c);
    stored <= computed && (stored == computed <==> ShownAt(s, commit, t, k, h, c))
  }

  lemma StoredAmount(
    snapshots: seq<R.Snapshot>, rankings: seq<seq<seq<R.Ranked>>>, record: Record, s: nat, t: nat, k: Key, h: string, c: string)
    requires Faithful(record) && SnapshotsOf(snapshots, rankings, record) && s < |record| && t < |R.TRACKED|
    ensures StoredPart(snapshots[s], record[s], t, k, h, c)
  {
    StoredEntryIsInterval(snapshots, rankings, record, s, t, k, h);
    AggregateHoldsInterval(record, s, k, h);
  }

  lemma {:induction false} PartsAddUp(
    snapshots: seq<R.Snapshot>, record: Record, t: nat, k: Key, h: string, c: string, from: nat, n: nat)
    requires from <= n <= |record| == |snapshots|
    requires forall s :: from <= s < n ==> StoredPart(snapshots[s], record[s], t, k, h, c)
    ensures SumStored(snapshots, t, k, h, c, from, n) <= SumOfAggregates(record, k, h, c, from, n)
    ensures SumStored(snapshots, t, k, h, c, from, n) == SumOfAggregates(record, k, h, c, from, n)
      <==> AlwaysShown(snapshots, record, t, k, h, c, from, n)
    decreases n
  {
    if from < n {
      PartsAddUp(snapshots, record, t, k, h, c, from, n - 1);
      assert StoredPart(snapshots[n - 1], record[n - 1], t, k, h, c);
    }
  }

  /** The stored tops never show more than was computed, and all of it exactly when the object was always in them. */
  lemma StoredSumShows(
    snapshots: seq<R.Snapshot>, rankings: seq<seq<seq<R.Ranked>>>, record: Record,
    t: nat, k: Key, h: string, c: string, from: nat, n: nat)
    requires Faithful(record) && SnapshotsOf(snapshots, rankings, record) && from <= n <= |record| && t < |R.TRACKED|
    ensures SumStored(snapshots, t, k, h, c, from, n) <= SumOfAggregates(record, k, h, c, from, n)
    ensures SumStored(snapshots, t, k, h, c, from, n) == SumOfAggregates(record, k, h, c, from, n)
      <==> AlwaysShown(snapshots, record, t, k, h, c, from, n)
  {
    forall s | from <= s < n
      ensures StoredPart(snapshots[s], record[s], t, k, h, c)
    {
      StoredAmount(snapshots, rankings, record, s, t, k, h, c);
    }
    PartsAddUp(snapshots, record, t, k, h, c, from, n);
  }
}
