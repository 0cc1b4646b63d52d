/**
 * The store of captures: every host's anchors and previous window, the snapshots, and the
 * one capture-and-commit step over them. What it holds is what its record of commits says.
 */
module HotStorage {
  import opened Common
  import opened HotModel
  import opened HotHistory
  import opened HotRecord
  import R = HotRanking

  /** The sampled host's log with its new capture. */
  ghost predicate Extends(i: Input, logs: map<string, Log>, longer: map<string, Log>, capturedAt: int) {
    var h := i.sample.instance;
    h in longer && longer[h] == LogIn(logs, h) + [CaptureOf(i, capturedAt)]
  }

  /** The logs of the first n hosts sampled, and of no others. */
  ghost predicate Lengthened(inputs: seq<Input>, n: nat, logs: map<string, Log>, longer: map<string, Log>, capturedAt: int)
    requires n <= |inputs|
  {
    longer.Keys == R.Instances(inputs[..n]) && forall i :: 0 <= i < n ==> Extends(inputs[i], logs, longer, capturedAt)
  }

  lemma LengthenedOneMore(inputs: seq<Input>, n: nat, logs: map<string, Log>, longer: map<string, Log>, capturedAt: int)
    requires R.WellFormed(inputs) && n < |inputs| && Lengthened(inputs, n, logs, longer, capturedAt)
    ensures var host := inputs[n].sample.instance;
      Lengthened(inputs, n + 1, logs, longer[host := LogIn(logs, host) + [CaptureOf(inputs[n], capturedAt)]], capturedAt)
  {
    R.InstancesLast(inputs, n);
  }

  /** The advanced anchors of every host are what its log calls for. */
  ghost predicate AllConsistent(
    advanced: map<string, map<Key, Row>>, windows: map<string, HostWindow>, longer: map<string, Log>, capturedAt: int)
  {
    && advanced.Keys == longer.Keys
    && forall h :: h in longer ==> h in windows && HostConsistent(advanced[h], windows[h], longer[h], capturedAt)
  }

  /** The snapshots and the logs are those of the recorded commits. */
  ghost predicate RecordKept(
    snapshots: seq<R.Snapshot>, rankings: seq<seq<seq<R.Ranked>>>, logs: map<string, Log>, record: Record)
  {
    Faithful(record) && Recorded(logs, record) && SnapshotsOf(snapshots, rankings, record)
  }

  lemma RecordStep(
    snapshots: seq<R.Snapshot>, rankings: seq<seq<seq<R.Ranked>>>, logs: map<string, Log>, record: Record,
    snap: R.Snapshot, ranking: seq<seq<R.Ranked>>, c: Commit, longer: map<string, Log>)
    requires RecordKept(snapshots, rankings, logs, record) && R.WellFormed(c.inputs)
    requires R.SnapshotOf(snap, ranking, c.at, c.inputs, c.missing, c.topN)
    requires Lengthened(c.inputs, |c.inputs|, logs, longer, c.at)
    requires forall i :: 0 <= i < |c.inputs| ==> Represents(c.inputs[i].anchors, LogIn(logs, c.inputs[i].sample.instance))
    ensures RecordKept(snapshots + [snap], rankings + [ranking], logs + longer, record + [c])
  {
    assert c.inputs[..|c.inputs|] == c.inputs;
    FaithfulStep(record, c);
    forall i | 0 <= i < |c.inputs|
      ensures c.inputs[i].sample.instance in longer
      ensures longer[c.inputs[i].sample.instance] == LogIn(logs, c.inputs[i].sample.instance) + [CaptureOf(c.inputs[i], c.at)]
    {
      assert Extends(c.inputs[i], logs, longer, c.at);
    }
    RecordedStep(logs, record, c, longer);
    SnapshotsStep(snapshots, rankings, record, snap, ranking, c);
  }

  /** The whole stored state after a commit. */
  lemma StoreStep(
    anchors: map<string, map<Key, Row>>, windows: map<string, HostWindow>, snapshots: seq<R.Snapshot>,
    rankings: seq<seq<seq<R.Ranked>>>, logs: map<string, Log>, now: int, record: Record,
    advanced: map<string, map<Key, Row>>, snap: R.Snapshot, ranking: seq<seq<R.Ranked>>, c: Commit, longer: map<string, Log>)
    requires StoreConsistent(anchors, windows, logs, now) && now < c.at && RecordKept(snapshots, rankings, logs, record)
    requires R.WellFormed(c.inputs) && R.SnapshotOf(snap, ranking, c.at, c.inputs, c.missing, c.topN)
    requires Lengthened(c.inputs, |c.inputs|, logs, longer, c.at) && AllConsistent(advanced, snap.windows, longer, c.at)
    requires forall i :: 0 <= i < |c.inputs| ==> Represents(c.inputs[i].anchors, LogIn(logs, c.inputs[i].sample.instance))
    ensures StoreConsistent(anchors + advanced, windows + snap.windows, logs + longer, c.at)
    ensures RecordKept(snapshots + [snap], rankings + [ranking], logs + longer, record + [c])
  {
    assert c.inputs[..|c.inputs|] == c.inputs;
    MergeConsistent(anchors, windows, logs, now, advanced, snap.windows, longer, c.at);
    RecordStep(snapshots, rankings, logs, record, snap, ranking, c, longer);
  }

  class HotStore {
    var anchors: map<string, map<Key, Row>>
    var windows: map<string, HostWindow>
    var snapshots: seq<R.Snapshot>
    ghost var logs: map<string, Log>
    ghost var now: int

    /** Every commit so far, and the rankings its snapshot was cut from. */
    ghost var record: Record
    ghost var rankings: seq<seq<seq<R.Ranked>>>

    /** The stored state is what the histories call for, and the histories are those of the snapshots. */
    ghost predicate Valid()
      reads this
    {
      StoreConsistent(anchors, windows, logs, now) && RecordKept(snapshots, rankings, logs, record)
    }

    constructor ()
      ensures Valid() && snapshots == [] && logs == map[] && record == []
    {
      anchors, windows, snapshots := map[], map[], [];
      logs, now, record, rankings := map[], 0, [], [];
    }

    ghost function LogOf(h: string): Log
      reads this
    {
      LogIn(logs, h)
    }

    function AnchorsOf(h: string): map<Key, Row>
      reads this
    {
      if h in anchors then anchors[h] else map[]
    }

    predicate FreshInput(i: Input, hosts: seq<string>, answers: map<string, Sample>)
      reads this
    {
      var h := i.sample.instance;
      h in answers && h in hosts && i == Input(answers[h], AnchorsOf(h), None)
    }

    /** Hosts that answered, with what the store knows about them; the others are missing. */
    method ReadInputs(hosts: seq<string>, answers: map<string, Sample>)
      returns (inputs: seq<Input>, missing: seq<string>)
      requires Valid() && NoRepeats(hosts)
      requires forall h :: h in answers ==> answers[h].instance == h && R.UniqueKeys(answers[h].rows)
      ensures forall i :: 0 <= i < |inputs| ==> FreshInput(inputs[i], hosts, answers)
      ensures R.Instances(inputs) == Answered(hosts, answers)
      ensures forall h :: h in missing <==> h in hosts && h !in answers
      ensures R.WellFormed(inputs)
    {
      inputs, missing := [], [];
      for n := 0 to |hosts|
        invariant forall i :: 0 <= i < |inputs| ==> FreshInput(inputs[i], hosts[..n], answers)
        invariant R.Instances(inputs) == Answered(hosts[..n], answers)
        invariant forall h :: h in missing <==> h in hosts[..n] && h !in answers
        invariant R.WellFormed(inputs)
      {
        var host := hosts[n];
        assert host !in hosts[..n];
        assert hosts[..n + 1] == hosts[..n] + [host];
        if host in answers {
          ghost var before := inputs;
          inputs := inputs + [Input(answers[host], AnchorsOf(host), None)];
          R.InstancesLast(inputs, |before|);
          assert inputs[..|before|] == before && inputs[..|before| + 1] == inputs;
        } else {
          missing := missing + [host];
        }
      }
      assert hosts[..|hosts|] == hosts;
    }

    function SeenWindow(host: string, seen: set<string>): Option<HostWindow>
      reads this
    {
      if host in seen && host in windows then Some(windows[host]) else None
    }

    /** Fills in the previous windows the store still has. */
    method AttachPrevWindows(inputs: seq<Input>, seen: set<string>) returns (r: seq<Input>)
      requires forall i :: 0 <= i < |inputs| ==> inputs[i].prevWindow == None
      ensures |r| == |inputs|
      ensures forall i :: 0 <= i < |r| ==>
        r[i] == inputs[i].(prevWindow := SeenWindow(inputs[i].sample.instance, seen))
    {
      r := [];
      for n := 0 to |inputs|
        invariant |r| == n
        invariant forall i :: 0 <= i < n ==>
          r[i] == inputs[i].(prevWindow := SeenWindow(inputs[i].sample.instance, seen))
      {
        var host := inputs[n].sample.instance;
        var next := inputs[n];
        if host in seen && host in windows {
          next := next.(prevWindow := Some(windows[host]));
        }
        r := r + [next];
      }
    }

    /** The input carries the host's stored state, and the capture is later than all of it. */
    ghost predicate Ready(i: Input, capturedAt: int)
      reads this
    {
      var log := LogOf(i.sample.instance);
      && i.anchors == AnchorsOf(i.sample.instance) && Represents(i.anchors, log) && Increasing(log)
      && (log != [] ==> log[|log| - 1].at < capturedAt)
      && (i.prevWindow.Some? ==> log != [] && i.prevWindow.value.observedSince == WatchMark(log, |log| - 1))
    }

    lemma InputReady(i: Input, seen: set<string>, capturedAt: int)
      requires Valid() && capturedAt > now
      requires i.anchors == AnchorsOf(i.sample.instance) && i.prevWindow == SeenWindow(i.sample.instance, seen)
      ensures Ready(i, capturedAt) && Uniform(i.anchors)
    {
      RepresentsUniform(i.anchors, LogOf(i.sample.instance));
    }

    /** The anchors of the sampled hosts, advanced; ghostly, their logs with the capture added. */
    method AdvanceAll(inputs: seq<Input>, capturedAt: int, ghost newWindows: map<string, HostWindow>)
      returns (advanced: map<string, map<Key, Row>>, ghost longer: map<string, Log>)
      requires R.WellFormed(inputs)
      requires forall i :: 0 <= i < |inputs| ==> Committable(inputs[i], newWindows, capturedAt)
      ensures Lengthened(inputs, |inputs|, logs, longer, capturedAt)
      ensures AllConsistent(advanced, newWindows, longer, capturedAt)
    {
      advanced, longer := map[], map[];
      for n := 0 to |inputs|
        invariant Lengthened(inputs, n, logs, longer, capturedAt)
        invariant AllConsistent(advanced, newWindows, longer, capturedAt)
      {
        var host := inputs[n].sample.instance;
        ghost var log := LogOf(host) + [CaptureOf(inputs[n], capturedAt)];
        var rows := AdvanceOne(inputs[n], capturedAt, newWindows);
        LengthenedOneMore(inputs, n, logs, longer, capturedAt);
        advanced := advanced[host := rows];
        longer := longer[host := log];
      }
      assert inputs[..|inputs|] == inputs;
    }

    method AdvanceOne(i: Input, capturedAt: int, ghost newWindows: map<string, HostWindow>)
      returns (advanced: map<Key, Row>)
      requires Committable(i, newWindows, capturedAt)
      ensures HostConsistent(advanced, newWindows[i.sample.instance],
                             LogOf(i.sample.instance) + [CaptureOf(i, capturedAt)], capturedAt)
    {
      var rows := AdvanceQuiet(i, capturedAt);
      var stamped := Stamp(i, rows, capturedAt);
      HostStep(LogOf(i.sample.instance), i, newWindows[i.sample.instance], capturedAt);
      advanced := RowMap(stamped);
    }

    ghost predicate Committable(i: Input, newWindows: map<string, HostWindow>, capturedAt: int)
      reads this
    {
      && Ready(i, capturedAt) && Uniform(i.anchors)
      && i.sample.instance in newWindows && IsWindow(newWindows[i.sample.instance], i, capturedAt)
    }

    /** The one transaction: snapshot, windows and anchors together. */
    method Commit(snap: R.Snapshot, ghost ranking: seq<seq<R.Ranked>>, inputs: seq<Input>, capturedAt: int, ghost c: HotRecord.Commit)
      returns (ghost longer: map<string, Log>)
      requires Valid() && capturedAt > now && R.WellFormed(inputs) && c.inputs == inputs && c.at == capturedAt
      requires R.SnapshotOf(snap, ranking, c.at, c.inputs, c.missing, c.topN)
      requires forall i :: 0 <= i < |inputs| ==> Committable(inputs[i], snap.windows, capturedAt)
      modifies this
      ensures Valid() && snapshots == old(snapshots) + [snap] && record == old(record) + [c]
      ensures now == capturedAt && logs == old(logs) + longer
      ensures Lengthened(inputs, |inputs|, old(logs), longer, capturedAt)
    {
      var advanced;
      advanced, longer := AdvanceAll(inputs, capturedAt, snap.windows);
      ReadyInputs(inputs, snap.windows, capturedAt);
      StoreStep(anchors, windows, snapshots, rankings, logs, now, record, advanced, snap, ranking, c, longer);
      snapshots, record, rankings := snapshots + [snap], record + [c], rankings + [ranking];
      anchors, windows := anchors + advanced, windows + snap.windows;
      logs, now := logs + longer, capturedAt;
    }

    lemma ReadyInputs(inputs: seq<Input>, newWindows: map<string, HostWindow>, capturedAt: int)
      requires forall i :: 0 <= i < |inputs| ==> Committable(inputs[i], newWindows, capturedAt)
      ensures forall i :: 0 <= i < |inputs| ==> Represents(inputs[i].anchors, LogIn(logs, inputs[i].sample.instance))
    {
    }

    /** Every entry of every stored top holds, for each host, the interval since that host's previous commit. */
    lemma StoredEntriesAreIntervals(s: nat, t: nat, k: Key, h: string)
      requires Valid() && s < |snapshots| && t < |R.TRACKED|
      ensures |record| == |snapshots|
      ensures var before, i := LogAt(record, s, h), InputOf(record[s].inputs, h);
        StoredDelta(snapshots[s], t, k, h) ==
          if !Shows(snapshots[s], t, k) || i.None? || before == [] then None
          else IntervalDelta(before[|before| - 1], CaptureOf(i.value, record[s].at), k)
    {
      StoredEntryIsInterval(snapshots, rankings, record, s, t, k, h);
    }

    /**
     * For an object that made a top whenever it did something on the host, what the stored
     * tops say of it adds up to the growth of its counter, from the state after the first
     * from commits to now, exactly unless a positive counter vanished on the way.
     */
    lemma StoredDeltasAreGrowth(t: nat, k: Key, h: string, c: string, from: nat, i: nat)
      requires Valid() && from <= |snapshots| && |LogAt(record, from, h)| == i + 1 && LogOf(h) != []
      requires t < |R.TRACKED| && AlwaysShown(snapshots, record, t, k, h, c, from, |snapshots|)
      requires AllMeasurable(LogOf(h), k, i, |LogOf(h)| - 1)
      requires forall j :: 0 <= j < |LogOf(h)| ==> Total(LogOf(h), k, j, c) >= 0
      ensures SumStored(snapshots, t, k, h, c, from, |snapshots|) == Growth(LogOf(h), k, i, c) <==> KeptSince(LogOf(h), k, i, c)
    {
      StoredSumShows(snapshots, rankings, record, t, k, h, c, from, |snapshots|);
      AggregatesLoseNothing(record, k, h, c, from, |record|, LogOf(h), i);
    }

    /** The inputs of a capture: exactly the hosts that answered, each with its stored state. */
    ghost predicate Took(inputs: seq<Input>, hosts: seq<string>, answers: map<string, Sample>, seen: set<string>)
      reads this
    {
      && R.WellFormed(inputs)
      && (forall i :: 0 <= i < |inputs| ==>
            var h := inputs[i].sample.instance;
            h in hosts && h in answers && inputs[i] == Input(answers[h], AnchorsOf(h), SeenWindow(h, seen)))
      && R.Instances(inputs) == Answered(hosts, answers)
    }

    /**
     * One capture. Hosts missing from answers could not be read; seen is what the read of
     * previous windows returned, None when it failed; commits says whether the transaction
     * goes through. Either everything is stored or nothing is.
     */
    method TakeHotSnapshot(
      capturedAt: int, hosts: seq<string>, answers: map<string, Sample>, seen: Option<set<string>>, commits: bool,
      topN: int)
      returns (stored: bool, ghost inputs: seq<Input>, ghost missing: seq<string>, ghost ranking: seq<seq<R.Ranked>>,
               ghost longer: map<string, Log>)
      requires Valid() && capturedAt > now && NoRepeats(hosts)
      requires forall h :: h in answers ==> answers[h].instance == h && R.UniqueKeys(answers[h].rows)
      modifies this
      ensures Valid()
      ensures stored <==> commits && seen.Some? && Answered(hosts, answers) != {}
      ensures !stored ==> unchanged(this)
      ensures forall h :: h in missing <==> h in hosts && h !in answers
      ensures stored ==> old(Took(inputs, hosts, answers, seen.value))
      ensures stored ==> |snapshots| == |old(snapshots)| + 1 && snapshots[..|old(snapshots)|] == old(snapshots)
      ensures stored ==> R.SnapshotOf(snapshots[|old(snapshots)|], ranking, capturedAt, inputs, missing, topN)
      ensures stored ==> record == old(record) + [HotRecord.Commit(capturedAt, inputs, missing, topN)]
      ensures stored ==> now == capturedAt && logs == old(logs) + longer
      ensures stored ==> Lengthened(inputs, |inputs|, old(logs), longer, capturedAt)
      ensures stored ==> R.Instances(inputs) == Answered(hosts, answers)
    {
      ranking, longer, stored := [], map[], false;
      var ready, absent := Prepare(hosts, answers, if seen.Some? then seen.value else {}, capturedAt);
      inputs, missing := ready, absent;
      if |ready| == 0 || seen.None? {
        return;
      }
      var snap;
      snap, ranking := R.BuildSnapshot(capturedAt, ready, absent, topN);
      if !commits {
        return;
      }
      longer := Commit(snap, ranking, ready, capturedAt, HotRecord.Commit(capturedAt, ready, absent, topN));
      stored := true;
    }

    /** Reads every host, then the previous windows. */
    method Prepare(hosts: seq<string>, answers: map<string, Sample>, seen: set<string>, capturedAt: int)
      returns (ready: seq<Input>, missing: seq<string>)
      requires Valid() && capturedAt > now && NoRepeats(hosts)
      requires forall h :: h in answers ==> answers[h].instance == h && R.UniqueKeys(answers[h].rows)
      ensures Took(ready, hosts, answers, seen)
      ensures forall i :: 0 <= i < |ready| ==> Ready(ready[i], capturedAt) && Uniform(ready[i].anchors)
      ensures forall h :: h in missing <==> h in hosts && h !in answers
    {
      var found;
      found, missing := ReadInputs(hosts, answers);
      ready := AttachPrevWindows(found, seen);
      TookAll(found, ready, hosts, answers, seen);
      forall i | 0 <= i < |ready| ensures Ready(ready[i], capturedAt) && Uniform(ready[i].anchors) {
        InputReady(ready[i], seen, capturedAt);
      }
    }

    lemma TookAll(
      found: seq<Input>, ready: seq<Input>, hosts: seq<string>, answers: map<string, Sample>, seen: set<string>)
      requires R.WellFormed(found) && |ready| == |found|
      requires forall i :: 0 <= i < |found| ==> FreshInput(found[i], hosts, answers)
      requires forall h :: h in answers ==> answers[h].instance == h
      requires R.Instances(found) == Answered(hosts, answers)
      requires forall i :: 0 <= i < |ready| ==>
        ready[i] == found[i].(prevWindow := SeenWindow(found[i].sample.instance, seen))
      ensures Took(ready, hosts, answers, seen)
    {
      assert forall i :: 0 <= i < |ready| ==> ready[i].sample.instance == found[i].sample.instance;
      assert R.Instances(ready) == R.Instances(found);
    }
  }

  /** The listed hosts that answered. */
  function Answered(hosts: seq<string>, answers: map<string, Sample>): set<string> {
    set h | h in hosts && h in answers
  }

  method Stamp(i: Input, rows: seq<Row>, capturedAt: int) returns (stamped: seq<Row>)
    requires |rows| == |i.sample.rows|
    requires forall j :: 0 <= j < |rows| ==> rows[j] == Advanced(i, i.sample.rows[j], capturedAt)
    ensures stamped == StoredRows(i, i.sample.rows, capturedAt)
  {
    stamped := seq(|rows|, j requires 0 <= j < |rows| =>
      rows[j].(capturedAt := capturedAt, statsReset := i.sample.statsReset));
  }
}
