/**
 * One snapshot: per-host deltas summed into cluster objects, ranked per class into a
 * top and a tail histogram.
 */
module HotRanking {
  import opened Common
  import opened HotModel
  import Hist = HotHistogram
  import Sorting
  import Text

  datatype HostDelta = HostDelta(inRecovery: bool, delta: Counters)

  /** What an object did in the interval over all hosts, and on which of them. */
  datatype Object = Object(
    key: Key, tableName: string, sizeBytes: int, delta: Counters, perHost: map<string, HostDelta>)

  type Agg = map<Key, Object>

  // ----- summing

  function AddCounters(a: Counters, d: Counters): (r: Counters)
    ensures forall c :: Get(r, c) == Get(a, c) + Get(d, c)
  {
    map c | c in a.Keys + d.Keys :: Get(a, c) + Get(d, c)
  }

  /** What one row adds to the aggregate. */
  function AddRow(agg: Agg, i: Input, row: Row): Agg {
    var o := if row.key in agg then agg[row.key] else Object(row.key, row.tableName, 0, map[], map[]);
    var o := o.(sizeBytes := Max(o.sizeBytes, row.sizeBytes));
    var m := Measured(i, row);
    var o := if m.None? then o
             else o.(delta := AddCounters(o.delta, m.value),
                     perHost := o.perHost[i.sample.instance := HostDelta(i.sample.inRecovery, m.value)]);
    agg[row.key := o]
  }

  function AddRows(agg: Agg, i: Input, rows: seq<Row>): Agg {
    if rows == [] then agg else AddRow(AddRows(agg, i, rows[..|rows| - 1]), i, rows[|rows| - 1])
  }

  function AddInputs(inputs: seq<Input>): Agg {
    if inputs == [] then map[]
    else var last := inputs[|inputs| - 1]; AddRows(AddInputs(inputs[..|inputs| - 1]), last, last.sample.rows)
  }

  /** Object keys are unique on a host. */
  predicate UniqueKeys(rows: seq<Row>) {
    forall i, j :: 0 <= i < j < |rows| ==> rows[i].key != rows[j].key
  }

  /** Hosts are sampled once each. */
  predicate WellFormed(inputs: seq<Input>) {
    && (forall i :: 0 <= i < |inputs| ==> UniqueKeys(inputs[i].sample.rows))
    && forall i, j :: 0 <= i < j < |inputs| ==> inputs[i].sample.instance != inputs[j].sample.instance
  }

  /** The hosts sampled. */
  function Instances(inputs: seq<Input>): set<string> {
    set i | 0 <= i < |inputs| :: inputs[i].sample.instance
  }

  lemma InstancesLast(inputs: seq<Input>, n: nat)
    requires n < |inputs|
    ensures Instances(inputs[..n + 1]) == Instances(inputs[..n]) + {inputs[n].sample.instance}
    ensures inputs[..|inputs|] == inputs
  {
    assert inputs[..n + 1] == inputs[..n] + [inputs[n]];
    forall h | h in Instances(inputs[..n]) ensures h in Instances(inputs[..n + 1]) {
      var i :| 0 <= i < n && inputs[..n][i].sample.instance == h;
      assert inputs[..n + 1][i].sample.instance == h;
    }
    assert inputs[..n + 1][n].sample.instance == inputs[n].sample.instance;
  }

  /** The row of key k in a sample. */
  function RowOf(rows: seq<Row>, k: Key): Option<Row> {
    if rows == [] then None
    else if rows[|rows| - 1].key == k then Some(rows[|rows| - 1])
    else RowOf(rows[..|rows| - 1], k)
  }

  /** One host's measurable delta of object k. */
  function HostPart(i: Input, k: Key): Option<Counters> {
    var row := RowOf(i.sample.rows, k);
    if row.None? then None else Measured(i, row.value)
  }

  /** Counter c of object k, summed over the hosts it was measurable on. */
  function SumOverHosts(inputs: seq<Input>, k: Key, c: string): int {
    if inputs == [] then 0
    else
      var part := HostPart(inputs[|inputs| - 1], k);
      SumOverHosts(inputs[..|inputs| - 1], k, c) + (if part.Some? then Get(part.value, c) else 0)
  }

  ghost predicate SampledIn(rows: seq<Row>, k: Key) {
    exists j :: 0 <= j < |rows| && rows[j].key == k
  }

  /** Object k after a host's rows: as before, plus its row when it has one that is measurable. */
  ghost predicate RowAdded(agg: Agg, r: Agg, i: Input, row: Option<Row>, k: Key, c: string) {
    var part := if row.None? then None else Measured(i, row.value);
    && (k in r <==> k in agg || row.Some?)
    && (k in r ==>
          var before := if k in agg then agg[k] else Object(k, r[k].tableName, 0, map[], map[]);
          && r[k].key == before.key && Get(r[k].delta, c) == Get(before.delta, c) + (if part.Some? then Get(part.value, c) else 0)
          && r[k].perHost == if part.Some? then before.perHost[i.sample.instance := HostDelta(i.sample.inRecovery, part.value)]
                             else before.perHost)
  }

  lemma AddRowEffect(agg: Agg, i: Input, row: Row, k: Key, c: string)
    ensures row.key == k ==> RowAdded(agg, AddRow(agg, i, row), i, Some(row), k, c)
    ensures row.key != k ==> (k in AddRow(agg, i, row) <==> k in agg) && (k in agg ==> AddRow(agg, i, row)[k] == agg[k])
  {
  }

  lemma {:induction false} AddRowsElsewhere(agg: Agg, i: Input, rows: seq<Row>, k: Key, c: string)
    requires !SampledIn(rows, k)
    ensures (k in AddRows(agg, i, rows) <==> k in agg) && (k in agg ==> AddRows(agg, i, rows)[k] == agg[k])
  {
    if rows != [] {
      var front, last := rows[..|rows| - 1], rows[|rows| - 1];
      FrontSampled(rows, k);
      AddRowsElsewhere(agg, i, front, k, c);
      AddRowEffect(AddRows(agg, i, front), i, last, k, c);
    }
  }

  lemma FrontSampled(rows: seq<Row>, k: Key)
    requires rows != []
    ensures SampledIn(rows, k) <==> SampledIn(rows[..|rows| - 1], k) || rows[|rows| - 1].key == k
  {
    var n := |rows| - 1;
    if j :| 0 <= j < |rows| && rows[j].key == k && j < n {
      assert rows[..n][j].key == k;
    }
    if j :| 0 <= j < n && rows[..n][j].key == k {
      assert rows[j].key == k;
    }
  }

  lemma {:induction false} RowOfSampled(rows: seq<Row>, k: Key)
    ensures RowOf(rows, k).Some? <==> SampledIn(rows, k)
  {
    if rows != [] {
      FrontSampled(rows, k);
      RowOfSampled(rows[..|rows| - 1], k);
    }
  }

  lemma LastIsOnly(rows: seq<Row>)
    requires UniqueKeys(rows) && rows != []
    ensures UniqueKeys(rows[..|rows| - 1]) && !SampledIn(rows[..|rows| - 1], rows[|rows| - 1].key)
  {
  }

  lemma {:induction false} AddRowsEffect(agg: Agg, i: Input, rows: seq<Row>, k: Key, c: string)
    requires UniqueKeys(rows)
    ensures RowAdded(agg, AddRows(agg, i, rows), i, RowOf(rows, k), k, c)
    ensures RowOf(rows, k).Some? <==> SampledIn(rows, k)
  {
    RowOfSampled(rows, k);
    if rows != [] {
      var front, last := rows[..|rows| - 1], rows[|rows| - 1];
      LastIsOnly(rows);
      AddRowEffect(AddRows(agg, i, front), i, last, k, c);
      if last.key == k {
        AddRowsElsewhere(agg, i, front, k, c);
      } else {
        AddRowsEffect(agg, i, front, k, c);
      }
    }
  }

  /** The hosts object k was measurable on, each with its own delta. */
  function PerHostOf(inputs: seq<Input>, k: Key): map<string, HostDelta> {
    if inputs == [] then map[]
    else
      var last := inputs[|inputs| - 1];
      var rest, part := PerHostOf(inputs[..|inputs| - 1], k), HostPart(last, k);
      if part.Some? then rest[last.sample.instance := HostDelta(last.sample.inRecovery, part.value)] else rest
  }

  lemma {:induction false} HostNotListed(inputs: seq<Input>, k: Key, h: string)
    requires forall i :: 0 <= i < |inputs| ==> inputs[i].sample.instance != h
    ensures h !in PerHostOf(inputs, k)
  {
    if inputs != [] {
      HostNotListed(inputs[..|inputs| - 1], k, h);
    }
  }

  ghost predicate Sampled(inputs: seq<Input>, k: Key) {
    exists i :: 0 <= i < |inputs| && SampledIn(inputs[i].sample.rows, k)
  }

  lemma SampledLast(inputs: seq<Input>, k: Key)
    requires inputs != []
    ensures Sampled(inputs, k) <==>
      Sampled(inputs[..|inputs| - 1], k) || SampledIn(inputs[|inputs| - 1].sample.rows, k)
  {
    var front := inputs[..|inputs| - 1];
    if Sampled(front, k) {
      var i :| 0 <= i < |front| && SampledIn(front[i].sample.rows, k);
      assert SampledIn(inputs[i].sample.rows, k);
    }
    if Sampled(inputs, k) && !SampledIn(inputs[|inputs| - 1].sample.rows, k) {
      var i :| 0 <= i < |inputs| && SampledIn(inputs[i].sample.rows, k);
      assert SampledIn(front[i].sample.rows, k);
    }
  }

  /**
   * Activity is conserved: an object's cluster delta is, counter by counter, the sum of
   * its measurable per-host deltas, and the breakdown lists exactly those hosts.
   */
  lemma {:induction false} ClusterDeltaIsSum(inputs: seq<Input>, k: Key, c: string)
    requires WellFormed(inputs)
    ensures var agg := AddInputs(inputs);
      && (k in agg <==> Sampled(inputs, k))
      && (k in agg ==> agg[k].key == k && Get(agg[k].delta, c) == SumOverHosts(inputs, k, c)
                       && agg[k].perHost == PerHostOf(inputs, k))
      && (k !in agg ==> SumOverHosts(inputs, k, c) == 0 && PerHostOf(inputs, k) == map[])
  {
    if inputs != [] {
      var front, last := inputs[..|inputs| - 1], inputs[|inputs| - 1];
      ClusterDeltaIsSum(front, k, c);
      HostNotListed(front, k, last.sample.instance);
      AddRowsEffect(AddInputs(front), last, last.sample.rows, k, c);
      SampledLast(inputs, k);
    }
  }

  lemma {:induction false} SumNonNegative(inputs: seq<Input>, k: Key, c: string)
    ensures SumOverHosts(inputs, k, c) >= 0
  {
    if inputs != [] {
      SumNonNegative(inputs[..|inputs| - 1], k, c);
    }
  }

  method Aggregate(inputs: seq<Input>) returns (agg: Agg)
    requires forall i :: 0 <= i < |inputs| ==> Uniform(inputs[i].anchors)
    ensures agg == AddInputs(inputs)
  {
    agg := map[];
    for n := 0 to |inputs|
      invariant agg == AddInputs(inputs[..n])
    {
      var i := inputs[n];
      assert inputs[..n + 1][..n] == inputs[..n];
      var complete := CheckEpoch(i);
      var rows := i.sample.rows;
      for r := 0 to |rows|
        invariant agg == AddRows(AddInputs(inputs[..n]), i, rows[..r])
      {
        assert rows[..r + 1][..r] == rows[..r];
        agg := AggregateRow(agg, i, complete, rows[r]);
      }
      assert rows[..|rows|] == rows;
    }
    assert inputs[..|inputs|] == inputs;
  }

  method AggregateRow(before: Agg, i: Input, complete: bool, row: Row) returns (agg: Agg)
    requires complete == EpochIntact(i)
    ensures agg == AddRow(before, i, row)
  {
    agg := before;
    if row.key !in agg {
      agg := agg[row.key := Object(row.key, row.tableName, 0, map[], map[])];
    }
    var o := agg[row.key];
    o := o.(sizeBytes := Max(o.sizeBytes, row.sizeBytes));
    agg := agg[row.key := o];
    if !complete || row.key !in i.anchors || i.anchors[row.key].partSig != row.partSig {
      return;
    }
    var d := ComputeDelta(i.anchors[row.key].counters, row.counters);
    if d.None? {
      return;
    }
    o := o.(delta := AddCounters(o.delta, d.value),
            perHost := o.perHost[i.sample.instance := HostDelta(i.sample.inRecovery, d.value)]);
    agg := agg[row.key := o];
  }

  // ----- ranking one kind and class

  datatype Ranked = Ranked(obj: Object, key: int)

  datatype TopEntry = TopEntry(rank: nat, obj: Object)

  /** Busier first, equals by name. */
  function Before(a: Ranked, b: Ranked): bool {
    a.key > b.key ||
    (a.key == b.key && Text.LexLe(a.obj.key.schema + a.obj.key.name, b.obj.key.schema + b.obj.key.name))
  }

  lemma BeforeOrder()
    ensures Sorting.TotalPreorder(Before)
  {
    forall x, y ensures Before(x, y) || Before(y, x) {
      Text.LexTotal(x.obj.key.schema + x.obj.key.name, y.obj.key.schema + y.obj.key.name);
    }
    forall x, y, z | Before(x, y) && Before(y, z) ensures Before(x, z) {
      BeforeTransitive(x, y, z);
    }
  }

  lemma BeforeTransitive(x: Ranked, y: Ranked, z: Ranked)
    requires Before(x, y) && Before(y, z)
    ensures Before(x, z)
  {
    if x.key == z.key {
      Text.LexTransitive(x.obj.key.schema + x.obj.key.name, y.obj.key.schema + y.obj.key.name,
                         z.obj.key.schema + z.obj.key.name);
    }
  }

  predicate Ranks(o: Object, kind: Kind) {
    o.key.kind == kind && o.perHost != map[]
  }

  function RankedOf(o: Object, cls: Class): Ranked {
    Ranked(o, RankKey(o.key.kind, cls, o.delta))
  }

  /** all lists every object of the kind measured on some host once, with its class key, and nothing else. */
  ghost predicate Lists(all: seq<Ranked>, kind: Kind, cls: Class, agg: Agg) {
    && (forall r :: r in multiset(all) ==>
          r.obj.key in agg && agg[r.obj.key] == r.obj && Ranks(r.obj, kind) && r == RankedOf(r.obj, cls))
    && (forall k :: k in agg && Ranks(agg[k], kind) ==> multiset(all)[RankedOf(agg[k], cls)] == 1)
  }

  /** How many of the first n make the top once idle ones are trimmed off its end. */
  function Cut(all: seq<Ranked>, n: int): (r: nat)
    requires n <= |all|
    ensures r <= |all| && (0 <= n ==> r <= n)
  {
    if n > 0 && all[n - 1].key <= 0 then Cut(all, n - 1) else if n < 0 then 0 else n
  }

  function Keys(all: seq<Ranked>): (r: seq<int>)
    ensures |r| == |all| && forall i :: 0 <= i < |all| ==> r[i] == all[i].key
  {
    seq(|all|, i requires 0 <= i < |all| => all[i].key)
  }

  function Coverage(top: int, tail: int): real {
    if top + tail > 0 then top as real / (top + tail) as real else 1.0
  }

  /** part is that share of the whole; of nothing the share is taken as whole. */
  predicate IsShare(share: real, part: int, whole: int) {
    0.0 <= share <= 1.0 && share * whole as real == part as real
  }

  method Collect(kind: Kind, cls: Class, agg: Agg) returns (all: seq<Ranked>)
    requires forall k :: k in agg ==> agg[k].key == k
    ensures Lists(all, kind, cls, agg)
  {
    all := [];
    var left := agg.Keys;
    while left != {}
      invariant left <= agg.Keys && ListsOutside(all, left, kind, cls, agg)
      decreases left
    {
      var k :| k in left;
      ListsOneMore(all, left, kind, cls, agg, k);
      left := left - {k};
      if agg[k].key.kind == kind && agg[k].perHost != map[] {
        all := all + [Ranked(agg[k], RankKey(kind, cls, agg[k].delta))];
      }
    }
  }

  /** The ranked objects whose keys are not left are listed, once each. */
  ghost predicate ListsOutside(all: seq<Ranked>, left: set<Key>, kind: Kind, cls: Class, agg: Agg) {
    && (forall r :: r in multiset(all) ==>
          r.obj.key in agg && r.obj.key !in left && agg[r.obj.key] == r.obj && Ranks(r.obj, kind) && r == RankedOf(r.obj, cls))
    && (forall k :: k in agg && k !in left && Ranks(agg[k], kind) ==> multiset(all)[RankedOf(agg[k], cls)] == 1)
  }

  lemma ListsOneMore(all: seq<Ranked>, left: set<Key>, kind: Kind, cls: Class, agg: Agg, k: Key)
    requires ListsOutside(all, left, kind, cls, agg) && k in left && k in agg && agg[k].key == k
    ensures ListsOutside(if Ranks(agg[k], kind) then all + [RankedOf(agg[k], cls)] else all, left - {k}, kind, cls, agg)
  {
    var r := RankedOf(agg[k], cls);
    assert r !in multiset(all);
    if Ranks(agg[k], kind) {
      assert multiset(all + [r]) == multiset(all) + multiset{r};
    }
  }

  /** Trims idle objects off the end of the top. */
  method TopCount(all: seq<Ranked>, topN: int) returns (n: int)
    ensures n == Cut(all, Min(topN, |all|)) || (topN < 0 && n == topN && Cut(all, Min(topN, |all|)) == 0)
    ensures n <= |all|
  {
    n := Min(topN, |all|);
    while n > 0 && all[n - 1].key <= 0
      invariant n <= |all| && Cut(all, n) == Cut(all, Min(topN, |all|))
      invariant n < 0 ==> n == topN
    {
      n := n - 1;
    }
  }

  method SplitRanking(all: seq<Ranked>, n: int)
    returns (top: seq<TopEntry>, sumTop: int, sumTail: int, maxTail: int, tailKeys: seq<int>)
    requires n <= |all|
    ensures var cut := if n < 0 then 0 else n;
      && |top| == cut && (forall i :: 0 <= i < cut ==> top[i] == TopEntry(i + 1, all[i].obj))
      && sumTop == Hist.Sum(Keys(all[..cut])) && tailKeys == Keys(all[cut..])
      && sumTail == Hist.Sum(tailKeys) && maxTail == Hist.Max(tailKeys)
  {
    top, sumTop, sumTail, maxTail, tailKeys := [], 0, 0, 0, [];
    ghost var cut := if n < 0 then 0 else n;
    for i := 0 to |all|
      invariant |top| == Min(i, cut) && forall j :: 0 <= j < |top| ==> top[j] == TopEntry(j + 1, all[j].obj)
      invariant |tailKeys| == i - |top| && forall j :: 0 <= j < |tailKeys| ==> tailKeys[j] == all[cut + j].key
      invariant sumTop == Hist.Sum(Keys(all[..|top|]))
      invariant sumTail == Hist.Sum(tailKeys) && maxTail == Hist.Max(tailKeys)
    {
      if i < n {
        assert Keys(all[..i + 1])[..i] == Keys(all[..i]);
        sumTop := sumTop + all[i].key;
        top := top + [TopEntry(i + 1, all[i].obj)];
      } else {
        assert (tailKeys + [all[i].key])[..|tailKeys|] == tailKeys;
        sumTail := sumTail + all[i].key;
        maxTail := Max(maxTail, all[i].key);
        tailKeys := tailKeys + [all[i].key];
      }
    }
  }

  /** Top, histogram and coverage stored for one kind and class. */
  datatype ClassRank = ClassRank(top: seq<TopEntry>, hist: Hist.Histogram, coverage: real)

  datatype Snapshot = Snapshot(
    capturedAt: int, windows: map<string, HostWindow>, hostsMissing: seq<string>,
    ranks: seq<ClassRank>)

  /** What is ranked, in order; indexes have no write counters. */
  const TRACKED := [(Table, Reads), (Table, Writes), (Table, IO), (Index, Reads), (Index, IO)]

  /** The stored rank comes from this ranking of all measured objects. */
  ghost predicate RankedFrom(r: ClassRank, all: seq<Ranked>, kind: Kind, cls: Class, agg: Agg, topN: int) {
    Lists(all, kind, cls, agg) && Sorting.Sorted(all, Before) && CutAt(r, all, Cut(all, Min(topN, |all|)))
  }

  predicate CutAt(r: ClassRank, all: seq<Ranked>, n: nat)
    requires n <= |all|
  {
    && |r.top| == n && (forall i :: 0 <= i < n ==> r.top[i] == TopEntry(i + 1, all[i].obj))
    && r.hist == Hist.Of(Keys(all[n..]))
    && r.coverage == Coverage(Hist.Sum(Keys(all[..n])), Hist.Sum(Keys(all[n..])))
  }

  /** The snapshot of these inputs; rankings are the five rankings behind its tops and tails. */
  ghost predicate SnapshotOf(
    s: Snapshot, rankings: seq<seq<Ranked>>, capturedAt: int, inputs: seq<Input>, missing: seq<string>, topN: int)
  {
    && s.capturedAt == capturedAt && s.hostsMissing == missing
    && (forall i :: 0 <= i < |inputs| ==>
          inputs[i].sample.instance in s.windows && IsWindow(s.windows[inputs[i].sample.instance], inputs[i], capturedAt))
    && s.windows.Keys == Instances(inputs)
    && AllRanked(s.ranks, rankings, TRACKED, AddInputs(inputs), topN)
  }

  ghost predicate AllRanked(
    ranks: seq<ClassRank>, rankings: seq<seq<Ranked>>, tracked: seq<(Kind, Class)>, agg: Agg, topN: int)
  {
    && |ranks| == |rankings| == |tracked|
    && forall i :: 0 <= i < |ranks| ==> RankedFrom(ranks[i], rankings[i], tracked[i].0, tracked[i].1, agg, topN)
  }

  method BuildSnapshot(capturedAt: int, inputs: seq<Input>, missing: seq<string>, topN: int)
    returns (s: Snapshot, ghost rankings: seq<seq<Ranked>>)
    requires WellFormed(inputs) && forall i :: 0 <= i < |inputs| ==> Uniform(inputs[i].anchors)
    ensures SnapshotOf(s, rankings, capturedAt, inputs, missing, topN)
  {
    var windows := BuildWindows(capturedAt, inputs);
    var agg := Aggregate(inputs);
    forall k | k in agg ensures agg[k].key == k {
      ClusterDeltaIsSum(inputs, k, "");
    }
    var ranks;
    ranks, rankings := RankAll(agg, TRACKED, topN);
    s := Snapshot(capturedAt, windows, missing, ranks);
  }

  /** Top, tail histogram and coverage of one kind and class; all is the ranking they come from. */
  method RankClass(kind: Kind, cls: Class, agg: Agg, topN: int) returns (r: ClassRank, ghost all: seq<Ranked>)
    requires forall k :: k in agg ==> agg[k].key == k
    ensures RankedFrom(r, all, kind, cls, agg, topN)
  {
    var found := Collect(kind, cls, agg);
    var sorted := Sorting.Sort(found, Before);
    SortedLists(found, kind, cls, agg);
    all := sorted;
    var n := TopCount(sorted, topN);
    var top, sumTop, sumTail, maxTail, tailKeys := SplitRanking(sorted, n);
    var deciles := Hist.ComputeQuantiles(Hist.Reals(tailKeys), Hist.DECILE_PROBS);
    var upper := Hist.ComputeQuantiles(Hist.Reals(tailKeys), Hist.UPPER_PROBS);
    var coverage := 1.0;
    if sumTop + sumTail > 0 {
      coverage := sumTop as real / (sumTop + sumTail) as real;
    }
    r := ClassRank(top, Hist.Histogram(deciles, upper, |tailKeys|, sumTail, maxTail), coverage);
  }

  method RankAll(agg: Agg, tracked: seq<(Kind, Class)>, topN: int)
    returns (ranks: seq<ClassRank>, ghost rankings: seq<seq<Ranked>>)
    requires forall k :: k in agg ==> agg[k].key == k
    ensures AllRanked(ranks, rankings, tracked, agg, topN)
  {
    ranks, rankings := [], [];
    for t := 0 to |tracked|
      invariant AllRanked(ranks, rankings, tracked[..t], agg, topN)
    {
      var rank, all := RankClass(tracked[t].0, tracked[t].1, agg, topN);
      OneMoreRanked(ranks, rankings, tracked, agg, topN, t, rank, all);
      ranks, rankings := ranks + [rank], rankings + [all];
    }
    assert tracked[..|tracked|] == tracked;
  }

  lemma OneMoreRanked(
    ranks: seq<ClassRank>, rankings: seq<seq<Ranked>>, tracked: seq<(Kind, Class)>, agg: Agg, topN: int,
    t: nat, rank: ClassRank, all: seq<Ranked>)
    requires t < |tracked| && AllRanked(ranks, rankings, tracked[..t], agg, topN)
    requires RankedFrom(rank, all, tracked[t].0, tracked[t].1, agg, topN)
    ensures AllRanked(ranks + [rank], rankings + [all], tracked[..t + 1], agg, topN)
  {
    forall i | 0 <= i < t + 1
      ensures RankedFrom((ranks + [rank])[i], (rankings + [all])[i], tracked[..t + 1][i].0, tracked[..t + 1][i].1, agg, topN)
    {
      if i < t {
        assert tracked[..t][i] == tracked[..t + 1][i];
        assert RankedFrom(ranks[i], rankings[i], tracked[..t][i].0, tracked[..t][i].1, agg, topN);
      }
    }
  }

  method BuildWindows(capturedAt: int, inputs: seq<Input>) returns (windows: map<string, HostWindow>)
    requires WellFormed(inputs) && forall i :: 0 <= i < |inputs| ==> Uniform(inputs[i].anchors)
    ensures forall i :: 0 <= i < |inputs| ==>
      inputs[i].sample.instance in windows && IsWindow(windows[inputs[i].sample.instance], inputs[i], capturedAt)
    ensures windows.Keys == Instances(inputs)
  {
    windows := map[];
    for n := 0 to |inputs|
      invariant forall i :: 0 <= i < n ==>
        inputs[i].sample.instance in windows && IsWindow(windows[inputs[i].sample.instance], inputs[i], capturedAt)
      invariant windows.Keys == Instances(inputs[..n])
    {
      var complete := CheckEpoch(inputs[n]);
      var w := BuildWindow(inputs[n], complete, capturedAt);
      InstancesLast(inputs, n);
      windows := windows[inputs[n].sample.instance := w];
    }
    assert inputs[..|inputs|] == inputs;
  }

  lemma SortedLists(found: seq<Ranked>, kind: Kind, cls: Class, agg: Agg)
    requires Lists(found, kind, cls, agg)
    ensures Lists(Sorting.Sort(found, Before), kind, cls, agg) && Sorting.Sorted(Sorting.Sort(found, Before), Before)
  {
    BeforeOrder();
    Sorting.SortSorted(found, Before);
    Sorting.SortKeeps(found, Before);
  }

  // ----- what a ranking conserves

  lemma {:induction false} CutFacts(all: seq<Ranked>, n: int)
    requires n <= |all| && Sorting.Sorted(all, Before)
    ensures var c := Cut(all, n);
      && (forall i :: 0 <= i < c ==> all[i].key > 0)
      && (forall i :: c <= i < n ==> all[i].key <= 0)
  {
    if n > 0 {
      if all[n - 1].key <= 0 {
        CutFacts(all, n - 1);
      } else {
        forall i | 0 <= i < n ensures all[i].key > 0 {
          assert i < n - 1 ==> Before(all[i], all[n - 1]);
        }
      }
    }
  }

  lemma {:induction false} SumConcat(a: seq<int>, b: seq<int>)
    ensures Hist.Sum(a + b) == Hist.Sum(a) + Hist.Sum(b)
  {
    if b == [] {
      assert a + b == a;
    } else {
      assert (a + b)[..|a + b| - 1] == a + b[..|b| - 1];
      SumConcat(a, b[..|b| - 1]);
    }
  }

  lemma SumSplits(all: seq<Ranked>, n: nat)
    requires n <= |all|
    ensures Hist.Sum(Keys(all)) == Hist.Sum(Keys(all[..n])) + Hist.Sum(Keys(all[n..]))
  {
    SumConcat(Keys(all[..n]), Keys(all[n..]));
    assert Keys(all) == Keys(all[..n]) + Keys(all[n..]);
  }

  lemma {:induction false} SumSign(keys: seq<int>)
    requires forall i :: 0 <= i < |keys| ==> keys[i] >= 0
    ensures Hist.Sum(keys) >= 0
  {
    if keys != [] {
      SumSign(keys[..|keys| - 1]);
    }
  }

  /** Class keys are sums of non-negative counters. */
  lemma KeysNonNegative(inputs: seq<Input>, k: Key, cls: Class)
    requires WellFormed(inputs) && k in AddInputs(inputs)
    ensures RankKey(k.kind, cls, AddInputs(inputs)[k].delta) >= 0
  {
    forall c ensures Get(AddInputs(inputs)[k].delta, c) >= 0 {
      ClusterDeltaIsSum(inputs, k, c);
      SumNonNegative(inputs, k, c);
    }
  }

  /**
   * Top and tail of a ranking: the top has at most topN entries, all busy and none less
   * busy than a tail object, and a busy object is left out only when the top is full.
   */
  lemma TopAndTail(all: seq<Ranked>, topN: int)
    requires Sorting.Sorted(all, Before) && forall i :: 0 <= i < |all| ==> all[i].key >= 0
    ensures var n := Cut(all, Min(topN, |all|));
      && n <= Max(topN, 0) && (forall i :: 0 <= i < n ==> all[i].key > 0)
      && (forall i, j :: 0 <= i < n <= j < |all| ==> all[i].key >= all[j].key)
      && (n < topN ==> forall j :: n <= j < |all| ==> all[j].key == 0)
  {
    var m := Min(topN, |all|);
    var n := Cut(all, m);
    CutFacts(all, m);
    forall i, j | 0 <= i < n <= j < |all| ensures all[i].key >= all[j].key {
      assert Before(all[i], all[j]);
    }
    if n < topN {
      forall j | n <= j < |all| ensures all[j].key == 0 {
        IdleFrom(all, m, j);
      }
    }
  }

  /** Top and tail add up to the whole, and coverage is the top's share of it. */
  lemma TopTailSum(all: seq<Ranked>, n: nat)
    requires n <= |all| && forall i :: 0 <= i < |all| ==> all[i].key >= 0
    ensures Hist.Sum(Keys(all[..n])) + Hist.Sum(Keys(all[n..])) == Hist.Sum(Keys(all))
    ensures IsShare(Coverage(Hist.Sum(Keys(all[..n])), Hist.Sum(Keys(all[n..]))), Hist.Sum(Keys(all[..n])), Hist.Sum(Keys(all)))
  {
    var top, tail := Hist.Sum(Keys(all[..n])), Hist.Sum(Keys(all[n..]));
    SumSplits(all, n);
    SumSign(Keys(all[..n]));
    SumSign(Keys(all[n..]));
    ShareOf(top, tail);
    assert top + tail == Hist.Sum(Keys(all));
  }

  lemma IdleFrom(all: seq<Ranked>, m: int, j: nat)
    requires Sorting.Sorted(all, Before) && m <= |all| && Cut(all, m) <= j < |all|
    requires j < m || Cut(all, m) < m
    requires forall i :: 0 <= i < |all| ==> all[i].key >= 0
    ensures all[j].key == 0
  {
    CutFacts(all, m);
    if j >= m {
      assert all[m - 1].key <= 0 && Before(all[m - 1], all[j]);
    }
  }

  lemma ShareOf(top: int, tail: int)
    requires top >= 0 && tail >= 0
    ensures IsShare(Coverage(top, tail), top, top + tail)
  {
    if top + tail > 0 {
      var c, all := top as real / (top + tail) as real, (top + tail) as real;
      assert c * all == top as real;
    }
  }

  function Activity(e: TopEntry, cls: Class): int {
    RankKey(e.obj.key.kind, cls, e.obj.delta)
  }

  function TopSum(top: seq<TopEntry>, cls: Class): int {
    if top == [] then 0 else TopSum(top[..|top| - 1], cls) + Activity(top[|top| - 1], cls)
  }

  /** The top: at most topN entries, busy ones, none less busy than what was left out. */
  ghost predicate TopKept(r: ClassRank, all: seq<Ranked>, cls: Class, topN: int) {
    && |r.top| <= Max(topN, 0) && |r.top| + r.hist.count == |all|
    && (forall i :: 0 <= i < |r.top| ==> r.top[i].rank == i + 1 && Activity(r.top[i], cls) > 0)
    && (forall i, j :: 0 <= i < |r.top| <= j < |all| ==> Activity(r.top[i], cls) >= all[j].key)
    && (|r.top| < topN ==> forall j :: |r.top| <= j < |all| ==> all[j].key == 0)
  }

  /** The tail: its maximum is the activity of one of its objects and of none exceeded. */
  ghost predicate TailKept(r: ClassRank, all: seq<Ranked>) {
    && |r.top| <= |all| && (forall j :: |r.top| <= j < |all| ==> all[j].key <= r.hist.max)
    && (|r.top| < |all| ==> r.hist.max in Keys(all[|r.top|..]))
  }

  /** Top and tail activity add up to the whole, and the coverage is the top's share of it. */
  ghost predicate SumKept(r: ClassRank, all: seq<Ranked>, cls: Class) {
    && TopSum(r.top, cls) + r.hist.sum == Hist.Sum(Keys(all)) && r.hist.sum >= 0
    && IsShare(r.coverage, TopSum(r.top, cls), Hist.Sum(Keys(all)))
  }

  /** A stored rank loses and adds nothing. */
  ghost predicate Conserves(r: ClassRank, all: seq<Ranked>, cls: Class, topN: int) {
    TopKept(r, all, cls, topN) && TailKept(r, all) && SumKept(r, all, cls)
  }

  lemma {:induction false} TopSumIs(top: seq<TopEntry>, all: seq<Ranked>, cls: Class)
    requires |top| <= |all| && forall i :: 0 <= i < |top| ==> Activity(top[i], cls) == all[i].key
    ensures TopSum(top, cls) == Hist.Sum(Keys(all[..|top|]))
  {
    if top != [] {
      var n := |top| - 1;
      TopSumIs(top[..n], all, cls);
      assert Keys(all[..|top|])[..n] == Keys(all[..n]);
    }
  }

  lemma TailMax(all: seq<Ranked>, n: nat)
    requires n <= |all| && forall i :: 0 <= i < |all| ==> all[i].key >= 0
    ensures forall j :: n <= j < |all| ==> all[j].key <= Hist.Max(Keys(all[n..]))
    ensures n < |all| ==> Hist.Max(Keys(all[n..])) in Keys(all[n..])
  {
    var tail := Keys(all[n..]);
    Hist.MaxIsLargest(tail);
    forall j | n <= j < |all|
      ensures all[j].key <= Hist.Max(tail)
    {
      assert tail[j - n] == all[j].key;
    }
  }

  lemma TopActivity(r: ClassRank, all: seq<Ranked>, kind: Kind, cls: Class, agg: Agg, topN: int)
    requires RankedFrom(r, all, kind, cls, agg, topN)
    ensures |r.top| == Cut(all, Min(topN, |all|)) <= |all|
    ensures forall i :: 0 <= i < |r.top| ==> r.top[i].rank == i + 1 && Activity(r.top[i], cls) == all[i].key
  {
    forall i | 0 <= i < |r.top|
      ensures r.top[i].rank == i + 1 && Activity(r.top[i], cls) == all[i].key
    {
      assert all[i] in multiset(all);
    }
  }

  lemma TopIsKept(r: ClassRank, all: seq<Ranked>, kind: Kind, cls: Class, agg: Agg, topN: int)
    requires RankedFrom(r, all, kind, cls, agg, topN) && forall i :: 0 <= i < |all| ==> all[i].key >= 0
    ensures TopKept(r, all, cls, topN)
  {
    TopActivity(r, all, kind, cls, agg, topN);
    TopAndTail(all, topN);
  }

  lemma SumIsKept(r: ClassRank, all: seq<Ranked>, kind: Kind, cls: Class, agg: Agg, topN: int)
    requires RankedFrom(r, all, kind, cls, agg, topN) && forall i :: 0 <= i < |all| ==> all[i].key >= 0
    ensures SumKept(r, all, cls)
  {
    var n := Cut(all, Min(topN, |all|));
    TopActivity(r, all, kind, cls, agg, topN);
    TopSumIs(r.top, all, cls);
    TopTailSum(all, n);
    SumSign(Keys(all[n..]));
    assert r.hist.sum == Hist.Sum(Keys(all[n..]));
  }

  /**
   * Ranking conserves activity, for every tracked kind and class of every snapshot: the
   * objects ranked are the measured ones, each with the sum over its hosts and never
   * negative, and what is stored of them conserves that.
   */
  lemma SnapshotConserves(
    s: Snapshot, rankings: seq<seq<Ranked>>, capturedAt: int, inputs: seq<Input>, missing: seq<string>, topN: int, t: nat)
    requires SnapshotOf(s, rankings, capturedAt, inputs, missing, topN) && WellFormed(inputs) && t < |TRACKED|
    ensures |s.ranks| == |rankings| == |TRACKED|
    ensures Lists(rankings[t], TRACKED[t].0, TRACKED[t].1, AddInputs(inputs))
    ensures forall k, c :: k in AddInputs(inputs) ==> Get(AddInputs(inputs)[k].delta, c) == SumOverHosts(inputs, k, c) >= 0
    ensures Conserves(s.ranks[t], rankings[t], TRACKED[t].1, topN)
  {
    var kind, cls, agg, all := TRACKED[t].0, TRACKED[t].1, AddInputs(inputs), rankings[t];
    forall k, c | k in agg
      ensures Get(agg[k].delta, c) == SumOverHosts(inputs, k, c) >= 0
    {
      ClusterDeltaIsSum(inputs, k, c);
      SumNonNegative(inputs, k, c);
    }
    assert RankedFrom(s.ranks[t], all, kind, cls, agg, topN);
    forall i | 0 <= i < |all|
      ensures all[i].key >= 0
    {
      assert all[i] in multiset(all);
      KeysNonNegative(inputs, all[i].obj.key, cls);
    }
    TopIsKept(s.ranks[t], all, kind, cls, agg, topN);
    TailMax(all, |s.ranks[t].top|);
    SumIsKept(s.ranks[t], all, kind, cls, agg, topN);
  }
}
