/** Objects, counters, anchors and the delta of two samples. */
module HotModel {
  import opened Common

  datatype Kind = Table | Index

  datatype Class = Reads | Writes | IO

  datatype Key = Key(kind: Kind, schema: string, name: string)

  /** Counters by column name; a missing one counts as zero. */
  type Counters = map<string, int>

  /** What one host has counted for one object so far. */
  datatype Row = Row(
    key: Key, tableName: string, capturedAt: int, statsReset: Option<int>, sizeBytes: int, partSig: string,
    counters: Counters, quietSince: Option<int>)

  datatype HostWindow = HostWindow(
    from: int, to: int, complete: bool, statsReset: Option<int>, observedSince: Option<int>)

  datatype Sample = Sample(instance: string, capturedAt: int, statsReset: Option<int>, inRecovery: bool, rows: seq<Row>)

  /** A fresh sample with the host's stored anchors and its window from the latest snapshot that has one. */
  datatype Input = Input(sample: Sample, anchors: map<Key, Row>, prevWindow: Option<HostWindow>)

  function Get(c: Counters, name: string): int {
    if name in c then c[name] else 0
  }

  const WRITE_COUNTERS := ["n_tup_ins", "n_tup_upd", "n_tup_del"]

  function RankKey(kind: Kind, cls: Class, c: Counters): int {
    match (kind, cls)
    case (Table, Reads) => Get(c, "seq_tup_read") + Get(c, "idx_tup_fetch")
    case (Table, Writes) => Get(c, "n_tup_ins") + Get(c, "n_tup_upd") + Get(c, "n_tup_del")
    case (Table, IO) => Get(c, "heap_blks_read") + Get(c, "idx_blks_read") + Get(c, "toast_blks_read")
    case (Index, Reads) => Get(c, "idx_tup_read")
    case (Index, IO) => Get(c, "idx_blks_read")
    case (Index, Writes) => 0
  }

  // ----- deltas

  predicate NoRegression(prev: Counters, cur: Counters) {
    forall k :: k in cur ==> cur[k] >= Get(prev, k)
  }

  /** cur - prev, unless some counter went backwards. */
  function Delta(prev: Counters, cur: Counters): (d: Option<Counters>)
    ensures d.Some? <==> NoRegression(prev, cur)
    ensures d.Some? ==> d.value.Keys == cur.Keys && forall k :: k in cur ==> d.value[k] == cur[k] - Get(prev, k) >= 0
  {
    if NoRegression(prev, cur) then Some(map k | k in cur :: cur[k] - Get(prev, k)) else None
  }

  method ComputeDelta(prev: Counters, cur: Counters) returns (d: Option<Counters>)
    ensures d == Delta(prev, cur)
  {
    var out: Counters, left := map[], cur.Keys;
    while left != {}
      invariant left <= cur.Keys && out.Keys == cur.Keys - left
      invariant forall k :: k in out ==> out[k] == cur[k] - Get(prev, k) >= 0
      decreases left
    {
      var k :| k in left;
      if cur[k] < Get(prev, k) {
        return None;
      }
      out := out[k := cur[k] - Get(prev, k)];
      left := left - {k};
    }
    assert out == Delta(prev, cur).value;
    return Some(out);
  }

  // ----- when an interval is measurable

  /** Anchors of one host are replaced together, so they carry one reset time and one capture time. */
  ghost predicate Uniform(anchors: map<Key, Row>) {
    forall j, k :: j in anchors && k in anchors ==>
      anchors[j].capturedAt == anchors[k].capturedAt && anchors[j].statsReset == anchors[k].statsReset
  }

  predicate EpochIntact(i: Input) {
    i.anchors != map[] && forall k :: k in i.anchors ==> i.anchors[k].statsReset == i.sample.statsReset
  }

  /** Any anchor speaks for all of them. */
  method CheckEpoch(i: Input) returns (intact: bool)
    requires Uniform(i.anchors)
    ensures intact == EpochIntact(i)
  {
    if i.anchors == map[] {
      return false;
    }
    assert i.anchors.Keys != {};
    var k :| k in i.anchors.Keys;
    return i.anchors[k].statsReset == i.sample.statsReset;
  }

  /** The delta of one row against its anchor, when the interval is measurable. */
  function Measured(i: Input, row: Row): Option<Counters> {
    if EpochIntact(i) && row.key in i.anchors && i.anchors[row.key].partSig == row.partSig
    then Delta(i.anchors[row.key].counters, row.counters)
    else None
  }

  // ----- the host's window

  /** Start of the host's unbroken observation as a primary. */
  function ObservedSince(i: Input, capturedAt: int): Option<int> {
    if i.sample.inRecovery then None
    else if EpochIntact(i) && i.prevWindow.Some? && i.prevWindow.value.observedSince.Some?
    then i.prevWindow.value.observedSince
    else Some(capturedAt)
  }

  /** The interval a snapshot covers on this host. */
  predicate IsWindow(w: HostWindow, i: Input, capturedAt: int) {
    && (i.anchors == map[] ==> w.from == capturedAt)
    && (forall k :: k in i.anchors ==> w.from == i.anchors[k].capturedAt)
    && w.to == i.sample.capturedAt && w.complete == EpochIntact(i) && w.statsReset == i.sample.statsReset
    && w.observedSince == ObservedSince(i, capturedAt)
  }

  method BuildWindow(i: Input, complete: bool, capturedAt: int) returns (w: HostWindow)
    requires Uniform(i.anchors) && complete == EpochIntact(i)
    ensures IsWindow(w, i, capturedAt)
  {
    var from := capturedAt;
    if i.anchors != map[] {
      assert i.anchors.Keys != {};
      var k :| k in i.anchors.Keys;
      from := i.anchors[k].capturedAt;
    }
    var observed: Option<int>;
    if i.sample.inRecovery {
      observed := None;
    } else if complete && i.prevWindow.Some? && i.prevWindow.value.observedSince.Some? {
      observed := i.prevWindow.value.observedSince;
    } else {
      observed := Some(capturedAt);
    }
    w := HostWindow(from, i.sample.capturedAt, complete, i.sample.statsReset, observed);
  }
}
