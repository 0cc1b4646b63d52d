/** The stored rankings in terms of the counters of the sampled rows. */
module HotActivity {
  import opened Common
  import opened HotModel
  import opened HotRanking
  import Hist = HotHistogram
  import Sorting
  import Text

  /** The counters of these names, over all hosts the object was measurable on. */
  function Total(inputs: seq<Input>, k: Key, names: seq<string>): int {
    if names == [] then 0
    else Total(inputs, k, names[..|names| - 1]) + SumOverHosts(inputs, k, names[|names| - 1])
  }

  function Totals(inputs: seq<Input>, keys: seq<Key>, names: seq<string>): (r: seq<int>)
    ensures |r| == |keys| && forall i :: 0 <= i < |keys| ==> r[i] == Total(inputs, keys[i], names)
  {
    seq(|keys|, i requires 0 <= i < |keys| => Total(inputs, keys[i], names))
  }

  ghost predicate OnSomeHost(inputs: seq<Input>, k: Key) {
    exists i :: 0 <= i < |inputs| && HostPart(inputs[i], k).Some?
  }

  /** What each of the five rankings ranks, and the counters it goes by. */
  predicate Counts(t: nat, kind: Kind, names: seq<string>) {
    match t
    case 0 => kind == Table && names == ["seq_tup_read", "idx_tup_fetch"]
    case 1 => kind == Table && names == ["n_tup_ins", "n_tup_upd", "n_tup_del"]
    case 2 => kind == Table && names == ["heap_blks_read", "idx_blks_read", "toast_blks_read"]
    case 3 => kind == Index && names == ["idx_tup_read"]
    case 4 => kind == Index && names == ["idx_blks_read"]
    case _ => false
  }

  /** a counted more than b, or as much and its name does not come later. */
  ghost predicate NotBehind(inputs: seq<Input>, names: seq<string>, a: Key, b: Key) {
    || Total(inputs, a, names) > Total(inputs, b, names)
    || (Total(inputs, a, names) == Total(inputs, b, names) && !Text.Precedes(b.schema + b.name, a.schema + a.name))
  }

  /** keys are the objects of the kind that were measurable on some host, each once, busiest first. */
  ghost predicate Ranking(keys: seq<Key>, inputs: seq<Input>, kind: Kind, names: seq<string>) {
    && NoRepeats(keys) && (forall k :: k in keys <==> k.kind == kind && OnSomeHost(inputs, k))
    && forall i, j :: 0 <= i < j < |keys| ==> NotBehind(inputs, names, keys[i], keys[j])
  }

  /** The first n of keys are stored one by one, the others by the distribution of their activity. */
  ghost predicate Stored(r: ClassRank, keys: seq<Key>, n: nat, inputs: seq<Input>, names: seq<string>)
    requires n <= |keys|
  {
    && |r.top| == n && (forall i :: 0 <= i < n ==> r.top[i].rank == i + 1 && r.top[i].obj.key == keys[i])
    && r.hist == Hist.Of(Totals(inputs, keys[n..], names))
    && IsShare(r.coverage, Hist.Sum(Totals(inputs, keys[..n], names)), Hist.Sum(Totals(inputs, keys, names)))
  }

  /** The first n are the busy ones among the first topN. */
  ghost predicate BusyFirst(keys: seq<Key>, n: nat, topN: int, inputs: seq<Input>, names: seq<string>) {
    && n <= |keys| && n <= Max(topN, 0)
    && (forall i :: 0 <= i < n ==> Total(inputs, keys[i], names) > 0)
    && (n < topN ==> forall i :: n <= i < |keys| ==> Total(inputs, keys[i], names) == 0)
  }

  lemma {:induction false} MeasuredSomewhere(inputs: seq<Input>, k: Key)
    ensures PerHostOf(inputs, k) != map[] <==> OnSomeHost(inputs, k)
  {
    if inputs != [] {
      var front, last := inputs[..|inputs| - 1], inputs[|inputs| - 1];
      MeasuredSomewhere(front, k);
      if i :| 0 <= i < |front| && HostPart(front[i], k).Some? {
        assert HostPart(inputs[i], k).Some?;
      }
      if i :| 0 <= i < |inputs| && HostPart(inputs[i], k).Some? && i < |front| {
        assert HostPart(front[i], k).Some?;
      }
      if HostPart(last, k).Some? {
        assert last.sample.instance in PerHostOf(inputs, k);
      }
    }
  }

  lemma TotalOf(inputs: seq<Input>, k: Key, names: seq<string>, delta: Counters)
    requires forall c :: Get(delta, c) == SumOverHosts(inputs, k, c)
    ensures |names| == 1 ==> Total(inputs, k, names) == Get(delta, names[0])
    ensures |names| == 2 ==> Total(inputs, k, names) == Get(delta, names[0]) + Get(delta, names[1])
    ensures |names| == 3 ==> Total(inputs, k, names) == Get(delta, names[0]) + Get(delta, names[1]) + Get(delta, names[2])
  {
    if 1 <= |names| <= 3 {
      var a := names[..|names| - 1];
      assert |names| == 1 ==> a == [];
      if |names| >= 2 {
        var b := a[..|a| - 1];
        assert |names| == 2 ==> b == [];
        assert |names| == 3 ==> b[..0] == [] && b[0] == names[0];
      }
    }
  }

  /** The class key of a ranking is the sum of its counters. */
  lemma KeyIsTotal(inputs: seq<Input>, k: Key, t: nat, names: seq<string>)
    requires WellFormed(inputs) && k in AddInputs(inputs) && t < |TRACKED| && Counts(t, TRACKED[t].0, names) && k.kind == TRACKED[t].0
    ensures RankKey(k.kind, TRACKED[t].1, AddInputs(inputs)[k].delta) == Total(inputs, k, names)
  {
    var delta := AddInputs(inputs)[k].delta;
    forall c
      ensures Get(delta, c) == SumOverHosts(inputs, k, c)
    {
      ClusterDeltaIsSum(inputs, k, c);
    }
    TotalOf(inputs, k, names, delta);
  }

  function ObjectKeys(all: seq<Ranked>): (r: seq<Key>)
    ensures |r| == |all| && forall i :: 0 <= i < |all| ==> r[i] == all[i].obj.key
  {
    seq(|all|, i requires 0 <= i < |all| => all[i].obj.key)
  }

  lemma OnceEach(all: seq<Ranked>)
    requires forall r :: r in multiset(all) ==> multiset(all)[r] == 1
    ensures NoRepeats(all)
  {
    forall i, j | 0 <= i < j < |all|
      ensures all[i] != all[j]
    {
      assert all == all[..j] + all[j..];
      assert all[i] in all[..j] && all[j] in all[j..];
      assert multiset(all) == multiset(all[..j]) + multiset(all[j..]);
      assert all[i] in multiset(all);
    }
  }

  lemma ListedKeys(all: seq<Ranked>, inputs: seq<Input>, t: nat)
    requires WellFormed(inputs) && t < |TRACKED| && Lists(all, TRACKED[t].0, TRACKED[t].1, AddInputs(inputs))
    ensures NoRepeats(ObjectKeys(all))
    ensures forall k :: k in ObjectKeys(all) <==> k.kind == TRACKED[t].0 && OnSomeHost(inputs, k)
  {
    var kind, cls, agg, keys := TRACKED[t].0, TRACKED[t].1, AddInputs(inputs), ObjectKeys(all);
    OnceEach(all);
    assert forall i :: 0 <= i < |all| ==> all[i] in multiset(all);
    forall k
      ensures k in keys <==> k.kind == kind && OnSomeHost(inputs, k)
    {
      ClusterDeltaIsSum(inputs, k, "");
      MeasuredSomewhere(inputs, k);
      if k in agg && Ranks(agg[k], kind) {
        assert RankedOf(agg[k], cls) in multiset(all);
        var i :| 0 <= i < |all| && all[i] == RankedOf(agg[k], cls);
        assert keys[i] == k;
      }
    }
  }

  lemma KeysAreTotals(all: seq<Ranked>, inputs: seq<Input>, t: nat, names: seq<string>)
    requires WellFormed(inputs) && t < |TRACKED| && Counts(t, TRACKED[t].0, names)
    requires Lists(all, TRACKED[t].0, TRACKED[t].1, AddInputs(inputs))
    ensures forall i :: 0 <= i < |all| ==> all[i].key == Total(inputs, all[i].obj.key, names) >= 0
  {
    forall i | 0 <= i < |all|
      ensures all[i].key == Total(inputs, all[i].obj.key, names) >= 0
    {
      assert all[i] in multiset(all);
      var k := all[i].obj.key;
      ClusterDeltaIsSum(inputs, k, "");
      KeyIsTotal(inputs, k, t, names);
      KeysNonNegative(inputs, k, TRACKED[t].1);
    }
  }

  lemma NotBehindWhenBefore(inputs: seq<Input>, names: seq<string>, a: Ranked, b: Ranked)
    requires a.key == Total(inputs, a.obj.key, names) && b.key == Total(inputs, b.obj.key, names) && Before(a, b)
    ensures NotBehind(inputs, names, a.obj.key, b.obj.key)
  {
    var x, y := a.obj.key.schema + a.obj.key.name, b.obj.key.schema + b.obj.key.name;
    if Text.LexLe(x, y) {
      Text.LexIsFirstDifference(y, x);
      Text.LexTotal(x, y);
    }
  }

  lemma StoredAsRanked(r: ClassRank, all: seq<Ranked>, n: nat, inputs: seq<Input>, names: seq<string>)
    requires n <= |all| && CutAt(r, all, n)
    requires forall i :: 0 <= i < |all| ==> all[i].key == Total(inputs, all[i].obj.key, names) >= 0
    ensures Stored(r, ObjectKeys(all), n, inputs, names)
  {
    var keys := ObjectKeys(all);
    assert Totals(inputs, keys[..n], names) == Keys(all[..n]);
    assert Totals(inputs, keys[n..], names) == Keys(all[n..]);
    assert Totals(inputs, keys, names) == Keys(all);
    TopTailSum(all, n);
  }

  /**
   * Every ranking of a built snapshot goes by the counters named for it: the objects
   * measurable on some host are listed busiest first, equals by name; the busy ones among
   * the first topN are stored, the rest by the distribution of their activity.
   */
  lemma RankedByCounters(
    s: Snapshot, rankings: seq<seq<Ranked>>, capturedAt: int, inputs: seq<Input>, missing: seq<string>, topN: int,
    t: nat, kind: Kind, names: seq<string>) returns (keys: seq<Key>)
    requires SnapshotOf(s, rankings, capturedAt, inputs, missing, topN) && WellFormed(inputs) && Counts(t, kind, names)
    ensures |s.ranks| == 5 && Ranking(keys, inputs, kind, names)
    ensures BusyFirst(keys, |s.ranks[t].top|, topN, inputs, names)
    ensures Stored(s.ranks[t], keys, |s.ranks[t].top|, inputs, names)
  {
    var agg, all, r := AddInputs(inputs), rankings[t], s.ranks[t];
    assert RankedFrom(r, all, TRACKED[t].0, TRACKED[t].1, agg, topN);
    keys := ObjectKeys(all);
    ListedKeys(all, inputs, t);
    KeysAreTotals(all, inputs, t, names);
    forall i, j | 0 <= i < j < |keys|
      ensures NotBehind(inputs, names, keys[i], keys[j])
    {
      NotBehindWhenBefore(inputs, names, all[i], all[j]);
    }
    TopAndTail(all, topN);
    StoredAsRanked(r, all, |r.top|, inputs, names);
  }

  // ----- sizes

  /** All rows sampled, host by host. */
  function AllRows(inputs: seq<Input>): seq<Row> {
    if inputs == [] then [] else AllRows(inputs[..|inputs| - 1]) + inputs[|inputs| - 1].sample.rows
  }

  /** No row of the object is larger, and unless it is nothing one is as large. */
  predicate LargestOf(size: int, rows: seq<Row>, k: Key) {
    && size >= 0 && (forall r :: r in rows && r.key == k ==> r.sizeBytes <= size)
    && (size == 0 || exists r :: r in rows && r.key == k && r.sizeBytes == size)
  }

  predicate Sized(agg: Agg, rows: seq<Row>, k: Key) {
    if k in agg then LargestOf(agg[k].sizeBytes, rows, k) else forall r :: r in rows ==> r.key != k
  }

  lemma SizedOneMore(agg: Agg, i: Input, seen: seq<Row>, row: Row, k: Key)
    requires Sized(agg, seen, k)
    ensures Sized(AddRow(agg, i, row), seen + [row], k)
  {
    var after := AddRow(agg, i, row);
    if row.key == k {
      assert k in after && after[k].sizeBytes == Max(if k in agg then agg[k].sizeBytes else 0, row.sizeBytes);
    } else {
      assert (k in after <==> k in agg) && (k in agg ==> after[k] == agg[k]);
      SameLargest(if k in agg then agg[k].sizeBytes else 0, seen, row, k);
    }
  }

  lemma SameLargest(size: int, seen: seq<Row>, row: Row, k: Key)
    requires row.key != k
    ensures LargestOf(size, seen + [row], k) <==> LargestOf(size, seen, k)
  {
    if size > 0 && LargestOf(size, seen, k) {
      var r :| r in seen && r.key == k && r.sizeBytes == size;
      assert r in seen + [row];
    }
  }

  lemma {:induction false} SizedRows(agg: Agg, i: Input, seen: seq<Row>, rows: seq<Row>, k: Key)
    requires Sized(agg, seen, k)
    ensures Sized(AddRows(agg, i, rows), seen + rows, k)
  {
    if rows == [] {
      assert seen + rows == seen;
    } else {
      var front, last := rows[..|rows| - 1], rows[|rows| - 1];
      SizedRows(agg, i, seen, front, k);
      SizedOneMore(AddRows(agg, i, front), i, seen + front, last, k);
      assert seen + rows == (seen + front) + [last];
    }
  }

  /** The size kept of an object is the largest any host reports. */
  lemma {:induction false} SizeIsLargest(inputs: seq<Input>, k: Key)
    ensures Sized(AddInputs(inputs), AllRows(inputs), k)
  {
    if inputs != [] {
      var front, last := inputs[..|inputs| - 1], inputs[|inputs| - 1];
      SizeIsLargest(front, k);
      SizedRows(AddInputs(front), last, AllRows(front), last.sample.rows, k);
    }
  }
}
