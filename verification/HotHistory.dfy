/**
 * What the stored marks of one host mean over all its committed captures: when a table
 * was last written, since when the host is watched, and what the deltas add up to.
 */
module HotHistory {
  import opened Common
  import opened HotModel
  import R = HotRanking

  /** One committed capture of one host; prevSeen says the host's previous window could be read. */
  datatype Capture = Capture(
    at: int, statsReset: Option<int>, inRecovery: bool, rows: map<Key, Row>, prevSeen: bool)

  type Log = seq<Capture>

  // ----- quiet tables

  /** No write counter moved. */
  predicate WritesUnchanged(prev: Counters, cur: Counters) {
    forall i :: 0 <= i < |WRITE_COUNTERS| ==>
      WRITE_COUNTERS[i] in cur ==> cur[WRITE_COUNTERS[i]] == Get(prev, WRITE_COUNTERS[i])
  }

  /** Between two captures on a primary the table was provably not written. */
  predicate QuietBetween(a: Capture, b: Capture, k: Key) {
    && !a.inRecovery && !b.inRecovery
    && k in a.rows && k in b.rows && a.statsReset == b.statsReset && a.rows[k].partSig == b.rows[k].partSig
    && NoRegression(a.rows[k].counters, b.rows[k].counters)
    && WritesUnchanged(a.rows[k].counters, b.rows[k].counters)
  }

  /** First capture of the unbroken quiet stretch that ends at capture n. */
  function QuietStart(log: Log, n: nat, k: Key): (i: nat)
    requires n < |log|
    ensures i <= n
  {
    if n > 0 && QuietBetween(log[n - 1], log[n], k) then QuietStart(log, n - 1, k) else n
  }

  /** The stretch is quiet throughout, on a primary throughout, and cannot be extended to the left. */
  lemma {:induction false} QuietStartIsMaximal(log: Log, n: nat, k: Key)
    requires n < |log|
    ensures var i := QuietStart(log, n, k);
      && (forall j :: i < j <= n ==> QuietBetween(log[j - 1], log[j], k))
      && (i > 0 ==> !QuietBetween(log[i - 1], log[i], k))
      && (!log[n].inRecovery ==> forall j :: i <= j <= n ==> !log[j].inRecovery)
  {
    if n > 0 && QuietBetween(log[n - 1], log[n], k) {
      QuietStartIsMaximal(log, n - 1, k);
    }
  }

  /** What a stored QuietSince has to be after capture n. */
  function QuietMark(log: Log, n: nat, k: Key): Option<int>
    requires n < |log|
  {
    if k.kind.Table? && !log[n].inRecovery then Some(log[QuietStart(log, n, k)].at) else None
  }

  /** QuietSince as the code carries or resets it. */
  function QuietSince(i: Input, row: Row, capturedAt: int): Option<int> {
    if row.key !in i.anchors || i.anchors[row.key].quietSince.None? || !EpochIntact(i)
       || i.anchors[row.key].partSig != row.partSig then Some(capturedAt)
    else
      var d := Delta(i.anchors[row.key].counters, row.counters);
      if d.None? || RankKey(Table, Writes, d.value) != 0 then Some(capturedAt)
      else i.anchors[row.key].quietSince
  }

  function Advanced(i: Input, row: Row, capturedAt: int): Row {
    row.(quietSince :=
           if row.key.kind.Table? && !i.sample.inRecovery then QuietSince(i, row, capturedAt) else None)
  }

  method AdvanceQuiet(i: Input, capturedAt: int) returns (rows: seq<Row>)
    requires Uniform(i.anchors)
    ensures |rows| == |i.sample.rows|
    ensures forall j :: 0 <= j < |rows| ==> rows[j] == Advanced(i, i.sample.rows[j], capturedAt)
  {
    rows := [];
    var intact := CheckEpoch(i);
    for j := 0 to |i.sample.rows|
      invariant |rows| == j
      invariant forall m :: 0 <= m < j ==> rows[m] == Advanced(i, i.sample.rows[m], capturedAt)
    {
      var row := i.sample.rows[j].(quietSince := None);
      if row.key.kind.Table? && !i.sample.inRecovery {
        var since := Carry(i, intact, row, capturedAt);
        row := row.(quietSince := since);
      }
      rows := rows + [row];
    }
  }

  method Carry(i: Input, intact: bool, row: Row, capturedAt: int) returns (since: Option<int>)
    requires intact == EpochIntact(i)
    ensures since == QuietSince(i, row, capturedAt)
  {
    if row.key !in i.anchors {
      return Some(capturedAt);
    }
    var anchor := i.anchors[row.key];
    if anchor.quietSince.None? || !intact || anchor.partSig != row.partSig {
      return Some(capturedAt);
    }
    var d := ComputeDelta(anchor.counters, row.counters);
    if d.None? || RankKey(Table, Writes, d.value) != 0 {
      return Some(capturedAt);
    }
    return anchor.quietSince;
  }

  // ----- anchors are the last committed capture

  /** The stored anchors of a host are its last capture, with the marks its history calls for. */
  ghost predicate Represents(anchors: map<Key, Row>, log: Log) {
    if log == [] then anchors == map[]
    else
      var last := log[|log| - 1];
      && anchors.Keys == last.rows.Keys
      && forall k :: k in anchors ==>
          && last.rows[k].key == k
          && anchors[k] == last.rows[k].(capturedAt := last.at, statsReset := last.statsReset,
                                         quietSince := QuietMark(log, |log| - 1, k))
  }

  function RowMap(rows: seq<Row>): map<Key, Row> {
    if rows == [] then map[] else RowMap(rows[..|rows| - 1])[rows[|rows| - 1].key := rows[|rows| - 1]]
  }

  /** The capture a sample is once it is committed. */
  function CaptureOf(i: Input, capturedAt: int): Capture {
    Capture(capturedAt, i.sample.statsReset, i.sample.inRecovery, RowMap(i.sample.rows), i.prevWindow.Some?)
  }

  lemma {:induction false} RowMapAt(rows: seq<Row>, k: Key)
    ensures k in RowMap(rows) <==> R.RowOf(rows, k).Some?
    ensures k in RowMap(rows) ==> RowMap(rows)[k] == R.RowOf(rows, k).value && RowMap(rows)[k].key == k
  {
    if rows != [] {
      RowMapAt(rows[..|rows| - 1], k);
    }
  }

  /** Summed write deltas are zero exactly when no write counter moved. */
  lemma NoWritesMeansUnchanged(prev: Counters, cur: Counters)
    requires NoRegression(prev, cur)
    ensures RankKey(Table, Writes, Delta(prev, cur).value) == 0 <==> WritesUnchanged(prev, cur)
  {
    var d := Delta(prev, cur).value;
    assert WRITE_COUNTERS[0] == "n_tup_ins" && WRITE_COUNTERS[1] == "n_tup_upd" && WRITE_COUNTERS[2] == "n_tup_del";
    assert Get(d, "n_tup_ins") >= 0 && Get(d, "n_tup_upd") >= 0 && Get(d, "n_tup_del") >= 0;
  }

  lemma EpochOfLast(i: Input, log: Log, k: Key)
    requires log != [] && Represents(i.anchors, log) && k in i.anchors
    ensures EpochIntact(i) <==> log[|log| - 1].statsReset == i.sample.statsReset
  {
  }

  /** One committed capture carries every mark forward to what the longer history calls for. */
  lemma QuietMarkStep(log: Log, i: Input, k: Key, capturedAt: int)
    requires Represents(i.anchors, log) && k in RowMap(i.sample.rows)
    ensures var log' := log + [CaptureOf(i, capturedAt)];
      Advanced(i, RowMap(i.sample.rows)[k], capturedAt).quietSince == QuietMark(log', |log|, k)
  {
    var c := CaptureOf(i, capturedAt);
    var log' := log + [c];
    var row := RowMap(i.sample.rows)[k];
    RowMapAt(i.sample.rows, k);
    if k.kind.Table? && !i.sample.inRecovery && log != [] && k in i.anchors {
      var n := |log|;
      var last := log[n - 1];
      EpochOfLast(i, log, k);
      if NoRegression(last.rows[k].counters, row.counters) {
        NoWritesMeansUnchanged(last.rows[k].counters, row.counters);
      }
      assert log'[n - 1] == last && log'[n] == c;
      StartOfPrefix(log, c, n - 1, k);
    }
  }

  lemma {:induction false} StartOfPrefix(log: Log, c: Capture, n: nat, k: Key)
    requires n < |log|
    ensures QuietStart(log + [c], n, k) == QuietStart(log, n, k)
  {
    if n > 0 && QuietBetween(log[n - 1], log[n], k) {
      StartOfPrefix(log, c, n - 1, k);
    }
  }

  // ----- observed hosts

  /** The window of capture b continues the one of a. */
  predicate Watched(a: Capture, b: Capture) {
    !a.inRecovery && !b.inRecovery && a.rows != map[] && a.statsReset == b.statsReset && b.prevSeen
  }

  function WatchStart(log: Log, n: nat): (i: nat)
    requires n < |log|
    ensures i <= n
  {
    if n > 0 && Watched(log[n - 1], log[n]) then WatchStart(log, n - 1) else n
  }

  /** What a stored ObservedSince has to be after capture n. */
  function WatchMark(log: Log, n: nat): Option<int>
    requires n < |log|
  {
    if log[n].inRecovery then None else Some(log[WatchStart(log, n)].at)
  }

  lemma {:induction false} WatchOfPrefix(log: Log, c: Capture, n: nat)
    requires n < |log|
    ensures WatchStart(log + [c], n) == WatchStart(log, n)
  {
    if n > 0 && Watched(log[n - 1], log[n]) {
      WatchOfPrefix(log, c, n - 1);
    }
  }

  lemma WatchMarkStep(log: Log, i: Input, capturedAt: int)
    requires Represents(i.anchors, log)
    requires i.prevWindow.Some? ==> log != [] && i.prevWindow.value.observedSince == WatchMark(log, |log| - 1)
    ensures ObservedSince(i, capturedAt) == WatchMark(log + [CaptureOf(i, capturedAt)], |log|)
  {
    var log' := log + [CaptureOf(i, capturedAt)];
    if log != [] {
      var n := |log|;
      assert log'[n - 1] == log[n - 1];
      WatchOfPrefix(log, CaptureOf(i, capturedAt), n - 1);
      if k :| k in i.anchors {
        EpochOfLast(i, log, k);
      } else {
        assert i.anchors == map[];
      }
    }
  }

  predicate Increasing(log: Log) {
    forall i, j :: 0 <= i < j < |log| ==> log[i].at < log[j].at
  }

  /**
   * A host is observed at least as long as any of its tables is quiet exactly when its
   * previous window could be read at every capture of that quiet stretch.
   */
  lemma ObservedCoversQuiet(log: Log, n: nat, k: Key)
    requires n < |log| && Increasing(log) && k.kind.Table? && k in log[n].rows && !log[n].inRecovery
    ensures WatchMark(log, n).value <= QuietMark(log, n, k).value <==>
      forall j :: QuietStart(log, n, k) < j <= n ==> log[j].prevSeen
  {
    var w, q := WatchStart(log, n), QuietStart(log, n, k);
    TimesOrdered(log, w, q);
    if forall j :: q < j <= n ==> log[j].prevSeen {
      WatchAgainstQuiet(log, n, k);
    }
    if w <= q {
      WatchStartChain(log, n);
      forall j | q < j <= n ensures log[j].prevSeen {
        assert Watched(log[j - 1], log[j]);
      }
    }
  }

  /** A previous window that was not returned: the unchanged table is quiet since 1, the host observed only since 2. */
  lemma WindowNotReturned(k: Key, row: Row, log: Log)
    requires k.kind.Table?
    requires log == [Capture(1, Some(0), false, map[k := row], false), Capture(2, Some(0), false, map[k := row], false)]
    ensures Increasing(log) && QuietMark(log, 1, k) == Some(1) && WatchMark(log, 1) == Some(2)
  {
    assert QuietBetween(log[0], log[1], k);
    assert QuietStart(log, 0, k) == 0;
  }

  lemma TimesOrdered(log: Log, i: nat, j: nat)
    requires Increasing(log) && i < |log| && j < |log|
    ensures log[i].at <= log[j].at <==> i <= j
  {
  }

  lemma {:induction false} WatchStartChain(log: Log, n: nat)
    requires n < |log|
    ensures forall j :: WatchStart(log, n) < j <= n ==> Watched(log[j - 1], log[j])
  {
    if n > 0 && Watched(log[n - 1], log[n]) {
      WatchStartChain(log, n - 1);
    }
  }

  lemma {:induction false} WatchAgainstQuiet(log: Log, n: nat, k: Key)
    requires n < |log|
    requires forall j :: QuietStart(log, n, k) < j <= n ==> log[j].prevSeen
    ensures WatchStart(log, n) <= QuietStart(log, n, k)
  {
    if n > 0 && QuietBetween(log[n - 1], log[n], k) {
      WatchAgainstQuiet(log, n - 1, k);
    }
  }

  // ----- deltas over many captures

  /** The delta of two consecutive captures, when the interval is measurable. */
  function IntervalDelta(a: Capture, b: Capture, k: Key): Option<Counters> {
    if k in a.rows && k in b.rows && a.statsReset == b.statsReset && a.rows[k].partSig == b.rows[k].partSig
    then Delta(a.rows[k].counters, b.rows[k].counters)
    else None
  }

  /** What a capture contributes to its snapshot is the interval since the previous committed one. */
  lemma PartIsInterval(log: Log, i: Input, k: Key, capturedAt: int)
    requires Represents(i.anchors, log)
    ensures R.HostPart(i, k) ==
      if log == [] then None else IntervalDelta(log[|log| - 1], CaptureOf(i, capturedAt), k)
  {
    RowMapAt(i.sample.rows, k);
    if log != [] && k in i.anchors {
      EpochOfLast(i, log, k);
    }
  }

  function Total(log: Log, k: Key, n: nat, c: string): int
    requires n < |log|
  {
    if k in log[n].rows then Get(log[n].rows[k].counters, c) else 0
  }

  /** Counter c of object k summed over the intervals that end at captures i + 1 to n. */
  function SumOfIntervals(log: Log, k: Key, i: nat, n: nat, c: string): int
    requires i <= n < |log|
    decreases n
  {
    if n == i then 0
    else
      var d := IntervalDelta(log[n - 1], log[n], k);
      SumOfIntervals(log, k, i, n - 1, c) + (if d.Some? then Get(d.value, c) else 0)
  }

  /** What c stood at whenever it vanished from the object's counters. */
  function Vanished(log: Log, k: Key, i: nat, n: nat, c: string): int
    requires i <= n < |log|
    decreases n
  {
    if n == i then 0
    else
      Vanished(log, k, i, n - 1, c) +
      (if k in log[n].rows && c !in log[n].rows[k].counters then Total(log, k, n - 1, c) else 0)
  }

  predicate AllMeasurable(log: Log, k: Key, i: nat, n: nat) {
    i <= n < |log| && k in log[i].rows &&
    forall j :: i < j <= n ==> IntervalDelta(log[j - 1], log[j], k).Some?
  }

  /** Between two captures with only measurable intervals, deltas add up to the growth and what vanished. */
  lemma {:induction false} DeltasTelescope(log: Log, k: Key, i: nat, n: nat, c: string)
    requires AllMeasurable(log, k, i, n)
    ensures SumOfIntervals(log, k, i, n, c) == Total(log, k, n, c) - Total(log, k, i, c) + Vanished(log, k, i, n, c)
    decreases n
  {
    if i < n {
      DeltasTelescope(log, k, i, n - 1, c);
      assert IntervalDelta(log[n - 1], log[n], k).Some?;
    }
  }

  predicate Kept(log: Log, k: Key, j: nat, c: string)
    requires 0 < j < |log|
  {
    k in log[j].rows ==> c in log[j].rows[k].counters || Total(log, k, j - 1, c) == 0
  }

  /** No interval is lost or counted twice: exact unless a positive counter vanishes on the way. */
  lemma NothingLostOrCountedTwice(log: Log, k: Key, i: nat, n: nat, c: string)
    requires AllMeasurable(log, k, i, n) && forall j :: 0 <= j < |log| ==> Total(log, k, j, c) >= 0
    ensures SumOfIntervals(log, k, i, n, c) == Total(log, k, n, c) - Total(log, k, i, c) <==>
      forall j :: i < j <= n ==> Kept(log, k, j, c)
  {
    DeltasTelescope(log, k, i, n, c);
    VanishedSign(log, k, i, n, c);
  }

  lemma {:induction false} VanishedSign(log: Log, k: Key, i: nat, n: nat, c: string)
    requires i <= n < |log| && forall j :: 0 <= j < |log| ==> Total(log, k, j, c) >= 0
    ensures Vanished(log, k, i, n, c) >= 0
    ensures Vanished(log, k, i, n, c) == 0 <==> forall j :: i < j <= n ==> Kept(log, k, j, c)
    decreases n
  {
    if i < n {
      VanishedSign(log, k, i, n - 1, c);
      assert Kept(log, k, n, c) <==>
        !(k in log[n].rows && c !in log[n].rows[k].counters && Total(log, k, n - 1, c) > 0);
    }
  }

  function CaptureWith(at: int, k: Key, row: Row, counters: Counters): Capture {
    Capture(at, Some(0), false, map[k := row.(counters := counters)], true)
  }

  /** A counter that stood at 10, vanished and came back at 12: it grew by 2, and the deltas add up to 12. */
  lemma VanishedAndBack(k: Key, row: Row, c: string, log: Log)
    requires log == [CaptureWith(1, k, row, map[c := 10]), CaptureWith(2, k, row, map[]), CaptureWith(3, k, row, map[c := 12])]
    ensures AllMeasurable(log, k, 0, 2) && Total(log, k, 2, c) - Total(log, k, 0, c) == 2
    ensures SumOfIntervals(log, k, 0, 2, c) == 12
  {
    forall j | 0 < j <= 2
      ensures IntervalDelta(log[j - 1], log[j], k).Some?
    {
      assert NoRegression(log[j - 1].rows[k].counters, log[j].rows[k].counters);
    }
    DeltasTelescope(log, k, 0, 2, c);
    assert Vanished(log, k, 0, 0, c) == 0;
    assert Vanished(log, k, 0, 1, c) == 10;
  }

  // ----- capture and commit

  /** What the store holds about one host is what its history calls for. */
  ghost predicate HostConsistent(anchors: map<Key, Row>, window: HostWindow, log: Log, now: int) {
    && log != [] && Represents(anchors, log) && Increasing(log) && log[|log| - 1].at <= now
    && window.observedSince == WatchMark(log, |log| - 1)
  }

  /** A row as it is stored: marks advanced, stamped with the capture. */
  function Stored(i: Input, row: Row, capturedAt: int): Row {
    Advanced(i, row, capturedAt).(capturedAt := capturedAt, statsReset := i.sample.statsReset)
  }

  function StoredRows(i: Input, rows: seq<Row>, capturedAt: int): (r: seq<Row>)
    ensures |r| == |rows| && forall j :: 0 <= j < |r| ==> r[j] == Stored(i, rows[j], capturedAt)
  {
    seq(|rows|, j requires 0 <= j < |rows| => Stored(i, rows[j], capturedAt))
  }

  lemma {:induction false} StoredMap(i: Input, rows: seq<Row>, capturedAt: int)
    ensures var m, r := RowMap(StoredRows(i, rows, capturedAt)), RowMap(rows);
      m.Keys == r.Keys && forall k :: k in r ==> m[k] == Stored(i, r[k], capturedAt)
  {
    if rows != [] {
      var front := rows[..|rows| - 1];
      StoredMap(i, front, capturedAt);
      assert StoredRows(i, rows, capturedAt)[..|rows| - 1] == StoredRows(i, front, capturedAt);
    }
  }

  /** Committing a capture keeps the host's stored state what its history calls for. */
  lemma HostStep(log: Log, i: Input, window: HostWindow, capturedAt: int)
    requires Represents(i.anchors, log) && Increasing(log) && (log != [] ==> log[|log| - 1].at < capturedAt)
    requires i.prevWindow.Some? ==> log != [] && i.prevWindow.value.observedSince == WatchMark(log, |log| - 1)
    requires IsWindow(window, i, capturedAt)
    ensures HostConsistent(RowMap(StoredRows(i, i.sample.rows, capturedAt)), window,
                           log + [CaptureOf(i, capturedAt)], capturedAt)
  {
    var log' := log + [CaptureOf(i, capturedAt)];
    StoredMap(i, i.sample.rows, capturedAt);
    WatchMarkStep(log, i, capturedAt);
    forall k | k in RowMap(i.sample.rows)
      ensures RowMap(i.sample.rows)[k].key == k
      ensures Advanced(i, RowMap(i.sample.rows)[k], capturedAt).quietSince == QuietMark(log', |log|, k)
    {
      RowMapAt(i.sample.rows, k);
      QuietMarkStep(log, i, k, capturedAt);
    }
  }

  lemma RepresentsUniform(anchors: map<Key, Row>, log: Log)
    requires Represents(anchors, log)
    ensures Uniform(anchors)
  {
  }

  ghost predicate StoreConsistent(
    anchors: map<string, map<Key, Row>>, windows: map<string, HostWindow>, logs: map<string, Log>, now: int)
  {
    && anchors.Keys == windows.Keys == logs.Keys
    && forall h :: h in logs ==> HostConsistent(anchors[h], windows[h], logs[h], now)
  }

  /** Replacing the stored state of some hosts by a later consistent one. */
  lemma MergeConsistent(
    anchors: map<string, map<Key, Row>>, windows: map<string, HostWindow>, logs: map<string, Log>, now: int,
    anchors': map<string, map<Key, Row>>, windows': map<string, HostWindow>, logs': map<string, Log>, capturedAt: int)
    requires StoreConsistent(anchors, windows, logs, now) && now < capturedAt
    requires StoreConsistent(anchors', windows', logs', capturedAt)
    ensures StoreConsistent(anchors + anchors', windows + windows', logs + logs', capturedAt)
  {
    forall h | h in logs && h !in logs' ensures HostConsistent(anchors[h], windows[h], logs[h], capturedAt) {
    }
  }
}
