/**
 * The activity-spike trigger as a simple machine that remembers every probe of the
 * running candidate and of the recovery stretch. What the trigger promises is proved
 * here, over every run; SpikeMonitor shows that the counters the daemon keeps do the same.
 */
module SpikeSpec {
  import opened Common

  /** An evaluated probe with the threshold and the spike duration in force. */
  datatype Probe = Probe(at: int, count: nat, threshold: real, spikeDuration: int)

  /**
   * candidate: all probes since the candidate opened, none when no candidate runs.
   * openedBy: the onset probe of the open incident. below: the recovery stretch.
   */
  datatype Model = Model(candidate: seq<Probe>, openedBy: Option<Probe>, below: seq<Probe>)

  /** One evaluated tick; saved says whether a snapshot taken now would be stored. */
  datatype Input = Input(probe: Probe, belowFloor: bool, recoveryDuration: int, debounced: bool, saved: bool)

  datatype Action =
    | Quiet
    | SpikeAttempt(probes: seq<Probe>, saved: bool)
    | DropAttempt(probes: seq<Probe>, threshold: real, saved: bool)

  const DIP_GRACE_DIVISOR := 2
  const STALE_FACTOR := 4

  const IDLE := Model([], None, [])

  predicate Above(p: Probe) {
    p.count as real >= p.threshold
  }

  /** Integer division as Go does it, toward zero. */
  function Grace(spikeDuration: int): int {
    if spikeDuration >= 0 then spikeDuration / DIP_GRACE_DIVISOR else -((-spikeDuration) / DIP_GRACE_DIVISOR)
  }

  function CountAbove(ps: seq<Probe>): (n: nat)
    ensures n <= |ps|
  {
    if ps == [] then 0 else CountAbove(ps[..|ps| - 1]) + (if Above(ps[|ps| - 1]) then 1 else 0)
  }

  /** Largest count among the probes at or above their threshold. */
  function Peak(ps: seq<Probe>): nat {
    if ps == [] then 0
    else
      var rest, last := Peak(ps[..|ps| - 1]), ps[|ps| - 1];
      if Above(last) && last.count > rest then last.count else rest
  }

  /** The latest probe at or above its threshold. */
  function LastAbove(ps: seq<Probe>): Option<Probe> {
    if ps == [] then None
    else if Above(ps[|ps| - 1]) then Some(ps[|ps| - 1])
    else LastAbove(ps[..|ps| - 1])
  }

  /** At least 70% of the probes met their own threshold. */
  predicate Dense(ps: seq<Probe>) {
    10 * CountAbove(ps) >= 7 * |ps|
  }

  /** The candidate has gone on for too long to describe the load of now. */
  predicate Stale(candidate: seq<Probe>, p: Probe) {
    candidate != [] && p.at - candidate[0].at > STALE_FACTOR * p.spikeDuration
  }

  datatype Progress = Aborted | Started | Forming

  /** Folds one probe into the candidate; a dip is tolerated within the grace after the latest probe above. */
  function Advance(candidate: seq<Probe>, p: Probe): (Progress, seq<Probe>) {
    var c := if Stale(candidate, p) then [] else candidate;
    if !Above(p) && (LastAbove(c).None? || p.at - LastAbove(c).value.at > Grace(p.spikeDuration)) then (Aborted, [])
    else (if c == [] then Started else Forming, c + [p])
  }

  function Step(m: Model, i: Input): (Model, Action) {
    var (progress, c) := if i.belowFloor then (Aborted, []) else Advance(m.candidate, i.probe);
    match progress
    case Aborted => Recover(m.(candidate := []), i)
    case Started => (m.(candidate := c, below := []), Quiet)
    case Forming => Form(m.(candidate := c, below := []), i)
  }

  /** A running candidate fires once it is old enough, dense enough and not debounced. */
  function Form(m: Model, i: Input): (Model, Action)
    requires m.candidate != []
  {
    var c := m.candidate;
    if i.probe.at - c[0].at < i.probe.spikeDuration || !Dense(c) || i.debounced then (m, Quiet)
    else if i.saved then
      (Model([], if m.openedBy.Some? then m.openedBy else Some(c[0]), []), SpikeAttempt(c, true))
    else (m.(candidate := []), SpikeAttempt(c, false))
  }

  /** With no candidate running, an open incident ends after a long enough stretch below its onset threshold. */
  function Recover(m: Model, i: Input): (Model, Action) {
    var p := i.probe;
    if i.recoveryDuration <= 0 then (m.(openedBy := None, below := []), Quiet)
    else if m.openedBy.None? || p.count as real >= m.openedBy.value.threshold then (m.(below := []), Quiet)
    else if m.below == [] || p.at - m.below[0].at < i.recoveryDuration then (m.(below := m.below + [p]), Quiet)
    else
      (m.(openedBy := if i.saved then None else m.openedBy, below := []),
       DropAttempt(m.below + [p], m.openedBy.value.threshold, i.saved))
  }

  // ----- runs

  function After(inputs: seq<Input>, n: nat): Model
    requires n <= |inputs|
  {
    if n == 0 then IDLE else Step(After(inputs, n - 1), inputs[n - 1]).0
  }

  function ActionAt(inputs: seq<Input>, n: nat): Action
    requires n < |inputs|
  {
    Step(After(inputs, n), inputs[n]).1
  }

  lemma {:induction false} AfterPrefix(inputs: seq<Input>, i: Input, n: nat)
    requires n <= |inputs|
    ensures After(inputs + [i], n) == After(inputs, n)
  {
    if n > 0 {
      AfterPrefix(inputs, i, n - 1);
    }
  }

  lemma AfterAppend(inputs: seq<Input>, i: Input)
    ensures After(inputs + [i], |inputs| + 1) == Step(After(inputs, |inputs|), i).0
    ensures ActionAt(inputs + [i], |inputs|) == Step(After(inputs, |inputs|), i).1
  {
    AfterPrefix(inputs, i, |inputs|);
  }

  /** The probes of ticks from to n - 1. */
  function ProbesOf(inputs: seq<Input>, from: nat, n: nat): (r: seq<Probe>)
    requires from <= n <= |inputs|
    ensures |r| == n - from && forall j :: 0 <= j < |r| ==> r[j] == inputs[from + j].probe
  {
    seq(n - from, j requires 0 <= j < n - from => inputs[from + j].probe)
  }

  // ----- what holds at every point of a run

  /** Every tolerated dip was close to a probe at or above its threshold. */
  predicate DipsWithinGrace(ps: seq<Probe>) {
    forall m :: 0 <= m < |ps| && !Above(ps[m]) ==>
      exists l :: 0 <= l < m && Above(ps[l]) && ps[m].at - ps[l].at <= Grace(ps[m].spikeDuration)
  }

  predicate StaysBelow(ps: seq<Probe>, threshold: real) {
    forall m :: 0 <= m < |ps| ==> ps[m].count as real < threshold
  }

  predicate Inv(m: Model) {
    && (m.candidate != [] ==> Above(m.candidate[0]) && m.below == [])
    && DipsWithinGrace(m.candidate)
    && (m.below != [] ==> m.openedBy.Some? && StaysBelow(m.below, m.openedBy.value.threshold))
  }

  lemma {:induction false} LastAboveIsAbove(ps: seq<Probe>)
    ensures LastAbove(ps).Some? ==>
      exists l :: 0 <= l < |ps| && ps[l] == LastAbove(ps).value && Above(ps[l])
  {
    if ps != [] {
      if Above(ps[|ps| - 1]) {
        assert ps[|ps| - 1] == LastAbove(ps).value;
      } else if LastAbove(ps).Some? {
        var front := ps[..|ps| - 1];
        LastAboveIsAbove(front);
        var l :| 0 <= l < |front| && front[l] == LastAbove(front).value && Above(front[l]);
        assert ps[l] == LastAbove(ps).value;
      }
    }
  }

  lemma DipTolerated(c: seq<Probe>, p: Probe)
    requires DipsWithinGrace(c)
    requires Above(p) || (LastAbove(c).Some? && p.at - LastAbove(c).value.at <= Grace(p.spikeDuration))
    ensures DipsWithinGrace(c + [p])
  {
    var ps := c + [p];
    LastAboveIsAbove(c);
    forall m | 0 <= m < |ps| && !Above(ps[m])
      ensures exists l :: 0 <= l < m && Above(ps[l]) && ps[m].at - ps[l].at <= Grace(ps[m].spikeDuration)
    {
      if m < |c| {
        var l :| 0 <= l < m && Above(c[l]) && c[m].at - c[l].at <= Grace(c[m].spikeDuration);
        assert Above(ps[l]);
      } else {
        var l :| 0 <= l < |c| && c[l] == LastAbove(c).value && Above(c[l]);
        assert Above(ps[l]);
      }
    }
  }

  predicate CandidateOk(c: seq<Probe>) {
    DipsWithinGrace(c) && (c != [] ==> Above(c[0]))
  }

  lemma AdvanceKeepsCandidate(candidate: seq<Probe>, p: Probe)
    requires CandidateOk(candidate)
    ensures CandidateOk(Advance(candidate, p).1)
    ensures Advance(candidate, p).0 != Aborted ==> Advance(candidate, p).1 != []
  {
    var c := if Stale(candidate, p) then [] else candidate;
    if Above(p) || (LastAbove(c).Some? && p.at - LastAbove(c).value.at <= Grace(p.spikeDuration)) {
      DipTolerated(c, p);
    }
  }

  lemma FormKeepsInv(m: Model, i: Input)
    requires CandidateOk(m.candidate) && m.candidate != [] && m.below == []
    ensures Inv(Form(m, i).0)
  {
  }

  lemma RecoverKeepsInv(m: Model, i: Input)
    requires Inv(m) && m.candidate == []
    ensures Inv(Recover(m, i).0)
  {
  }

  lemma StepKeepsInv(m: Model, i: Input)
    requires Inv(m)
    ensures Inv(Step(m, i).0)
  {
    var (progress, c) := if i.belowFloor then (Aborted, []) else Advance(m.candidate, i.probe);
    AdvanceKeepsCandidate(m.candidate, i.probe);
    match progress
    case Aborted => RecoverKeepsInv(m.(candidate := []), i);
    case Started =>
    case Forming => FormKeepsInv(m.(candidate := c, below := []), i);
  }

  lemma {:induction false} RunKeepsInv(inputs: seq<Input>, n: nat)
    requires n <= |inputs|
    ensures Inv(After(inputs, n))
  {
    if n > 0 {
      RunKeepsInv(inputs, n - 1);
      StepKeepsInv(After(inputs, n - 1), inputs[n - 1]);
    }
  }

  /** A tick adds its probe to a segment or starts it over. */
  lemma StepSegments(m: Model, i: Input)
    ensures var m' := Step(m, i).0;
      && (m'.candidate == [] || m'.candidate == [i.probe] || m'.candidate == m.candidate + [i.probe])
      && (m'.below == [] || m'.below == m.below + [i.probe])
  {
  }

  lemma OneMoreProbe(inputs: seq<Input>, ps: seq<Probe>, n: nat)
    requires 0 < n <= |inputs| && |ps| <= n - 1 && ps == ProbesOf(inputs, n - 1 - |ps|, n - 1)
    ensures ps + [inputs[n - 1].probe] == ProbesOf(inputs, n - 1 - |ps|, n)
    ensures [inputs[n - 1].probe] == ProbesOf(inputs, n - 1, n) && [] == ProbesOf(inputs, n, n)
  {
  }

  /** These probes are those of the latest ticks before n, without gaps. */
  predicate Latest(inputs: seq<Input>, ps: seq<Probe>, n: nat)
    requires n <= |inputs|
  {
    |ps| <= n && ps == ProbesOf(inputs, n - |ps|, n)
  }

  lemma LatestStep(inputs: seq<Input>, ps: seq<Probe>, ps': seq<Probe>, n: nat)
    requires 0 < n <= |inputs| && Latest(inputs, ps, n - 1)
    requires ps' == [] || ps' == [inputs[n - 1].probe] || ps' == ps + [inputs[n - 1].probe]
    ensures Latest(inputs, ps', n)
  {
    OneMoreProbe(inputs, ps, n);
  }

  /** Candidate and recovery stretch are the latest ticks, without gaps. */
  lemma {:induction false} SegmentsAreLatest(inputs: seq<Input>, n: nat)
    requires n <= |inputs|
    ensures Latest(inputs, After(inputs, n).candidate, n) && Latest(inputs, After(inputs, n).below, n)
  {
    if n > 0 {
      var m := After(inputs, n - 1);
      SegmentsAreLatest(inputs, n - 1);
      StepSegments(m, inputs[n - 1]);
      LatestStep(inputs, m.candidate, After(inputs, n).candidate, n);
      LatestStep(inputs, m.below, After(inputs, n).below, n);
    }
  }

  // ----- a spike snapshot is justified

  /**
   * These probes are a spike: they open above the threshold, span between one and
   * four spike durations, at least 70% of them met their own threshold and every dip
   * was within half a spike duration of one that did.
   */
  predicate Justified(ps: seq<Probe>) {
    && ps != [] && Above(ps[0])
    && var last := ps[|ps| - 1];
    && last.spikeDuration <= last.at - ps[0].at <= STALE_FACTOR * last.spikeDuration
    && Dense(ps)
    && DipsWithinGrace(ps)
  }

  /** The probes that met their own threshold. */
  function AboveSet(ps: seq<Probe>): set<nat> {
    set k: nat | k < |ps| && ps[k].count as real >= ps[k].threshold
  }

  lemma {:induction false} CountIsSize(ps: seq<Probe>)
    ensures CountAbove(ps) == |AboveSet(ps)|
  {
    if ps != [] {
      var n := |ps| - 1;
      CountIsSize(ps[..n]);
      if Above(ps[n]) {
        assert AboveSet(ps) == AboveSet(ps[..n]) + {n};
      } else {
        assert AboveSet(ps) == AboveSet(ps[..n]);
      }
    }
  }

  lemma GraceIsHalf(d: int, x: int)
    requires d >= 0
    ensures x <= Grace(d) <==> 2 * x <= d
  {
  }

  /** The same in whole numbers: one to four spike durations, seven tenths, half a spike duration. */
  lemma JustifiedInNumbers(ps: seq<Probe>)
    requires forall k :: 0 <= k < |ps| ==> ps[k].spikeDuration >= 0
    ensures Justified(ps) <==>
      && ps != [] && 0 in AboveSet(ps)
      && ps[|ps| - 1].spikeDuration <= ps[|ps| - 1].at - ps[0].at <= 4 * ps[|ps| - 1].spikeDuration
      && 10 * |AboveSet(ps)| >= 7 * |ps|
      && forall m: nat :: m < |ps| && m !in AboveSet(ps) ==> exists l :: l in AboveSet(ps) && l < m && 2 * (ps[m].at - ps[l].at) <= ps[m].spikeDuration
  {
    CountIsSize(ps);
    if DipsWithinGrace(ps) {
      forall m: nat | m < |ps| && m !in AboveSet(ps)
        ensures exists l :: l in AboveSet(ps) && l < m && 2 * (ps[m].at - ps[l].at) <= ps[m].spikeDuration
      {
        var l :| 0 <= l < m && Above(ps[l]) && ps[m].at - ps[l].at <= Grace(ps[m].spikeDuration);
        GraceIsHalf(ps[m].spikeDuration, ps[m].at - ps[l].at);
        assert l in AboveSet(ps);
      }
    }
    if forall m: nat :: m < |ps| && m !in AboveSet(ps) ==> exists l :: l in AboveSet(ps) && l < m && 2 * (ps[m].at - ps[l].at) <= ps[m].spikeDuration {
      forall m | 0 <= m < |ps| && !Above(ps[m])
        ensures exists l :: 0 <= l < m && Above(ps[l]) && ps[m].at - ps[l].at <= Grace(ps[m].spikeDuration)
      {
        assert m !in AboveSet(ps);
        var l :| l in AboveSet(ps) && l < m && 2 * (ps[m].at - ps[l].at) <= ps[m].spikeDuration;
        GraceIsHalf(ps[m].spikeDuration, ps[m].at - ps[l].at);
        assert Above(ps[l]);
      }
    }
  }

  /** The reported peak is the largest count of a probe that met its threshold. */
  lemma {:induction false} PeakIsLargest(ps: seq<Probe>)
    ensures forall k :: k in AboveSet(ps) ==> ps[k].count <= Peak(ps)
    ensures AboveSet(ps) != {} ==> exists k :: k in AboveSet(ps) && ps[k].count == Peak(ps)
    ensures AboveSet(ps) == {} ==> Peak(ps) == 0
  {
    if ps != [] {
      var n := |ps| - 1;
      PeakIsLargest(ps[..n]);
      forall k: nat
        ensures k in AboveSet(ps) <==> k in AboveSet(ps[..n]) || (k == n && Above(ps[n]))
      {
      }
      if Above(ps[n]) && AboveSet(ps[..n]) == {} && ps[n].count == 0 {
        assert n in AboveSet(ps) && ps[n].count == Peak(ps);
      } else if Above(ps[n]) && ps[n].count > Peak(ps[..n]) {
        assert n in AboveSet(ps) && ps[n].count == Peak(ps);
      } else if AboveSet(ps) != {} && AboveSet(ps[..n]) != {} {
        var k :| k in AboveSet(ps[..n]) && ps[..n][k].count == Peak(ps[..n]);
        assert k in AboveSet(ps) && ps[k].count == Peak(ps);
      }
    }
  }

  /** What firing takes. */
  lemma AttemptShape(m: Model, i: Input)
    requires Step(m, i).1.SpikeAttempt?
    ensures var ps := m.candidate + [i.probe];
      && m.candidate != [] && Step(m, i).1 == SpikeAttempt(ps, i.saved) && !i.debounced
      && !Stale(m.candidate, i.probe) && i.probe.at - m.candidate[0].at >= i.probe.spikeDuration
      && Dense(ps)
      && (Above(i.probe) || (LastAbove(m.candidate).Some?
            && i.probe.at - LastAbove(m.candidate).value.at <= Grace(i.probe.spikeDuration)))
      && Step(m, i).0.candidate == []
  {
  }

  lemma AttemptJustified(m: Model, i: Input)
    requires Inv(m) && Step(m, i).1.SpikeAttempt?
    ensures Justified(Step(m, i).1.probes)
  {
    AttemptShape(m, i);
    var ps := m.candidate + [i.probe];
    DipTolerated(m.candidate, i.probe);
    assert ps[0] == m.candidate[0] && ps[|ps| - 1] == i.probe;
  }

  /** In every run, whenever a spike snapshot is attempted, the ticks up to now since some onset justify it. */
  lemma SpikeSnapshotsJustified(inputs: seq<Input>, n: nat)
    requires n < |inputs| && ActionAt(inputs, n).SpikeAttempt?
    ensures var ps := ActionAt(inputs, n).probes;
      && |ps| <= n + 1 && ps == ProbesOf(inputs, n + 1 - |ps|, n + 1) && Justified(ps)
      && !inputs[n].debounced && ActionAt(inputs, n).saved == inputs[n].saved
  {
    var m := After(inputs, n);
    RunKeepsInv(inputs, n);
    SegmentsAreLatest(inputs, n);
    AttemptShape(m, inputs[n]);
    AttemptJustified(m, inputs[n]);
    OneMoreProbe(inputs, m.candidate, n + 1);
  }

  // ----- a justified spike is attempted

  predicate InOrder(inputs: seq<Input>, from: nat, n: nat)
    requires n <= |inputs|
  {
    forall j, k :: from <= j < k < n ==> inputs[j].probe.at <= inputs[k].probe.at
  }

  /** The ticks from to n - 1 can be one candidate: nothing in them breaks it off. */
  predicate Unbroken(inputs: seq<Input>, from: nat, n: nat)
    requires from < n <= |inputs|
  {
    && Above(inputs[from].probe) && DipsWithinGrace(ProbesOf(inputs, from, n))
    && forall k :: from <= k < n ==> !inputs[k].belowFloor && Fresh(inputs[from].probe, inputs[k].probe)
  }

  predicate Fresh(onset: Probe, p: Probe) {
    p.at - onset.at <= STALE_FACTOR * p.spikeDuration
  }

  /** Tick k would have fired on what there was since from. */
  predicate Due(inputs: seq<Input>, from: nat, k: nat)
    requires from < k < |inputs|
  {
    var p := inputs[k].probe;
    !inputs[k].debounced && p.at - inputs[from].probe.at >= p.spikeDuration && Dense(ProbesOf(inputs, from, k + 1))
  }

  lemma {:induction false} LastAboveIsNearest(ps: seq<Probe>, l: nat)
    requires l < |ps| && Above(ps[l]) && forall j :: l <= j < |ps| ==> ps[l].at <= ps[j].at
    ensures LastAbove(ps).Some? && LastAbove(ps).value.at >= ps[l].at
  {
    if !Above(ps[|ps| - 1]) {
      LastAboveIsNearest(ps[..|ps| - 1], l);
    }
  }

  /** A tick that breaks nothing off is taken into the candidate. */
  lemma TickGoesOn(inputs: seq<Input>, from: nat, n: nat)
    requires from <= n < |inputs| && InOrder(inputs, from, n + 1) && Unbroken(inputs, from, n + 1)
    ensures Advance(ProbesOf(inputs, from, n), inputs[n].probe) ==
      (if n == from then Started else Forming, ProbesOf(inputs, from, n + 1))
  {
    var c, p, ps := ProbesOf(inputs, from, n), inputs[n].probe, ProbesOf(inputs, from, n + 1);
    assert ps == c + [p];
    assert !Stale(c, p);
    if !Above(p) {
      assert !Above(ps[n - from]);
      var l :| 0 <= l < n - from && Above(ps[l]) && ps[n - from].at - ps[l].at <= Grace(ps[n - from].spikeDuration);
      LastAboveIsNearest(c, l);
    }
  }

  lemma UnbrokenBefore(inputs: seq<Input>, from: nat, m: nat, n: nat)
    requires from < m <= n <= |inputs| && Unbroken(inputs, from, n)
    ensures Unbroken(inputs, from, m)
  {
    var ps, qs := ProbesOf(inputs, from, m), ProbesOf(inputs, from, n);
    forall k | 0 <= k < |ps| && !Above(ps[k])
      ensures exists l :: 0 <= l < k && Above(ps[l]) && ps[k].at - ps[l].at <= Grace(ps[k].spikeDuration)
    {
      assert ps[k] == qs[k];
      var l :| 0 <= l < k && Above(qs[l]) && qs[k].at - qs[l].at <= Grace(qs[k].spikeDuration);
      assert ps[l] == qs[l];
    }
  }

  lemma OnsetTaken(m: Model, i: Input, c: seq<Probe>)
    requires !i.belowFloor && Advance(m.candidate, i.probe) == (Started, c)
    ensures Step(m, i).0.candidate == c
  {
  }

  lemma StillForming(m: Model, i: Input, c: seq<Probe>)
    requires !i.belowFloor && Advance(m.candidate, i.probe) == (Forming, c) && c != []
    requires i.debounced || i.probe.at - c[0].at < i.probe.spikeDuration || !Dense(c)
    ensures Step(m, i).0.candidate == c && !Step(m, i).1.SpikeAttempt?
  {
  }

  lemma FiresOnTime(m: Model, i: Input, c: seq<Probe>)
    requires !i.belowFloor && Advance(m.candidate, i.probe) == (Forming, c) && c != []
    requires !i.debounced && i.probe.at - c[0].at >= i.probe.spikeDuration && Dense(c)
    ensures Step(m, i).1 == SpikeAttempt(c, i.saved)
  {
  }

  lemma TickTaken(inputs: seq<Input>, from: nat, n: nat, m: Model)
    requires from <= n < |inputs| && InOrder(inputs, from, n + 1) && Unbroken(inputs, from, n + 1)
    requires m.candidate == ProbesOf(inputs, from, n) && (n > from ==> !Due(inputs, from, n))
    ensures Step(m, inputs[n]).0.candidate == ProbesOf(inputs, from, n + 1)
  {
    var c := ProbesOf(inputs, from, n + 1);
    TickGoesOn(inputs, from, n);
    assert c[0] == inputs[from].probe && !inputs[n].belowFloor;
    if n == from {
      OnsetTaken(m, inputs[n], c);
    } else {
      StillForming(m, inputs[n], c);
    }
  }

  /** Until it fires the candidate is every tick since its onset. */
  lemma {:induction false} CandidateGrows(inputs: seq<Input>, from: nat, n: nat)
    requires from <= n <= |inputs| && After(inputs, from).candidate == [] && InOrder(inputs, from, n)
    requires n > from ==> Unbroken(inputs, from, n)
    requires forall k :: from < k < n ==> !Due(inputs, from, k)
    ensures After(inputs, n).candidate == ProbesOf(inputs, from, n)
  {
    if n > from {
      if n - 1 > from {
        UnbrokenBefore(inputs, from, n - 1, n);
      }
      CandidateGrows(inputs, from, n - 1);
      TickTaken(inputs, from, n - 1, After(inputs, n - 1));
    }
  }

  lemma AttemptedWhenDue(inputs: seq<Input>, from: nat, n: nat, m: Model)
    requires from < n < |inputs| && InOrder(inputs, from, n + 1) && Unbroken(inputs, from, n + 1)
    requires m.candidate == ProbesOf(inputs, from, n)
    ensures var ps, a := ProbesOf(inputs, from, n + 1), Step(m, inputs[n]).1;
      && (if Due(inputs, from, n) then a == SpikeAttempt(ps, inputs[n].saved) else !a.SpikeAttempt?)
      && (Due(inputs, from, n) <==> !inputs[n].debounced && Justified(ps))
  {
    var c := ProbesOf(inputs, from, n + 1);
    TickGoesOn(inputs, from, n);
    assert c[0] == inputs[from].probe && c[|c| - 1] == inputs[n].probe && !inputs[n].belowFloor;
    assert Fresh(inputs[from].probe, inputs[n].probe);
    if Due(inputs, from, n) {
      FiresOnTime(m, inputs[n], c);
    } else {
      StillForming(m, inputs[n], c);
    }
  }

  /**
   * In every run with a clock that does not go back: a spike that nothing breaks off is
   * attempted, with all its probes, at the first tick that is due and at no earlier one;
   * and being due is being justified and not debounced.
   */
  lemma SpikeIsAttempted(inputs: seq<Input>, from: nat, n: nat)
    requires from < n < |inputs| && After(inputs, from).candidate == [] && InOrder(inputs, from, n + 1)
    requires Unbroken(inputs, from, n + 1) && forall k :: from < k < n ==> !Due(inputs, from, k)
    ensures var ps, a := ProbesOf(inputs, from, n + 1), ActionAt(inputs, n);
      && (if Due(inputs, from, n) then a == SpikeAttempt(ps, inputs[n].saved) else !a.SpikeAttempt?)
      && (Due(inputs, from, n) <==> !inputs[n].debounced && Justified(ps))
  {
    UnbrokenBefore(inputs, from, n, n + 1);
    CandidateGrows(inputs, from, n);
    AttemptedWhenDue(inputs, from, n, After(inputs, n));
  }

  /** Where no probe is above its threshold, or each is below the floor, no spike is ever attempted. */
  lemma {:induction false} NeverAboveNeverFires(inputs: seq<Input>, n: nat)
    requires n <= |inputs| && forall k :: 0 <= k < |inputs| ==> inputs[k].belowFloor || !Above(inputs[k].probe)
    ensures After(inputs, n).candidate == [] && (n < |inputs| ==> !ActionAt(inputs, n).SpikeAttempt?)
  {
    if n > 0 {
      NeverAboveNeverFires(inputs, n - 1);
      NotAboveStaysIdle(After(inputs, n - 1), inputs[n - 1]);
    }
    if n < |inputs| {
      NotAboveStaysIdle(After(inputs, n), inputs[n]);
    }
  }

  lemma NotAboveStaysIdle(m: Model, i: Input)
    requires m.candidate == [] && (i.belowFloor || !Above(i.probe))
    ensures Step(m, i).0.candidate == [] && !Step(m, i).1.SpikeAttempt?
  {
  }

  // ----- incidents

  /** Drops need an open incident, a long stretch below its threshold and no candidate; a stored drop closes it. */
  lemma DropShape(m: Model, i: Input)
    requires Inv(m) && Step(m, i).1.DropAttempt?
    ensures var (m', a) := Step(m, i);
      && m.openedBy.Some? && a == DropAttempt(m.below + [i.probe], m.openedBy.value.threshold, i.saved)
      && StaysBelow(a.probes, a.threshold) && m.below != []
      && i.probe.at - m.below[0].at >= i.recoveryDuration > 0
      && m'.candidate == [] && m'.below == [] && (m'.openedBy.None? <==> i.saved)
  {
  }

  /** An incident is opened by a stored spike only, closed without a candidate, and keeps its onset. */
  lemma IncidentStep(m: Model, i: Input)
    ensures var (m', a) := Step(m, i);
      && (m.openedBy.None? && m'.openedBy.Some? ==>
            a.SpikeAttempt? && a.saved && m'.openedBy == Some(a.probes[0]))
      && (m.openedBy.Some? && m'.openedBy.None? ==>
            m'.candidate == [] && (i.recoveryDuration <= 0 || (a.DropAttempt? && a.saved)))
      && (m.openedBy.Some? && m'.openedBy.Some? ==> m'.openedBy == m.openedBy)
      && (a.DropAttempt? && a.saved ==> m.openedBy.Some? && m'.openedBy.None?)
      && (a.SpikeAttempt? && a.saved ==> m'.openedBy.Some?)
  {
  }

  /** Tick k stored the spike that opened an incident with this onset probe. */
  predicate Opens(inputs: seq<Input>, k: nat, onset: Probe)
    requires k < |inputs|
  {
    var a := ActionAt(inputs, k);
    a.SpikeAttempt? && a.saved && a.probes != [] && a.probes[0] == onset && After(inputs, k).openedBy.None?
  }

  /** From after tick k to tick n the incident stays open with its onset frozen. */
  predicate OpenThroughout(inputs: seq<Input>, k: nat, n: nat, onset: Probe)
    requires n <= |inputs|
  {
    forall j :: k < j <= n ==> After(inputs, j).openedBy == Some(onset)
  }

  lemma OpenedAt(inputs: seq<Input>, n: nat)
    requires n < |inputs| && After(inputs, n).openedBy.None? && After(inputs, n + 1).openedBy.Some?
    ensures Opens(inputs, n, After(inputs, n + 1).openedBy.value)
  {
    IncidentStep(After(inputs, n), inputs[n]);
    AttemptShape(After(inputs, n), inputs[n]);
  }

  /** An open incident was opened by a stored spike, and its onset has been frozen ever since. */
  lemma {:induction false} OpenIncidentHistory(inputs: seq<Input>, n: nat, onset: Probe) returns (k: nat)
    requires n <= |inputs| && After(inputs, n).openedBy == Some(onset)
    ensures k < n && Opens(inputs, k, onset) && OpenThroughout(inputs, k, n, onset)
  {
    if After(inputs, n - 1).openedBy.None? {
      k := n - 1;
      OpenedAt(inputs, k);
    } else {
      OnsetKept(inputs, n);
      k := OpenIncidentHistory(inputs, n - 1, onset);
    }
  }

  lemma OnsetKept(inputs: seq<Input>, n: nat)
    requires 0 < n <= |inputs| && After(inputs, n - 1).openedBy.Some? && After(inputs, n).openedBy.Some?
    ensures After(inputs, n).openedBy == After(inputs, n - 1).openedBy
  {
    IncidentStep(After(inputs, n - 1), inputs[n - 1]);
  }

  /**
   * In every run a drop is attempted only in an open incident; its threshold is the onset
   * threshold of the candidate that opened the incident, and every probe of the stretch,
   * which reaches up to now without gaps, was below it.
   */
  lemma DropSnapshotsJustified(inputs: seq<Input>, n: nat) returns (k: nat)
    requires n < |inputs| && ActionAt(inputs, n).DropAttempt?
    ensures After(inputs, n).openedBy.Some?
    ensures var a, onset := ActionAt(inputs, n), After(inputs, n).openedBy.value;
      && k < n && Opens(inputs, k, onset) && OpenThroughout(inputs, k, n, onset)
      && a.threshold == onset.threshold && |a.probes| <= n + 1 && a.probes == ProbesOf(inputs, n + 1 - |a.probes|, n + 1)
      && StaysBelow(a.probes, a.threshold)
      && a.probes != [] && inputs[n].probe.at - a.probes[0].at >= inputs[n].recoveryDuration > 0
      && After(inputs, n + 1).candidate == []
  {
    var m := After(inputs, n);
    RunKeepsInv(inputs, n);
    DropShape(m, inputs[n]);
    SegmentsAreLatest(inputs, n);
    OneMoreProbe(inputs, m.below, n + 1);
    k := OpenIncidentHistory(inputs, n, m.openedBy.value);
  }

  predicate Drops(inputs: seq<Input>, n: nat)
    requires n < |inputs|
  {
    ActionAt(inputs, n).DropAttempt? && ActionAt(inputs, n).saved
  }

  /** A stored spike opens an incident or leaves the open one, a stored drop closes it; nothing that is not stored does either. */
  lemma IncidentFollows(inputs: seq<Input>, n: nat)
    requires n < |inputs| && inputs[n].recoveryDuration > 0
    ensures var a, before, after := ActionAt(inputs, n), After(inputs, n), After(inputs, n + 1);
      match a
      case SpikeAttempt(ps, saved) =>
        after.candidate == [] && ps != []
        && after.openedBy == (if saved && before.openedBy.None? then Some(ps[0]) else before.openedBy)
      case DropAttempt(_, _, saved) => before.openedBy.Some? && after.openedBy == (if saved then None else before.openedBy)
      case Quiet => after.openedBy == before.openedBy
  {
  }

  /** Tick k gives the recovery something to count: no spike forming, and less than the onset threshold. */
  predicate Calm(i: Input, onset: Probe) {
    (i.belowFloor || !Above(i.probe)) && (i.probe.count as real) < onset.threshold && i.recoveryDuration > 0
  }

  lemma CalmStep(m: Model, i: Input, onset: Probe)
    requires m.candidate == [] && m.openedBy == Some(onset) && Calm(i, onset)
    ensures Step(m, i) ==
      if m.below == [] || i.probe.at - m.below[0].at < i.recoveryDuration then (m.(below := m.below + [i.probe]), Quiet)
      else (m.(below := [], openedBy := if i.saved then None else m.openedBy), DropAttempt(m.below + [i.probe], onset.threshold, i.saved))
  {
  }

  /** The recovery stretch since from has lasted at tick k. */
  predicate Recovered(inputs: seq<Input>, from: nat, k: nat)
    requires from < k < |inputs|
  {
    inputs[k].probe.at - inputs[from].probe.at >= inputs[k].recoveryDuration
  }

  lemma {:induction false} StretchGrows(inputs: seq<Input>, from: nat, n: nat, onset: Probe)
    requires from <= n <= |inputs| && After(inputs, from) == Model([], Some(onset), [])
    requires forall k :: from <= k < n ==> Calm(inputs[k], onset)
    requires forall k :: from < k < n ==> !Recovered(inputs, from, k)
    ensures After(inputs, n) == Model([], Some(onset), ProbesOf(inputs, from, n))
  {
    if n > from {
      StretchGrows(inputs, from, n - 1, onset);
      StretchStep(inputs, from, n - 1, After(inputs, n - 1), onset);
    } else {
      assert ProbesOf(inputs, from, n) == [];
    }
  }

  lemma StretchStep(inputs: seq<Input>, from: nat, n: nat, m: Model, onset: Probe)
    requires from <= n < |inputs| && m == Model([], Some(onset), ProbesOf(inputs, from, n)) && Calm(inputs[n], onset)
    requires n > from ==> !Recovered(inputs, from, n)
    ensures Step(m, inputs[n]).0 == Model([], Some(onset), ProbesOf(inputs, from, n + 1))
  {
    CalmStep(m, inputs[n], onset);
    assert ProbesOf(inputs, from, n + 1) == ProbesOf(inputs, from, n) + [inputs[n].probe];
  }

  lemma DropStep(inputs: seq<Input>, from: nat, n: nat, m: Model, onset: Probe)
    requires from < n < |inputs| && m == Model([], Some(onset), ProbesOf(inputs, from, n)) && Calm(inputs[n], onset)
    ensures Step(m, inputs[n]).1 ==
      if Recovered(inputs, from, n) then DropAttempt(ProbesOf(inputs, from, n + 1), onset.threshold, inputs[n].saved) else Quiet
  {
    CalmStep(m, inputs[n], onset);
    assert ProbesOf(inputs, from, n + 1) == ProbesOf(inputs, from, n) + [inputs[n].probe];
  }

  /** In every run: an incident that stays calm is dropped at the first tick at which the stretch has lasted, and not before. */
  lemma DropIsAttempted(inputs: seq<Input>, from: nat, n: nat, onset: Probe)
    requires from < n < |inputs| && After(inputs, from) == Model([], Some(onset), [])
    requires forall k :: from <= k <= n ==> Calm(inputs[k], onset)
    requires forall k :: from < k < n ==> !Recovered(inputs, from, k)
    ensures ActionAt(inputs, n) ==
      if Recovered(inputs, from, n) then DropAttempt(ProbesOf(inputs, from, n + 1), onset.threshold, inputs[n].saved) else Quiet
  {
    StretchGrows(inputs, from, n, onset);
    DropStep(inputs, from, n, After(inputs, n), onset);
  }

  /** Between two stored drops there is always a stored spike. */
  lemma DropsSeparatedBySpike(inputs: seq<Input>, i: nat, j: nat) returns (k: nat)
    requires i < j < |inputs| && Drops(inputs, i) && Drops(inputs, j)
    ensures i < k < j && ActionAt(inputs, k).SpikeAttempt? && ActionAt(inputs, k).saved
  {
    IncidentStep(After(inputs, i), inputs[i]);
    IncidentStep(After(inputs, j), inputs[j]);
    k := OpenIncidentHistory(inputs, j, After(inputs, j).openedBy.value);
    assert After(inputs, i + 1).openedBy.None?;
  }
}
