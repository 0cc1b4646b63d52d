/**
 * The state the daemon keeps per host: counters instead of probes. Every tick does what
 * the probe-remembering machine of SpikeSpec does.
 */
module SpikeMonitor {
  import opened Common
  import opened SpikeSpec
  import opened RealArithmetic

  datatype Sample = Sample(at: int, count: nat)

  /** Activity trigger settings in force for one tick. */
  datatype Trigger = Trigger(
    enabled: bool, windowSize: int, activeThresholdPct: nat, spikeDuration: int, recoveryDuration: int,
    minBaselineActive: int, maxFrequency: int)

  /** What a tick stored or tried to store, with what the snapshot reports. */
  datatype Fired =
    | NoSnapshot
    | SpikeSnapshot(peak: nat, coverage: real, saved: bool)
    | DropSnapshot(saved: bool)

  // ----- the moving baseline

  function Trim(samples: seq<Sample>, cutoff: int): seq<Sample> {
    if samples != [] && samples[0].at < cutoff then Trim(samples[1..], cutoff) else samples
  }

  function Sum(samples: seq<Sample>): int {
    if samples == [] then 0 else Sum(samples[..|samples| - 1]) + samples[|samples| - 1].count
  }

  /** Average of all but the latest sample. */
  function Baseline(samples: seq<Sample>): real {
    if |samples| <= 1 then 0.0 else Sum(samples[..|samples| - 1]) as real / (|samples| - 1) as real
  }

  function Threshold(baseline: real, pct: nat): real {
    baseline * (100 + pct) as real / 100.0
  }

  /** What the tick amounts to for the remembering machine. */
  function InputOf(t: Trigger, samples: seq<Sample>, now: int, count: nat, debounced: bool, saved: bool): Input {
    Input(Probe(now, count, Threshold(Baseline(samples), t.activeThresholdPct), t.spikeDuration),
          Baseline(samples) < t.minBaselineActive as real, t.recoveryDuration, debounced, saved)
  }

  lemma {:induction false} SumConcat(a: seq<Sample>, b: seq<Sample>)
    ensures Sum(a + b) == Sum(a) + Sum(b)
    ensures |b| == 1 ==> Sum(b) == b[0].count
  {
    if b == [] {
      assert a + b == a;
    } else {
      SumConcat(a, b[..|b| - 1]);
      assert (a + b)[..|a + b| - 1] == a + b[..|b| - 1];
      assert |b| == 1 ==> b[..0] == [];
    }
  }

  lemma {:induction false} SteadySum(samples: seq<Sample>, c: nat)
    requires forall k :: 0 <= k < |samples| ==> samples[k].count == c
    ensures Sum(samples) == |samples| * c
  {
    if samples != [] {
      SteadySum(samples[..|samples| - 1], c);
    }
  }

  lemma Crossed(sum: int, d: nat, pct: nat, count: nat)
    requires d > 0
    ensures count as real >= Threshold(sum as real / d as real, pct) <==> 100 * d * count >= (100 + pct) * sum
  {
    var b := sum as real / d as real;
    assert b * d as real == sum as real;
    var f := (100 + pct) as real;
    assert 100.0 * Threshold(b, pct) == b * f;
    Scaled(count as real * 100.0, b * f, d as real);
    assert b * f * d as real == sum as real * f;
    assert (100 * d * count) as real == count as real * 100.0 * d as real;
    assert ((100 + pct) * sum) as real == sum as real * f;
  }

  lemma Scaled(x: real, y: real, d: real)
    requires d > 0.0
    ensures x >= y <==> x * d >= y * d
  {
    if x < y {
      ProductStrict(x, y, d);
    } else {
      ProductMonotone(y, x, d);
    }
  }

  lemma Floored(sum: int, d: nat, floor: int)
    requires d > 0
    ensures sum as real / d as real < floor as real <==> sum < floor * d
  {
    var b := sum as real / d as real;
    assert b * d as real == sum as real;
    Scaled(b, floor as real, d as real);
    assert (floor * d) as real == floor as real * d as real;
  }

  predicate TickSays(i: Input, t: Trigger, samples: seq<Sample>, now: int, count: nat)
    requires |samples| >= 2
  {
    var sum, d := Sum(samples[..|samples| - 1]), |samples| - 1;
    && i.probe.at == now && i.probe.count == count && i.probe.spikeDuration == t.spikeDuration && i.recoveryDuration == t.recoveryDuration
    && (Above(i.probe) <==> 100 * d * count >= (100 + t.activeThresholdPct) * sum)
    && (i.belowFloor <==> sum < t.minBaselineActive * d)
  }

  /**
   * A tick in whole numbers: with n samples in the window, the last one being the probe,
   * the probe counts as above when it exceeds the mean of the others by at least pct
   * percent, and as below the floor when that mean is under the configured minimum.
   */
  lemma TickInNumbers(t: Trigger, samples: seq<Sample>, now: int, count: nat, debounced: bool, saved: bool)
    requires |samples| >= 2
    ensures TickSays(InputOf(t, samples, now, count, debounced, saved), t, samples, now, count)
  {
    var sum, d := Sum(samples[..|samples| - 1]), |samples| - 1;
    Crossed(sum, d, t.activeThresholdPct, count);
    Floored(sum, d, t.minBaselineActive);
  }

  /** A load that does not change is never above its own mean. */
  lemma SteadyIsNotAbove(t: Trigger, samples: seq<Sample>, now: int, c: nat, debounced: bool, saved: bool)
    requires |samples| >= 2 && c > 0 && t.activeThresholdPct > 0 && forall k :: 0 <= k < |samples| ==> samples[k].count == c
    ensures !Above(InputOf(t, samples, now, c, debounced, saved).probe)
  {
    var d := |samples| - 1;
    TickInNumbers(t, samples, now, c, debounced, saved);
    SteadySum(samples[..d], c);
    SteadyBelow(d, c, t.activeThresholdPct);
  }

  lemma SteadyBelow(d: nat, c: nat, pct: int)
    requires d > 0 && c > 0 && pct > 0
    ensures 100 * d * c < (100 + pct) * (d * c)
  {
    var sum := d * c;
    assert sum > 0 && 100 * d * c == 100 * sum;
    assert (100 + pct) * sum == 100 * sum + pct * sum;
  }

  /** The samples after a poll: those within the window, the new one last. */
  function Window(samples: seq<Sample>, t: Trigger, probed: Option<nat>, now: int): seq<Sample> {
    if t.enabled && probed.Some? then Trim(samples + [Sample(now, probed.value)], now - t.windowSize) else samples
  }

  /** Any stored snapshot starts the debounce anew. */
  function DebounceAfter(fired: Fired, saved: Option<int>, before: Option<int>): Option<int> {
    if fired.NoSnapshot? || saved.None? then before else saved
  }

  /** The snapshot says what the remembered probes say. */
  predicate Reports(fired: Fired, a: Action) {
    match a
    case Quiet => fired == NoSnapshot
    case SpikeAttempt(ps, saved) => fired == SpikeSnapshot(Peak(ps), Coverage(ps), saved)
    case DropAttempt(_, _, saved) => fired == DropSnapshot(saved)
  }

  /** Of samples in time order exactly those at or after the cutoff are kept. */
  lemma {:induction false} TrimKeeps(samples: seq<Sample>, cutoff: int)
    requires forall i, j :: 0 <= i < j < |samples| ==> samples[i].at <= samples[j].at
    ensures var r := Trim(samples, cutoff);
      var cut := |samples| - |r|;
      && 0 <= cut <= |samples| && r == samples[cut..]
      && forall i :: 0 <= i < |samples| ==> (i >= cut <==> samples[i].at >= cutoff)
  {
    if samples != [] && samples[0].at < cutoff {
      TrimKeeps(samples[1..], cutoff);
      var r := Trim(samples, cutoff);
      var cut := |samples| - |r|;
      assert r == samples[1..][cut - 1..];
      forall i | 0 <= i < |samples|
        ensures i >= cut <==> samples[i].at >= cutoff
      {
        assert i > 0 ==> samples[1..][i - 1] == samples[i];
      }
    }
  }

  method TrimSamples(samples: seq<Sample>, cutoff: int) returns (r: seq<Sample>)
    ensures r == Trim(samples, cutoff)
  {
    var i := 0;
    while i < |samples| && samples[i].at < cutoff
      invariant 0 <= i <= |samples| && Trim(samples[i..], cutoff) == Trim(samples, cutoff)
    {
      assert samples[i..][1..] == samples[i + 1..];
      i := i + 1;
    }
    r := samples[i..];
  }

  method AverageExcludingLast(samples: seq<Sample>) returns (r: real)
    ensures r == Baseline(samples)
  {
    if |samples| <= 1 {
      return 0.0;
    }
    var sum := 0;
    var rest := samples[..|samples| - 1];
    for i := 0 to |rest|
      invariant sum == Sum(rest[..i])
    {
      assert rest[..i + 1][..i] == rest[..i];
      sum := sum + rest[i].count;
    }
    assert rest[..|rest|] == rest;
    r := sum as real / (|samples| - 1) as real;
  }

  const MIN_COVERAGE := 0.7

  function Coverage(ps: seq<Probe>): real {
    if ps == [] then 0.0 else CountAbove(ps) as real / |ps| as real
  }

  lemma CoverageIsDensity(ps: seq<Probe>)
    requires ps != []
    ensures Coverage(ps) >= MIN_COVERAGE <==> Dense(ps)
  {
    QuotientCompare(CountAbove(ps) as real, |ps| as real, MIN_COVERAGE);
  }

  lemma {:induction false} OpensAbove(c: seq<Probe>)
    requires c != [] && Above(c[0])
    ensures LastAbove(c).Some?
  {
    if |c| > 1 {
      OpensAbove(c[..|c| - 1]);
    }
  }

  lemma AddProbe(c: seq<Probe>, p: Probe)
    ensures CountAbove(c + [p]) == CountAbove(c) + (if Above(p) then 1 else 0)
    ensures Peak(c + [p]) == if Above(p) && p.count > Peak(c) then p.count else Peak(c)
    ensures LastAbove(c + [p]) == if Above(p) then Some(p) else LastAbove(c)
  {
    assert (c + [p])[..|c|] == c;
  }

  /** What a tick comes to once the candidate has advanced. */
  lemma StepWhenAborted(m: Model, i: Input)
    requires i.belowFloor || Advance(m.candidate, i.probe).0 == Aborted
    ensures Step(m, i) == Recover(m.(candidate := []), i)
  {
  }

  lemma StepAfterAdvance(m: Model, i: Input, progress: Progress, c: seq<Probe>)
    requires !i.belowFloor && (progress, c) == Advance(m.candidate, i.probe) && progress != Aborted
    ensures c != [] && (if progress == Started then c[0] == i.probe else m.candidate != [] && c[0] == m.candidate[0])
    ensures progress == Started ==> Step(m, i) == (Model(c, m.openedBy, []), Quiet)
    ensures progress == Forming ==> Step(m, i) == Form(Model(c, m.openedBy, []), i)
  {
  }

  class HostState {
    var windowSamples: seq<Sample>
    var aboveThresholdSince: Option<int>
    var lastAboveAt: Option<int>
    var spikeAbove: nat
    var spikeTotal: nat
    var spikePeak: nat
    var inSpike: bool
    var recoveryBelowSince: Option<int>
    var spikeThreshold: real
    /** The debounce entry of this host. */
    var lastAuto: Option<int>

    ghost var candidate: seq<Probe>
    ghost var openedBy: Option<Probe>
    ghost var below: seq<Probe>
    ghost function View(): Model
      reads this
    {
      Model(candidate, openedBy, below)
    }

    /** The counters summarise the candidate. */
    ghost predicate CandidateKept()
      reads this`aboveThresholdSince, this`lastAboveAt, this`spikeAbove, this`spikeTotal, this`spikePeak, this`candidate
    {
      && aboveThresholdSince == (if candidate == [] then None else Some(candidate[0].at))
      && lastAboveAt == (if LastAbove(candidate).Some? then Some(LastAbove(candidate).value.at) else None)
      && spikeAbove == CountAbove(candidate) && spikeTotal == |candidate| && spikePeak == Peak(candidate)
      && (candidate != [] ==> Above(candidate[0]))
    }

    ghost predicate IncidentKept()
      reads this`inSpike, this`openedBy, this`spikeThreshold
    {
      (inSpike <==> openedBy.Some?) && (openedBy.Some? ==> spikeThreshold == openedBy.value.threshold)
    }

    /** The frozen threshold belongs to the open incident, or else to the running candidate. */
    ghost predicate Valid()
      reads this
    {
      && CandidateKept() && IncidentKept()
      && (openedBy.None? && candidate != [] ==> spikeThreshold == candidate[0].threshold)
      && recoveryBelowSince == (if below == [] then None else Some(below[0].at))
    }

    constructor (restored: Option<int>)
      ensures Valid() && View() == IDLE && windowSamples == [] && lastAuto == restored
    {
      windowSamples := [];
      aboveThresholdSince, lastAboveAt, spikeAbove, spikeTotal, spikePeak := None, None, 0, 0, 0;
      inSpike, recoveryBelowSince, spikeThreshold, lastAuto := false, None, 0.0, restored;
      candidate, openedBy, below := [], None, [];
    }

    method ResetSpike()
      modifies this`aboveThresholdSince, this`lastAboveAt, this`spikeAbove, this`spikeTotal, this`spikePeak, this`candidate
      ensures CandidateKept() && candidate == []
    {
      aboveThresholdSince, lastAboveAt := None, None;
      spikeAbove, spikeTotal, spikePeak := 0, 0, 0;
      candidate := [];
    }

    /** A tolerated dip only counts as a probe. */
    method CountDip(ghost p: Probe)
      requires CandidateKept() && candidate != [] && !Above(p)
      modifies this`spikeTotal, this`candidate
      ensures CandidateKept() && candidate == old(candidate) + [p]
    {
      AddProbe(candidate, p);
      spikeTotal := spikeTotal + 1;
      candidate := candidate + [p];
    }

    /** A probe at or above the threshold opens a candidate or belongs to the running one. */
    method CountAboveThreshold(now: int, count: nat, ghost p: Probe) returns (step: Progress)
      requires CandidateKept() && Above(p) && p.at == now && p.count == count
      modifies this`aboveThresholdSince, this`lastAboveAt, this`spikeAbove, this`spikeTotal, this`spikePeak, this`candidate
      ensures CandidateKept() && candidate == old(candidate) + [p]
      ensures step == if old(candidate) == [] then Started else Forming
    {
      AddProbe(candidate, p);
      lastAboveAt := Some(now);
      spikeAbove := spikeAbove + 1;
      spikeTotal := spikeTotal + 1;
      if count > spikePeak {
        spikePeak := count;
      }
      candidate := candidate + [p];
      if aboveThresholdSince.None? {
        aboveThresholdSince := Some(now);
        return Started;
      }
      return Forming;
    }

    /** Folds one probe into the forming candidate. */
    method AdvanceSpike(now: int, count: nat, threshold: real, spikeDuration: int) returns (step: Progress)
      requires CandidateKept()
      modifies this`aboveThresholdSince, this`lastAboveAt, this`spikeAbove, this`spikeTotal, this`spikePeak, this`candidate
      ensures CandidateKept()
      ensures (step, candidate) == Advance(old(candidate), Probe(now, count, threshold, spikeDuration))
    {
      ghost var p := Probe(now, count, threshold, spikeDuration);
      if aboveThresholdSince.Some? && now - aboveThresholdSince.value > STALE_FACTOR * spikeDuration {
        ResetSpike();
      }
      if candidate != [] {
        OpensAbove(candidate);
      }
      if (count as real) < threshold {
        if aboveThresholdSince.None? || lastAboveAt.None? || now - lastAboveAt.value > Grace(spikeDuration) {
          ResetSpike();
          return Aborted;
        }
        CountDip(p);
        return Forming;
      }
      step := CountAboveThreshold(now, count, p);
    }

    method SpikeCoverage() returns (r: real)
      requires CandidateKept()
      ensures r == Coverage(candidate) && (candidate != [] ==> (r >= MIN_COVERAGE <==> Dense(candidate)))
    {
      if candidate != [] {
        CoverageIsDensity(candidate);
      }
      if spikeTotal == 0 {
        return 0.0;
      }
      return spikeAbove as real / spikeTotal as real;
    }

    predicate Debounced(maxFrequency: int, at: int)
      reads this
    {
      lastAuto.Some? && at - lastAuto.value < maxFrequency
    }

    /** saved is when the snapshot was stored, None when taking it failed. */
    method TakeSnapshot(saved: Option<int>) returns (ok: bool)
      modifies this`lastAuto
      ensures ok == saved.Some? && lastAuto == if saved.Some? then saved else old(lastAuto)
    {
      if saved.None? {
        return false;
      }
      lastAuto := saved;
      return true;
    }

    /**
     * Takes one drop snapshot after a long enough stretch below the frozen threshold.
     * i is the tick as the remembering machine sees it.
     */
    method HandleRecovery(recoveryDuration: int, now: int, count: nat, saved: Option<int>, ghost i: Input)
      returns (fired: Fired, ghost a: Action)
      requires Valid() && candidate == []
      requires i.probe.at == now && i.probe.count == count && i.recoveryDuration == recoveryDuration
      requires i.saved == saved.Some?
      modifies this`inSpike, this`recoveryBelowSince, this`openedBy, this`below, this`lastAuto
      ensures Valid() && (View(), a) == Recover(old(View()), i) && Reports(fired, a)
      ensures lastAuto == DebounceAfter(fired, saved, old(lastAuto))
    {
      fired, a := NoSnapshot, Quiet;
      if recoveryDuration <= 0 {
        inSpike, recoveryBelowSince := false, None;
        openedBy, below := None, [];
        return;
      }
      if !inSpike {
        recoveryBelowSince, below := None, [];
        return;
      }
      if count as real >= spikeThreshold {
        recoveryBelowSince, below := None, [];
        return;
      }
      if recoveryBelowSince.None? {
        recoveryBelowSince, below := Some(now), below + [i.probe];
        return;
      }
      if now - recoveryBelowSince.value < recoveryDuration {
        below := below + [i.probe];
        return;
      }
      a := DropAttempt(below + [i.probe], spikeThreshold, saved.Some?);
      below := [];
      var ok := TakeSnapshot(saved);
      fired := DropSnapshot(ok);
      if !ok {
        recoveryBelowSince := None;
        return;
      }
      inSpike, recoveryBelowSince := false, None;
      openedBy := None;
    }

    /**
     * Fires a forming candidate that is old enough, dense enough and not debounced.
     * later is the clock when the debounce is checked.
     */
    method FireIfDue(t: Trigger, now: int, later: int, saved: Option<int>, ghost i: Input)
      returns (fired: Fired, ghost a: Action)
      requires Valid() && candidate != [] && below == []
      requires i.probe.at == now && i.probe.spikeDuration == t.spikeDuration
      requires i.debounced == Debounced(t.maxFrequency, later) && i.saved == saved.Some?
      modifies this
      ensures Valid() && (View(), a) == Form(old(View()), i) && Reports(fired, a)
      ensures windowSamples == old(windowSamples)
      ensures lastAuto == DebounceAfter(fired, saved, old(lastAuto))
    {
      fired, a := NoSnapshot, Quiet;
      if now - aboveThresholdSince.value < t.spikeDuration {
        return;
      }
      var coverage := SpikeCoverage();
      if coverage < MIN_COVERAGE {
        return;
      }
      if Debounced(t.maxFrequency, later) {
        return;
      }
      a := SpikeAttempt(candidate, saved.Some?);
      var peak := spikePeak;
      var ok := TakeSnapshot(saved);
      fired := SpikeSnapshot(peak, coverage, ok);
      ghost var onset := candidate[0];
      ResetSpike();
      if !ok {
        return;
      }
      inSpike, recoveryBelowSince := true, None;
      openedBy := if openedBy.Some? then openedBy else Some(onset);
    }

    /** A running candidate ends the recovery stretch; its onset freezes the threshold, later probes may fire it. */
    method Grow(step: Progress, t: Trigger, now: int, later: int, threshold: real, saved: Option<int>, ghost i: Input)
      returns (fired: Fired, ghost a: Action)
      requires CandidateKept() && IncidentKept() && candidate != [] && step != Aborted
      requires step == Started ==> candidate[0].threshold == threshold
      requires step == Forming && openedBy.None? ==> candidate[0].threshold == spikeThreshold
      requires i.probe.at == now && i.probe.spikeDuration == t.spikeDuration
      requires i.debounced == Debounced(t.maxFrequency, later) && i.saved == saved.Some?
      modifies this
      ensures Valid() && Reports(fired, a) && windowSamples == old(windowSamples)
      ensures var m := Model(old(candidate), old(openedBy), []);
        (View(), a) == if step == Started then (m, Quiet) else Form(m, i)
      ensures lastAuto == DebounceAfter(fired, saved, old(lastAuto))
    {
      fired, a := NoSnapshot, Quiet;
      recoveryBelowSince, below := None, [];
      if step == Started {
        if !inSpike {
          spikeThreshold := threshold;
        }
        return;
      }
      fired, a := FireIfDue(t, now, later, saved, i);
    }

    /** What a poll with enough samples does. */
    method Judge(t: Trigger, now: int, later: int, count: nat, baseline: real, threshold: real, saved: Option<int>,
        ghost i: Input)
      returns (fired: Fired, ghost a: Action)
      requires Valid()
      requires i.probe == Probe(now, count, threshold, t.spikeDuration)
      requires i.belowFloor == (baseline < t.minBaselineActive as real) && i.recoveryDuration == t.recoveryDuration
      requires i.debounced == Debounced(t.maxFrequency, later) && i.saved == saved.Some?
      modifies this
      ensures Valid() && (View(), a) == Step(old(View()), i) && Reports(fired, a)
      ensures windowSamples == old(windowSamples)
      ensures lastAuto == DebounceAfter(fired, saved, old(lastAuto))
    {
      fired, a := NoSnapshot, Quiet;
      if baseline < t.minBaselineActive as real {
        StepWhenAborted(View(), i);
        ResetSpike();
        fired, a := HandleRecovery(t.recoveryDuration, now, count, saved, i);
        return;
      }
      var step := AdvanceSpike(now, count, threshold, t.spikeDuration);
      if step == Aborted {
        StepWhenAborted(old(View()), i);
        fired, a := HandleRecovery(t.recoveryDuration, now, count, saved, i);
        return;
      }
      StepAfterAdvance(old(View()), i, step, candidate);
      fired, a := Grow(step, t, now, later, threshold, saved, i);
    }

    /** One poll of the host; probed is the number of active connections, None when the probe failed. */
    method TickActivitySpike(t: Trigger, probed: Option<nat>, now: int, later: int, saved: Option<int>)
      returns (fired: Fired, ghost i: Option<Input>, ghost a: Action)
      requires Valid()
      modifies this
      ensures Valid() && Reports(fired, a)
      ensures i.Some? <==> t.enabled && probed.Some? && |windowSamples| >= 2
      ensures windowSamples == Window(old(windowSamples), t, probed, now)
      ensures i.Some? ==> i.value == InputOf(t, windowSamples, now, probed.value, i.value.debounced, saved.Some?)
      ensures i.Some? ==> i.value.debounced == (old(lastAuto).Some? && later - old(lastAuto).value < t.maxFrequency)
      ensures i.Some? ==> TickSays(i.value, t, windowSamples, now, probed.value)
      ensures if i.Some? then (View(), a) == Step(old(View()), i.value) else View() == old(View()) && a.Quiet?
      ensures lastAuto == DebounceAfter(fired, saved, old(lastAuto))
    {
      fired, i, a := NoSnapshot, None, Quiet;
      if !t.enabled {
        return;
      }
      if probed.None? {
        return;
      }
      var count := probed.value;
      windowSamples := TrimSamples(windowSamples + [Sample(now, count)], now - t.windowSize);
      if |windowSamples| < 2 {
        return;
      }
      var baseline := AverageExcludingLast(windowSamples);
      var threshold := Threshold(baseline, t.activeThresholdPct);
      ghost var input := InputOf(t, windowSamples, now, count, Debounced(t.maxFrequency, later), saved.Some?);
      i := Some(input);
      TickInNumbers(t, windowSamples, now, count, input.debounced, input.saved);
      fired, a := Judge(t, now, later, count, baseline, threshold, saved, input);
    }
  }

  /** A snapshot attempted in state m is justified by the probes it reports. */
  predicate AttemptOk(m: Model, a: Action) {
    && (a.SpikeAttempt? ==> Justified(a.probes))
    && (a.DropAttempt? ==> m.openedBy.Some? && a.threshold == m.openedBy.value.threshold && StaysBelow(a.probes, a.threshold))
  }

  lemma AttemptsJustified(inputs: seq<Input>, i: Input)
    ensures AttemptOk(After(inputs, |inputs|), Step(After(inputs, |inputs|), i).1)
  {
    var m := After(inputs, |inputs|);
    RunKeepsInv(inputs, |inputs|);
    if Step(m, i).1.SpikeAttempt? {
      AttemptJustified(m, i);
    }
    if Step(m, i).1.DropAttempt? {
      DropShape(m, i);
    }
  }

  /** One more tick: where it leads, what it does, and that it may do it. */
  lemma TickExtends(inputs: seq<Input>, i: Input, m: Model, m': Model, a: Action)
    requires m == After(inputs, |inputs|) && (m', a) == Step(m, i)
    ensures m' == After(inputs + [i], |inputs| + 1) && a == ActionAt(inputs + [i], |inputs|) && AttemptOk(m, a)
  {
    AfterAppend(inputs, i);
    AttemptsJustified(inputs, i);
  }

  /** A host from its first poll on: whatever is polled, its state is where the evaluated ticks lead. */
  class Watch {
    const host: HostState
    ghost var ticks: seq<Input>

    ghost predicate Valid()
      reads this, host
    {
      host.Valid() && host.View() == After(ticks, |ticks|)
    }

    constructor (restored: Option<int>)
      ensures Valid() && fresh(host) && ticks == []
    {
      host := new HostState(restored);
      ticks := [];
    }

    /** tick is the poll as the remembering machine sees it, none when there was nothing to evaluate. */
    method Poll(t: Trigger, probed: Option<nat>, now: int, later: int, saved: Option<int>)
      returns (fired: Fired, ghost tick: Option<Input>, ghost a: Action)
      requires Valid()
      modifies this, host
      ensures Valid() && Reports(fired, a) && AttemptOk(old(host.View()), a)
      ensures tick.None? ==> ticks == old(ticks) && a.Quiet?
      ensures tick.Some? ==> ticks == old(ticks) + [tick.value] && a == ActionAt(ticks, |old(ticks)|)
      ensures host.windowSamples == Window(old(host.windowSamples), t, probed, now)
      ensures tick.Some? ==> Evaluates(tick.value, t, host.windowSamples, probed, now, saved)
    {
      ghost var m := host.View();
      fired, tick, a := host.TickActivitySpike(t, probed, now, later, saved);
      if tick.Some? {
        TickExtends(ticks, tick.value, m, host.View(), a);
        ticks := ticks + [tick.value];
      }
    }

    /** Polls one after the other. */
    method PollAll(polls: seq<Poll>) returns (fired: seq<Fired>)
      requires Valid() && ticks == [] && host.windowSamples == []
      modifies this, host
      ensures Valid() && |fired| == |polls|
      ensures forall c :: c > 0 && Steady(polls, c) ==> forall k :: 0 <= k < |fired| ==> !fired[k].SpikeSnapshot?
    {
      fired := [];
      for n := 0 to |polls|
        invariant Valid() && |fired| == n
        invariant forall c :: c > 0 && Steady(polls, c) ==> AllAt(host.windowSamples, c) && NoneAbove(ticks) && NoSpikes(fired)
      {
        var p := polls[n];
        ghost var samples, before := host.windowSamples, ticks;
        var f;
        ghost var tick, a;
        f, tick, a := Poll(p.t, p.probed, p.now, p.later, p.saved);
        forall c | c > 0 && Steady(polls, c)
          ensures AllAt(host.windowSamples, c) && NoneAbove(ticks) && NoSpikes(fired + [f])
        {
          assert SteadyPoll(p, c);
          WindowStays(samples, p, c);
          SteadyTick(before, ticks, host.windowSamples, p, c, tick, a, f);
        }
        fired := fired + [f];
      }
    }
  }

  /** i is this probe against these samples. */
  predicate Evaluates(i: Input, t: Trigger, samples: seq<Sample>, probed: Option<nat>, now: int, saved: Option<int>) {
    probed.Some? && |samples| >= 2 && i == InputOf(t, samples, now, probed.value, i.debounced, saved.Some?)
  }

  /** What one poll is given. */
  datatype Poll = Poll(t: Trigger, probed: Option<nat>, now: int, later: int, saved: Option<int>)

  /** Sees c connections, or fails, and asks for more than the mean. */
  predicate SteadyPoll(p: Poll, c: nat) {
    (p.probed == None || p.probed == Some(c)) && p.t.activeThresholdPct > 0
  }

  predicate Steady(polls: seq<Poll>, c: nat) {
    forall k :: 0 <= k < |polls| ==> SteadyPoll(polls[k], c)
  }

  predicate AllAt(samples: seq<Sample>, c: nat) {
    forall k :: 0 <= k < |samples| ==> samples[k].count == c
  }

  predicate NoneAbove(inputs: seq<Input>) {
    forall k :: 0 <= k < |inputs| ==> inputs[k].belowFloor || !Above(inputs[k].probe)
  }

  predicate NoSpikes(fired: seq<Fired>) {
    forall k :: 0 <= k < |fired| ==> !fired[k].SpikeSnapshot?
  }

  lemma {:induction false} TrimIsPart(samples: seq<Sample>, cutoff: int, c: nat)
    requires AllAt(samples, c)
    ensures AllAt(Trim(samples, cutoff), c)
  {
    if samples != [] && samples[0].at < cutoff {
      TrimIsPart(samples[1..], cutoff, c);
    }
  }

  lemma WindowStays(samples: seq<Sample>, p: Poll, c: nat)
    requires AllAt(samples, c) && SteadyPoll(p, c)
    ensures AllAt(Window(samples, p.t, p.probed, p.now), c)
  {
    if p.t.enabled && p.probed.Some? {
      TrimIsPart(samples + [Sample(p.now, c)], p.now - p.t.windowSize, c);
    }
  }

  lemma SteadyTick(before: seq<Input>, ticks: seq<Input>, samples: seq<Sample>, p: Poll, c: nat, tick: Option<Input>, a: Action, f: Fired)
    requires c > 0 && NoneAbove(before) && AllAt(samples, c) && SteadyPoll(p, c) && Reports(f, a)
    requires if tick.None? then ticks == before && a.Quiet? else ticks == before + [tick.value] && a == ActionAt(ticks, |before|)
    requires tick.Some? ==> Evaluates(tick.value, p.t, samples, p.probed, p.now, p.saved)
    ensures NoneAbove(ticks) && !f.SpikeSnapshot?
  {
    if tick.Some? {
      SteadyIsNotAbove(p.t, samples, p.now, c, tick.value.debounced, p.saved.Some?);
      NeverAboveNeverFires(ticks, |before|);
    }
  }
}
