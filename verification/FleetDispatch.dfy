/**
 * The dispatch loop that scores a plan over a shared pool of slots while the candidates'
 * metrics are still being read. A schedule interleaves the actions of the dispatcher, its
 * workers, the metrics read, the clock and the other users of the pool in any order; an
 * action that is not enabled leaves the state as it is, so every sequence is a schedule.
 */
module FleetDispatch {
  import opened Common
  import opened FleetTargets
  import Sorting

  /** A metrics reading, by identity. */
  type Raw = int

  datatype Item = Item(target: Target, score: Option<real>, uncomputed: bool)

  datatype Plan = Plan(cands: seq<Target>, sqlOnly: seq<Target>, capacity: nat)

  /** What a worker was given: None stands for no metrics. */
  datatype Job = Job(target: Target, pre: Option<Raw>)

  datatype Pc = Acquire | Holding | Waiting | Draining | Returned

  datatype Outcome = Scored(score: real) | Failed | OutOfBudget

  /**
   * channel is the buffered result of the metrics read and slots the fill of the pool,
   * others of them held by other computations. starts and writes count per row.
   */
  datatype State = State(
    pc: Pc, ci: nat, si: nat, pending: bool, got: map<Target, Raw>,
    sent: bool, channel: Option<map<Target, Raw>>, cancelled: bool,
    running: map<nat, Job>, items: seq<Item>, starts: seq<nat>, writes: seq<nat>,
    slots: int, others: nat)

  datatype Action =
    | TakeSlot
    | GiveUp
    | EndLoop
    | Dispatch
    | Receive
    | StopWaiting
    | Drain
    | Finish(i: nat, outcome: Outcome)
    | ReaderSends(raws: map<Target, Raw>)
    | Cancel
    | OthersTake
    | OthersGive

  function Queue(p: Plan): seq<Target> {
    p.cands + p.sqlOnly
  }

  function Uncomputed(t: Target): Item {
    Item(t, None, true)
  }

  function Begin(p: Plan, others: nat): State {
    State(Acquire, 0, 0, p.cands != [], map[], false, None, false, map[],
          seq(|Queue(p)|, i requires 0 <= i < |Queue(p)| => Uncomputed(Queue(p)[i])),
          seq(|Queue(p)|, _ => 0), seq(|Queue(p)|, _ => 0), others, others)
  }

  predicate More(p: Plan, s: State) {
    s.ci < |p.cands| || s.si < |p.sqlOnly|
  }

  function Lookup(got: map<Target, Raw>, t: Target): Option<Raw> {
    if t in got then Some(got[t]) else None
  }

  function Bump(counts: seq<nat>, i: nat): seq<nat> {
    if i < |counts| then counts[i := counts[i] + 1] else counts
  }

  function Start(s: State, i: nat, job: Job): State {
    s.(pc := Acquire, running := s.running[i := job], starts := Bump(s.starts, i))
  }

  /** The metrics are in if the channel holds them. */
  function Poll(s: State): State {
    if s.pending && s.channel.Some? then s.(pending := false, got := s.channel.value, channel := None) else s
  }

  /** With a slot in hand: candidates first once their metrics are in, else a snapshot-only instance, else wait. */
  function Dispatched(p: Plan, s: State): State {
    if !s.pending && s.ci < |p.cands| then
      Start(s, s.ci, Job(p.cands[s.ci], Lookup(s.got, p.cands[s.ci]))).(ci := s.ci + 1)
    else if s.si < |p.sqlOnly| then
      Start(s, |p.cands| + s.si, Job(p.sqlOnly[s.si], None)).(si := s.si + 1)
    else s.(pc := Waiting, slots := s.slots - 1)
  }

  function Row(job: Job, outcome: Outcome): Item {
    match outcome
    case Scored(score) => Item(job.target, Some(score), false)
    case Failed => Item(job.target, None, false)
    case OutOfBudget => Uncomputed(job.target)
  }

  /** The worker writes its row in place and frees its slot; it runs out of budget only after the budget ended. */
  function Finished(s: State, i: nat, outcome: Outcome): State {
    if i in s.running && i < |s.items| && (outcome == OutOfBudget ==> s.cancelled) then
      s.(items := s.items[i := Row(s.running[i], outcome)], running := s.running - {i},
         writes := Bump(s.writes, i), slots := s.slots - 1)
    else s
  }

  function Next(p: Plan, s: State, a: Action): State {
    match a
    case TakeSlot =>
      if s.pc == Acquire && More(p, s) && s.slots < p.capacity then s.(pc := Holding, slots := s.slots + 1) else s
    case GiveUp => if s.pc == Acquire && More(p, s) && s.cancelled then s.(pc := Draining) else s
    case EndLoop => if s.pc == Acquire && !More(p, s) then s.(pc := Draining) else s
    case Dispatch => if s.pc == Holding then Dispatched(p, Poll(s)) else s
    case Receive => if s.pc == Waiting && s.channel.Some? then Poll(s).(pc := Acquire) else s
    case StopWaiting => if s.pc == Waiting && s.cancelled then s.(pc := Draining) else s
    case Drain => if s.pc == Draining && s.running == map[] then s.(pc := Returned) else s
    case Finish(i, outcome) => Finished(s, i, outcome)
    case ReaderSends(raws) => if p.cands != [] && !s.sent then s.(sent := true, channel := Some(raws)) else s
    case Cancel => s.(cancelled := true)
    case OthersTake => if s.slots < p.capacity then s.(others := s.others + 1, slots := s.slots + 1) else s
    case OthersGive => if s.others > 0 then s.(others := s.others - 1, slots := s.slots - 1) else s
  }

  function After(p: Plan, others: nat, run: seq<Action>, n: nat): State
    requires n <= |run|
  {
    if n == 0 then Begin(p, others) else Next(p, After(p, others, run, n - 1), run[n - 1])
  }

  lemma {:induction false} AfterPrefix(p: Plan, others: nat, run: seq<Action>, a: Action, n: nat)
    requires n <= |run|
    ensures After(p, others, run + [a], n) == After(p, others, run, n)
  {
    if n > 0 {
      AfterPrefix(p, others, run, a, n - 1);
    }
  }

  lemma AfterAppend(p: Plan, others: nat, run: seq<Action>, a: Action)
    ensures After(p, others, run + [a], |run| + 1) == Next(p, After(p, others, run, |run|), a)
  {
    AfterPrefix(p, others, run, a, |run|);
  }

  // ----- the invariant

  predicate HasStarted(p: Plan, s: State, i: nat) {
    i < s.ci || |p.cands| <= i < |p.cands| + s.si
  }

  /** Every row belongs to its target; it is started once, written once, and only by its own worker. */
  predicate RowOk(p: Plan, s: State, i: nat)
    requires i < |Queue(p)| && |s.items| == |s.starts| == |s.writes| == |Queue(p)|
  {
    && s.items[i].target == Queue(p)[i]
    && s.starts[i] == (if HasStarted(p, s, i) then 1 else 0)
    && s.writes[i] == (if HasStarted(p, s, i) && i !in s.running then 1 else 0)
    && (s.writes[i] == 0 ==> s.items[i] == Uncomputed(Queue(p)[i]))
    && (s.writes[i] == 1 && s.items[i].uncomputed ==> s.cancelled)
  }

  predicate RowsOk(p: Plan, s: State) {
    && s.ci <= |p.cands| && s.si <= |p.sqlOnly|
    && |s.items| == |Queue(p)| && |s.starts| == |Queue(p)| && |s.writes| == |Queue(p)|
    && forall i :: 0 <= i < |Queue(p)| ==> RowOk(p, s, i)
  }

  function JobOf(p: Plan, got: map<Target, Raw>, i: nat): Job
    requires i < |Queue(p)|
  {
    Job(Queue(p)[i], if i < |p.cands| then Lookup(got, Queue(p)[i]) else None)
  }

  /** A worker has its own target, with the metrics read for it when it is a candidate. */
  predicate JobsOk(p: Plan, s: State) {
    && (forall i :: i in s.running ==> i < |Queue(p)| && HasStarted(p, s, i))
    && forall i :: i in s.running ==> s.running[i] == JobOf(p, s.got, i)
  }

  /** The slots in use are those of the workers, of the dispatcher and of the others. */
  predicate SlotsOk(p: Plan, s: State) {
    s.slots == |s.running| + (if s.pc == Holding then 1 else 0) + s.others && s.slots <= p.capacity
  }

  predicate PhaseOk(p: Plan, s: State) {
    && (s.pending ==> s.ci == 0 && p.cands != [])
    && (s.channel.Some? <==> s.pending && s.sent) && (s.pending || s.sent || p.cands == [])
    && (s.pc == Holding ==> More(p, s))
    && (s.pc == Waiting ==> s.pending && s.si == |p.sqlOnly|)
    && (s.pc in {Draining, Returned} ==> s.cancelled || !More(p, s))
    && (s.pc == Returned ==> s.running == map[])
  }

  predicate Inv(p: Plan, s: State) {
    RowsOk(p, s) && JobsOk(p, s) && SlotsOk(p, s) && PhaseOk(p, s)
  }

  lemma BeginInv(p: Plan, others: nat)
    requires others <= p.capacity
    ensures Inv(p, Begin(p, others))
  {
  }

  predicate SameRow(p: Plan, s: State, s': State, k: nat)
    requires k < |s.items| == |s.starts| == |s.writes| && |s'.items| == |s'.starts| == |s'.writes| == |s.items|
  {
    && (HasStarted(p, s, k) <==> HasStarted(p, s', k)) && (k in s.running <==> k in s'.running)
    && s.items[k] == s'.items[k] && s.starts[k] == s'.starts[k] && s.writes[k] == s'.writes[k]
  }

  /** Rows other than row are as before. */
  lemma RowsKept(p: Plan, s: State, s': State, row: nat)
    requires RowsOk(p, s) && s'.ci <= |p.cands| && s'.si <= |p.sqlOnly| && (s.cancelled ==> s'.cancelled)
    requires |s'.items| == |s'.starts| == |s'.writes| == |s.items|
    requires forall k :: 0 <= k < |s.items| && k != row ==> SameRow(p, s, s', k)
    requires row < |s.items| ==> RowOk(p, s', row)
    ensures RowsOk(p, s')
  {
    forall k | 0 <= k < |Queue(p)|
      ensures RowOk(p, s', k)
    {
      assert RowOk(p, s, k);
      if k != row {
        assert SameRow(p, s, s', k);
      }
    }
  }

  /** What a start does to the rows and the jobs, row being the next one of its queue. */
  lemma StartKeepsRows(p: Plan, s: State, s': State, row: nat, job: Job)
    requires RowsOk(p, s) && JobsOk(p, s) && row < |Queue(p)| && !HasStarted(p, s, row)
    requires s'.got == s.got && s'.items == s.items && s'.writes == s.writes && s'.cancelled == s.cancelled
    requires s'.starts == s.starts[row := s.starts[row] + 1] && s'.running == s.running[row := job]
    requires s'.ci <= |p.cands| && s'.si <= |p.sqlOnly|
    requires forall k: nat :: HasStarted(p, s', k) <==> HasStarted(p, s, k) || k == row
    requires job == JobOf(p, s.got, row)
    ensures RowsOk(p, s') && JobsOk(p, s') && |s'.running| == |s.running| + 1
  {
    assert RowOk(p, s, row);
    assert row !in s.running;
    RowsKept(p, s, s', row);
  }

  lemma CandidateKeepsInv(p: Plan, s: State)
    requires Inv(p, s) && s.pc == Holding && !s.pending && s.ci < |p.cands|
    ensures Inv(p, Dispatched(p, s))
  {
    var s' := Dispatched(p, s);
    StartKeepsRows(p, s, s', s.ci, s'.running[s.ci]);
  }

  lemma SnapshotKeepsInv(p: Plan, s: State)
    requires Inv(p, s) && s.pc == Holding && (s.pending || s.ci == |p.cands|) && s.si < |p.sqlOnly|
    ensures Inv(p, Dispatched(p, s))
  {
    var s' := Dispatched(p, s);
    StartKeepsRows(p, s, s', |p.cands| + s.si, s'.running[|p.cands| + s.si]);
  }

  lemma StartKeepsInv(p: Plan, s: State)
    requires Inv(p, s) && s.pc == Holding
    ensures Inv(p, Dispatched(p, s))
  {
    if !s.pending && s.ci < |p.cands| {
      CandidateKeepsInv(p, s);
    } else if s.si < |p.sqlOnly| {
      SnapshotKeepsInv(p, s);
    } else {
      RowsKept(p, s, Dispatched(p, s), |s.items|);
    }
  }

  lemma PollKeepsInv(p: Plan, s: State)
    requires Inv(p, s)
    ensures RowsOk(p, Poll(s)) && JobsOk(p, Poll(s)) && SlotsOk(p, Poll(s))
    ensures s.pc == Holding ==> PhaseOk(p, Poll(s))
  {
    RowsKept(p, s, Poll(s), |s.items|);
  }

  lemma FinishedRow(p: Plan, s: State, i: nat, outcome: Outcome)
    requires RowsOk(p, s) && JobsOk(p, s) && Finished(s, i, outcome) != s
    ensures i < |Queue(p)| && i in s.running
    ensures var s' := Finished(s, i, outcome);
      && |s'.items| == |s'.starts| == |s'.writes| == |Queue(p)| && RowOk(p, s', i)
      && |s'.running| == |s.running| - 1
  {
    var s' := Finished(s, i, outcome);
    assert RowOk(p, s, i);
    assert s.running.Keys == s'.running.Keys + {i};
    assert |s.running.Keys| == |s'.running.Keys| + 1;
  }

  lemma FinishKeepsInv(p: Plan, s: State, i: nat, outcome: Outcome)
    requires Inv(p, s)
    ensures Inv(p, Finished(s, i, outcome))
  {
    var s' := Finished(s, i, outcome);
    if s' != s {
      FinishedRow(p, s, i, outcome);
      RowsKept(p, s, s', i);
    }
  }

  lemma ReceiveKeepsInv(p: Plan, s: State)
    requires Inv(p, s)
    ensures Inv(p, Next(p, s, Receive))
  {
    PollKeepsInv(p, s);
    RowsKept(p, s, Next(p, s, Receive), |s.items|);
  }

  /** The other actions leave rows and workers alone. */
  predicate Aside(a: Action) {
    !a.Dispatch? && !a.Receive? && !a.Finish?
  }

  lemma AsideKeepsRows(p: Plan, s: State, a: Action)
    requires Aside(a)
    ensures var s' := Next(p, s, a);
      && s'.ci == s.ci && s'.si == s.si && s'.got == s.got && s'.pending == s.pending && s'.running == s.running
      && s'.items == s.items && s'.starts == s.starts && s'.writes == s.writes && (s.cancelled ==> s'.cancelled)
  {
  }

  lemma AsideKeepsPhase(p: Plan, s: State, a: Action)
    requires Aside(a) && PhaseOk(p, s)
    ensures PhaseOk(p, Next(p, s, a))
  {
  }

  lemma AsideKeepsSlots(p: Plan, s: State, a: Action)
    requires Aside(a) && SlotsOk(p, s)
    ensures SlotsOk(p, Next(p, s, a))
  {
  }

  lemma JobsKept(p: Plan, s: State, s': State)
    requires JobsOk(p, s) && s'.ci == s.ci && s'.si == s.si && s'.got == s.got && s'.running == s.running
    ensures JobsOk(p, s')
  {
  }

  lemma AsideKeepsInv(p: Plan, s: State, a: Action)
    requires Inv(p, s) && Aside(a)
    ensures Inv(p, Next(p, s, a))
  {
    var s' := Next(p, s, a);
    AsideKeepsRows(p, s, a);
    AsideKeepsPhase(p, s, a);
    AsideKeepsSlots(p, s, a);
    JobsKept(p, s, s');
    RowsKept(p, s, s', |s.items|);
  }

  lemma DispatchKeepsInv(p: Plan, s: State)
    requires Inv(p, s)
    ensures Inv(p, Next(p, s, Dispatch))
  {
    if s.pc == Holding {
      PollKeepsInv(p, s);
      StartKeepsInv(p, Poll(s));
    }
  }

  lemma NextKeepsInv(p: Plan, s: State, a: Action)
    requires Inv(p, s)
    ensures Inv(p, Next(p, s, a))
  {
    match a
    case Dispatch => DispatchKeepsInv(p, s);
    case Finish(i, outcome) => FinishKeepsInv(p, s, i, outcome);
    case Receive => ReceiveKeepsInv(p, s);
    case _ => AsideKeepsInv(p, s, a);
  }

  lemma {:induction false} RunKeepsInv(p: Plan, others: nat, run: seq<Action>, n: nat)
    requires n <= |run| && others <= p.capacity
    ensures Inv(p, After(p, others, run, n))
  {
    if n == 0 {
      BeginInv(p, others);
    } else {
      RunKeepsInv(p, others, run, n - 1);
      NextKeepsInv(p, After(p, others, run, n - 1), run[n - 1]);
    }
  }

  // ----- what holds in every schedule

  /**
   * No target is scored twice, every row keeps its own target, a worker scores its own
   * target with the metrics read for it, and a row nobody wrote is marked uncomputed.
   */
  lemma ScoredAtMostOnce(p: Plan, others: nat, run: seq<Action>, n: nat, i: nat)
    requires n <= |run| && others <= p.capacity && i < |Queue(p)|
    ensures var s := After(p, others, run, n);
      && |s.items| == |s.starts| == |s.writes| == |Queue(p)|
      && s.starts[i] <= 1 && s.writes[i] <= s.starts[i]
      && s.items[i].target == Queue(p)[i] && (s.writes[i] == 0 ==> s.items[i] == Uncomputed(Queue(p)[i]))
      && (i in s.running ==> s.running[i].target == Queue(p)[i])
      && (i in s.running && i < |p.cands| ==> !s.pending && s.running[i].pre == (if Queue(p)[i] in s.got then Some(s.got[Queue(p)[i]]) else None))
      && (i in s.running && i >= |p.cands| ==> s.running[i].pre == None)
  {
    RunKeepsInv(p, others, run, n);
    assert RowOk(p, After(p, others, run, n), i);
  }

  /** What the row of target t says once its worker ended that way. */
  predicate RowSays(item: Item, t: Target, outcome: Outcome) {
    match outcome
    case Scored(score) => item == Item(t, Some(score), false)
    case Failed => item == Item(t, None, false)
    case OutOfBudget => item == Item(t, None, true)
  }

  /** The row is untouched, or its worker ended with what it now says. */
  predicate RowStep(s: State, s': State, a: Action, i: nat) {
    && i < |s.items| == |s.writes| && i < |s'.items| == |s'.writes|
    && if s'.writes[i] == s.writes[i] then s'.items[i] == s.items[i]
       else a.Finish? && a.i == i && i in s.running && RowSays(s'.items[i], s.running[i].target, a.outcome)
  }

  lemma StepWrites(p: Plan, s: State, a: Action, i: nat)
    requires i < |s.items| == |s.writes|
    ensures RowStep(s, Next(p, s, a), a, i)
  {
  }

  /** The states a run goes through. */
  function States(p: Plan, others: nat, run: seq<Action>, n: nat): (r: seq<State>)
    requires n <= |run|
    ensures |r| == n + 1 && forall k :: 0 <= k <= n ==> r[k] == After(p, others, run, k)
  {
    seq(n + 1, k requires 0 <= k <= n => After(p, others, run, k))
  }

  predicate SameLengths(p: Plan, s: State) {
    |s.items| == |s.writes| == |Queue(p)|
  }

  lemma StepLengths(p: Plan, s: State, a: Action)
    requires SameLengths(p, s)
    ensures SameLengths(p, Next(p, s, a))
  {
  }

  lemma {:induction false} Lengths(p: Plan, others: nat, run: seq<Action>, n: nat)
    requires n <= |run|
    ensures SameLengths(p, After(p, others, run, n))
  {
    if n > 0 {
      Lengths(p, others, run, n - 1);
      StepLengths(p, After(p, others, run, n - 1), run[n - 1]);
    }
  }

  lemma {:induction false} LastWrite(states: seq<State>, run: seq<Action>, i: nat, n: nat) returns (j: nat)
    requires |states| == |run| + 1 && n <= |run| && i < |states[0].writes| && states[0].writes[i] == 0
    requires forall k :: 0 <= k < |run| ==> RowStep(states[k], states[k + 1], run[k], i)
    requires i < |states[n].items| == |states[n].writes| && states[n].writes[i] > 0
    ensures j < n && run[j].Finish? && run[j].i == i && i in states[j].running
    ensures RowSays(states[n].items[i], states[j].running[i].target, run[j].outcome)
  {
    assert n > 0;
    assert RowStep(states[n - 1], states[n], run[n - 1], i);
    if states[n].writes[i] == states[n - 1].writes[i] {
      j := LastWrite(states, run, i, n - 1);
    } else {
      j := n - 1;
    }
  }

  lemma RowSteps(p: Plan, others: nat, run: seq<Action>, n: nat, i: nat, states: seq<State>)
    requires n <= |run| && i < |Queue(p)| && states == States(p, others, run, n)
    ensures forall k :: 0 <= k < n ==> RowStep(states[k], states[k + 1], run[k], i)
  {
    forall k | 0 <= k < n
      ensures RowStep(states[k], states[k + 1], run[k], i)
    {
      Lengths(p, others, run, k);
      StepWrites(p, states[k], run[k], i);
      AfterStep(p, others, run, k);
    }
  }

  lemma AfterStep(p: Plan, others: nat, run: seq<Action>, k: nat)
    requires k < |run|
    ensures After(p, others, run, k + 1) == Next(p, After(p, others, run, k), run[k])
  {
  }

  /** A written row is the one of its own target and says what its own worker ended with. */
  lemma WrittenByItsWorker(p: Plan, others: nat, run: seq<Action>, n: nat, i: nat) returns (j: nat)
    requires n <= |run| && others <= p.capacity && i < |Queue(p)|
    requires |After(p, others, run, n).writes| == |Queue(p)| && After(p, others, run, n).writes[i] == 1
    ensures j < n && run[j].Finish? && run[j].i == i && i in After(p, others, run, j).running
    ensures |After(p, others, run, n).items| == |Queue(p)| && RowSays(After(p, others, run, n).items[i], Queue(p)[i], run[j].outcome)
  {
    var states := States(p, others, run, n);
    Lengths(p, others, run, n);
    RowSteps(p, others, run, n, i, states);
    assert states[0] == Begin(p, others);
    j := LastWrite(states, run[..n], i, n);
    ScoredAtMostOnce(p, others, run, j, i);
  }

  predicate Sent(run: seq<Action>, n: nat, raws: map<Target, Raw>)
    requires n <= |run|
  {
    exists j :: 0 <= j < n && run[j] == ReaderSends(raws)
  }

  predicate FromReader(p: Plan, run: seq<Action>, n: nat, s: State)
    requires n <= |run|
  {
    (s.channel.Some? ==> Sent(run, n, s.channel.value)) && (p.cands != [] && !s.pending ==> Sent(run, n, s.got))
  }

  lemma FromReaderStep(p: Plan, run: seq<Action>, n: nat, s: State, s': State)
    requires 0 < n <= |run| && FromReader(p, run, n - 1, s) && MetricsMove(s, s', run[n - 1])
    ensures FromReader(p, run, n, s')
  {
    SentStays(run, n);
  }

  lemma {:induction false} AllFromReader(p: Plan, states: seq<State>, run: seq<Action>, n: nat)
    requires |states| == |run| + 1 && n <= |run| && FromReader(p, run, 0, states[0])
    requires forall k :: 0 <= k < |run| ==> MetricsMove(states[k], states[k + 1], run[k])
    ensures FromReader(p, run, n, states[n])
  {
    if n > 0 {
      AllFromReader(p, states, run, n - 1);
      FromReaderStep(p, run, n, states[n - 1], states[n]);
    }
  }

  lemma MetricsMoves(p: Plan, others: nat, run: seq<Action>, states: seq<State>)
    requires states == States(p, others, run, |run|)
    ensures forall k :: 0 <= k < |run| ==> MetricsMove(states[k], states[k + 1], run[k])
  {
    forall k | 0 <= k < |run|
      ensures MetricsMove(states[k], states[k + 1], run[k])
    {
      MetricsStep(p, states[k], run[k]);
      AfterStep(p, others, run, k);
    }
  }

  /** The metrics the candidates are scored with, and those waiting in the channel, are a reading that was sent. */
  lemma MetricsWereSent(p: Plan, others: nat, run: seq<Action>, n: nat)
    requires n <= |run|
    ensures FromReader(p, run, n, After(p, others, run, n))
  {
    var states := States(p, others, run, |run|);
    MetricsMoves(p, others, run, states);
    assert states[0] == Begin(p, others);
    AllFromReader(p, states, run, n);
  }

  lemma SentStays(run: seq<Action>, n: nat)
    requires 0 < n <= |run|
    ensures forall raws :: Sent(run, n, raws) <==> Sent(run, n - 1, raws) || run[n - 1] == ReaderSends(raws)
  {
  }

  /** What is in the channel comes from there or from the reader now, what was received from the channel. */
  predicate MetricsMove(s: State, s': State, a: Action) {
    && (s'.channel.Some? ==> s'.channel == s.channel || a == ReaderSends(s'.channel.value))
    && if s'.pending == s.pending then s'.got == s.got else s.pending && s.channel == Some(s'.got)
  }

  lemma MetricsStep(p: Plan, s: State, a: Action)
    ensures MetricsMove(s, Next(p, s, a), a)
  {
    match a
    case Dispatch => StartMoves(p, Poll(s));
    case Finish(i, outcome) => assert Finished(s, i, outcome).channel == s.channel;
    case _ =>
  }

  lemma StartMoves(p: Plan, s: State)
    ensures var s' := Dispatched(p, s); s'.channel == s.channel && s'.got == s.got && s'.pending == s.pending
  {
  }

  /** When the loop has returned every start was written; without the end of the budget every row was scored exactly once. */
  lemma ReturnedComplete(p: Plan, others: nat, run: seq<Action>, n: nat, i: nat)
    requires n <= |run| && others <= p.capacity && i < |Queue(p)| && After(p, others, run, n).pc == Returned
    ensures var s := After(p, others, run, n);
      && |s.items| == |s.starts| == |s.writes| == |Queue(p)|
      && s.writes[i] == s.starts[i]
      && (!s.cancelled ==> s.writes[i] == 1 && !s.items[i].uncomputed)
  {
    RunKeepsInv(p, others, run, n);
    assert RowOk(p, After(p, others, run, n), i);
  }

  /** Slots are neither lost nor overdrawn, and the dispatcher waits only for the metrics, holding none. */
  lemma SlotsConserved(p: Plan, others: nat, run: seq<Action>, n: nat)
    requires n <= |run| && others <= p.capacity
    ensures var s := After(p, others, run, n);
      && s.slots == |s.running| + (if s.pc == Holding then 1 else 0) + s.others <= p.capacity
      && (s.pc == Waiting ==> s.pending && s.ci == 0 && s.si == |p.sqlOnly|)
      && (s.pc == Returned ==> s.slots == s.others)
  {
    RunKeepsInv(p, others, run, n);
  }

  /** From s to t: once the metrics are in, no snapshot-only instance has started unless every candidate has. */
  predicate CandidatesLead(p: Plan, s: State, t: State) {
    && s.ci <= t.ci <= |p.cands| && (t.pending ==> t.ci == 0)
    && (!s.pending ==> !t.pending) && (!s.pending && t.si != s.si ==> t.ci == |p.cands|)
  }

  lemma CandidatesStillLead(p: Plan, s: State, t: State, a: Action)
    requires CandidatesLead(p, s, t)
    ensures CandidatesLead(p, s, Next(p, t, a))
  {
  }

  /** No candidate starts before the metrics are in, and from then on candidates go first, however the schedule goes on. */
  lemma {:induction false} CandidatesFirst(p: Plan, others: nat, run: seq<Action>, m: nat, n: nat)
    requires m <= n <= |run|
    ensures CandidatesLead(p, After(p, others, run, m), After(p, others, run, n))
  {
    if m < n {
      CandidatesFirst(p, others, run, m, n - 1);
      CandidatesStillLead(p, After(p, others, run, m), After(p, others, run, n - 1), run[n - 1]);
    } else if n > 0 {
      CandidatesFirst(p, others, run, n - 1, n - 1);
      LeadsItself(p, After(p, others, run, n - 1), run[n - 1]);
    }
  }

  lemma LeadsItself(p: Plan, s: State, a: Action)
    requires CandidatesLead(p, s, s)
    ensures CandidatesLead(p, Next(p, s, a), Next(p, s, a))
  {
  }

  // ----- the loop ends

  function Rank(pc: Pc): nat {
    match pc
    case Acquire => 4
    case Holding => 3
    case Waiting => 2
    case Draining => 1
    case Returned => 0
  }

  /** Targets left, then the pending metrics, then the place in the loop; workers, metrics read and others on top. */
  function Work(p: Plan, s: State): int {
    16 * (|p.cands| - s.ci + |p.sqlOnly| - s.si) + (if s.pending then 8 else 0) + Rank(s.pc)
    + |s.running| + (if s.sent then 0 else 1) + s.others
  }

  lemma FinishShrinks(p: Plan, s: State, i: nat, outcome: Outcome)
    requires Finished(s, i, outcome) != s
    ensures Work(p, Finished(s, i, outcome)) == Work(p, s) - 1
  {
    var s' := Finished(s, i, outcome);
    assert s.running.Keys == s'.running.Keys + {i};
    assert |s.running.Keys| == |s'.running.Keys| + 1;
  }

  lemma DispatchShrinks(p: Plan, s: State)
    requires Inv(p, s) && s.pc == Holding
    ensures Work(p, Dispatched(p, Poll(s))) < Work(p, s)
  {
  }

  /** Every action but the clock's and a newcomer's uses up work. */
  lemma WorkShrinks(p: Plan, s: State, a: Action)
    requires Inv(p, s) && !a.Cancel? && !a.OthersTake? && Next(p, s, a) != s
    ensures 0 <= Work(p, Next(p, s, a)) < Work(p, s)
  {
    NextKeepsInv(p, s, a);
    match a
    case Finish(i, outcome) => FinishShrinks(p, s, i, outcome);
    case Dispatch => DispatchShrinks(p, s);
    case _ =>
  }

  /** Until it has returned something can always happen: the loop, a worker, the metrics read or another computation. */
  lemma NeverStuck(p: Plan, s: State) returns (a: Action)
    requires Inv(p, s) && s.pc != Returned && p.capacity > 0
    ensures !a.Cancel? && !a.OthersTake? && Next(p, s, a) != s
  {
    if s.running != map[] {
      var i :| i in s.running;
      a := Finish(i, Failed);
      assert Next(p, s, a).slots != s.slots;
    } else {
      match s.pc
      case Acquire =>
        a := if !More(p, s) then EndLoop else if s.slots < p.capacity then TakeSlot else OthersGive;
      case Holding => a := Dispatch;
      case Waiting => a := if s.sent then Receive else ReaderSends(map[]);
      case Draining => a := Drain;
    }
  }

  // ----- the rows returned

  function TargetsOf(items: seq<Item>): seq<Target> {
    if items == [] then [] else [items[0].target] + TargetsOf(items[1..])
  }

  /** Worst first, unscored last, targets in order among equals. */
  predicate WorseFirst(a: Item, b: Item) {
    if a.score.Some? && b.score.Some? then
      a.score.value < b.score.value || (a.score == b.score && TargetLe(a.target, b.target))
    else a.score.Some? || (b.score.None? && TargetLe(a.target, b.target))
  }

  /** Lower scores before higher ones, all before the unscored; among equals by cluster and instance. */
  ghost predicate WorstOnTop(rows: seq<Item>) {
    && (forall i, j :: 0 <= i < j < |rows| && rows[j].score.Some? ==> rows[i].score.Some? && rows[i].score.value <= rows[j].score.value)
    && forall i, j :: 0 <= i < j < |rows| && rows[i].score == rows[j].score ==> AtOrBefore(rows[i].target, rows[j].target)
  }

  lemma SortedIsWorstOnTop(rows: seq<Item>)
    requires Sorting.Sorted(rows, WorseFirst)
    ensures WorstOnTop(rows)
  {
    forall i, j | 0 <= i < j < |rows|
      ensures rows[j].score.Some? ==> rows[i].score.Some? && rows[i].score.value <= rows[j].score.value
      ensures rows[i].score == rows[j].score ==> AtOrBefore(rows[i].target, rows[j].target)
    {
      assert WorseFirst(rows[i], rows[j]);
      TargetLeIs(rows[i].target, rows[j].target);
    }
  }

  lemma WorseFirstOrder()
    ensures Sorting.TotalPreorder(WorseFirst)
  {
    TargetOrder();
  }

  function Rows(s: State): seq<Item> {
    Sorting.Sort(s.items, WorseFirst)
  }

  lemma {:induction false} InsertTargets(x: Item, items: seq<Item>)
    ensures multiset(TargetsOf(Sorting.Insert(x, items, WorseFirst))) == multiset{x.target} + multiset(TargetsOf(items))
  {
    if items != [] && !WorseFirst(x, items[0]) {
      InsertTargets(x, items[1..]);
      assert Sorting.Insert(x, items, WorseFirst)[1..] == Sorting.Insert(x, items[1..], WorseFirst);
    } else {
      assert ([x] + items)[1..] == items;
    }
  }

  lemma {:induction false} SortTargets(items: seq<Item>)
    ensures multiset(TargetsOf(Sorting.Sort(items, WorseFirst))) == multiset(TargetsOf(items))
  {
    if items != [] {
      SortTargets(items[1..]);
      InsertTargets(items[0], Sorting.Sort(items[1..], WorseFirst));
    }
  }

  lemma {:induction false} TargetsInPlace(items: seq<Item>, targets: seq<Target>)
    requires |items| == |targets| && forall i :: 0 <= i < |items| ==> items[i].target == targets[i]
    ensures TargetsOf(items) == targets
  {
    if items != [] {
      TargetsInPlace(items[1..], targets[1..]);
    }
  }

  /** Whatever the schedule, the rows returned are the queue, worst first. */
  lemma RowsArePermutation(p: Plan, others: nat, run: seq<Action>, n: nat)
    requires n <= |run| && others <= p.capacity
    ensures var s := After(p, others, run, n);
      && multiset(TargetsOf(Rows(s))) == multiset(p.cands + p.sqlOnly)
      && multiset(Rows(s)) == multiset(s.items) && Sorting.Sorted(Rows(s), WorseFirst) && WorstOnTop(Rows(s))
  {
    var s := After(p, others, run, n);
    RunKeepsInv(p, others, run, n);
    forall i | 0 <= i < |s.items|
      ensures s.items[i].target == Queue(p)[i]
    {
      assert RowOk(p, s, i);
    }
    TargetsInPlace(s.items, Queue(p));
    SortTargets(s.items);
    Sorting.SortKeeps(s.items, WorseFirst);
    WorseFirstOrder();
    Sorting.SortSorted(s.items, WorseFirst);
    SortedIsWorstOnTop(Rows(s));
  }
}
