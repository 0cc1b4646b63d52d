/**
 * The scoring of one plan in place: the dispatch loop and its workers share the item
 * array, the queue positions and the slot pool. Each method does what its action does in
 * the schedules of FleetDispatch; ScoreAll is the loop that takes them.
 */
module FleetScoring {
  import opened Common
  import opened FleetTargets
  import opened FleetDispatch
  import Sorting

  /** The row a dispatch starts once the metrics were polled, if any. */
  function NextOf(p: Plan, q: State): Option<nat> {
    if !q.pending && q.ci < |p.cands| then Some(q.ci) else if q.si < |p.sqlOnly| then Some(|p.cands| + q.si) else None
  }

  lemma DispatchIs(p: Plan, s: State)
    requires s.pc == Holding
    ensures Next(p, s, Dispatch) == Dispatched(p, Poll(s))
  {
  }

  /** A start changes its queue's position and nothing else the loop holds. */
  predicate StartsRow(p: Plan, q: State, s': State, row: nat, candidate: bool) {
    && row < |Queue(p)|
    && s'.items == q.items && s'.pending == q.pending && s'.got == q.got && s'.channel == q.channel
    && s'.running == q.running[row := JobOf(p, q.got, row)] && s'.cancelled == q.cancelled && s'.sent == q.sent && s'.others == q.others
    && s'.ci == (if candidate then q.ci + 1 else q.ci) && s'.si == (if candidate then q.si else q.si + 1)
    && s'.slots == q.slots
  }

  lemma CandidateStarts(p: Plan, q: State)
    requires !q.pending && q.ci < |p.cands|
    ensures StartsRow(p, q, Dispatched(p, q), q.ci, true)
  {
  }

  lemma SnapshotStarts(p: Plan, q: State)
    requires (q.pending || q.ci >= |p.cands|) && q.si < |p.sqlOnly|
    ensures StartsRow(p, q, Dispatched(p, q), |p.cands| + q.si, false)
  {
  }

  lemma AllComputed(p: Plan, others: nat, run: seq<Action>, n: nat)
    requires n <= |run| && others <= p.capacity && After(p, others, run, n).pc == Returned
    ensures var s := After(p, others, run, n);
      !s.cancelled ==> forall it :: it in Rows(s) ==> !it.uncomputed
  {
    var s := After(p, others, run, n);
    RowsArePermutation(p, others, run, n);
    RunKeepsInv(p, others, run, n);
    forall it | it in Rows(s) && !s.cancelled
      ensures !it.uncomputed
    {
      assert it in multiset(Rows(s));
      assert it in s.items;
      var i :| 0 <= i < |s.items| && s.items[i] == it;
      ReturnedComplete(p, others, run, n, i);
    }
  }

  /** Targets left, and the metrics still to come. */
  function LeftOf(p: Plan, ci: nat, si: nat, pending: bool): int {
    2 * (|p.cands| - ci + |p.sqlOnly| - si) + (if pending then 1 else 0)
  }

  /** A row is started, or only the metrics can bring more. */
  lemma DispatchProgress(p: Plan, s: State)
    requires Inv(p, s) && s.pc == Holding
    ensures var s' := Next(p, s, Dispatch);
      && s'.pc == (if NextOf(p, Poll(s)).Some? then Acquire else Waiting)
      && if s'.pc == Acquire then 0 <= LeftOf(p, s'.ci, s'.si, s'.pending) < LeftOf(p, s.ci, s.si, s.pending)
         else s'.ci == s.ci && s'.si == s.si && s'.pending && s.pending && LeftOf(p, s'.ci, s'.si, s'.pending) > 0
  {
  }

  /** What happens outside the loop. */
  datatype Event =
    | WorkerEnds(row: nat, outcome: Outcome)
    | MetricsRead(raws: map<Target, Raw>)
    | BudgetEnds
    | SlotTaken
    | SlotGiven

  function ActionOf(e: Event): Action {
    match e
    case WorkerEnds(row, outcome) => Finish(row, outcome)
    case MetricsRead(raws) => ReaderSends(raws)
    case BudgetEnds => Cancel
    case SlotTaken => OthersTake
    case SlotGiven => OthersGive
  }

  predicate Enabled(p: Plan, e: Event, running: map<nat, Job>, cancelled: bool, sent: bool, slots: int, others: nat) {
    match e
    case WorkerEnds(row, outcome) => row in running && (outcome == OutOfBudget ==> cancelled)
    case MetricsRead(_) => p.cands != [] && !sent
    case BudgetEnds => true
    case SlotTaken => slots < p.capacity
    case SlotGiven => others > 0
  }

  lemma NothingHappens(p: Plan, s: State, e: Event)
    requires !Enabled(p, e, s.running, s.cancelled, s.sent, s.slots, s.others)
    ensures Next(p, s, ActionOf(e)) == s
  {
  }

  /** Nothing outside moves the loop. */
  lemma EventIsOutside(p: Plan, s: State, e: Event)
    ensures Next(p, s, ActionOf(e)).pc == s.pc
  {
  }

  /** A finished worker changes its row, its slot and nothing else. */
  predicate WritesRow(s: State, s': State, row: nat, item: Item) {
    && row < |s.items| && s'.items == s.items[row := item] && s'.running == s.running - {row} && s'.slots == s.slots - 1
    && s'.pending == s.pending && s'.got == s.got && s'.channel == s.channel && s'.ci == s.ci && s'.si == s.si
    && s'.sent == s.sent && s'.cancelled == s.cancelled && s'.others == s.others
  }

  lemma WorkerWrites(p: Plan, s: State, row: nat, outcome: Outcome)
    requires Inv(p, s) && row in s.running && (outcome == OutOfBudget ==> s.cancelled)
    ensures WritesRow(s, Next(p, s, Finish(row, outcome)), row, Row(s.running[row], outcome))
  {
  }

  /** What happens before the loop's next step, and which of two ready cases a select then takes. */
  datatype Turn = Turn(events: seq<Event>, budgetFirst: bool)

  datatype Step = Went | Stopped | Blocked

  function ActionsOf(events: seq<Event>, n: nat): seq<Action>
    requires n <= |events|
  {
    if n == 0 then [] else ActionsOf(events, n - 1) + [ActionOf(events[n - 1])]
  }

  /** All that happens in the first k turns. */
  function Events(turns: seq<Turn>, k: nat): seq<Action>
    requires k <= |turns|
  {
    if k == 0 then [] else Events(turns, k - 1) + ActionsOf(turns[k - 1].events, |turns[k - 1].events|)
  }

  class Scoring {
    const plan: Plan
    const items: array<Item>
    var ci: nat
    var si: nat
    var pending: bool
    var got: map<Target, Raw>
    var raws: Option<map<Target, Raw>>
    var sent: bool
    var cancelled: bool
    var running: map<nat, Job>
    var slots: int
    var others: nat

    /** The schedule so far and where it has led. */
    ghost const othersAtStart: nat
    ghost var schedule: seq<Action>
    ghost var state: State

    /** The events that were let happen. */
    ghost var seen: seq<Action>

    /** What the loop holds is the state s. */
    ghost predicate Holds(s: State)
      reads this`ci, this`si, this`pending, this`got, this`raws, this`sent, this`cancelled, this`running, this`slots, this`others, items
    {
      && ci == s.ci && si == s.si && pending == s.pending && got == s.got && raws == s.channel && sent == s.sent
      && cancelled == s.cancelled && running == s.running && slots == s.slots && others == s.others && items[..] == s.items
    }

    ghost predicate Valid()
      reads this, items
    {
      && othersAtStart <= plan.capacity && state == After(plan, othersAtStart, schedule, |schedule|)
      && Holds(state)
    }

    constructor (plan: Plan, othersAtStart: nat)
      requires othersAtStart <= plan.capacity
      ensures Valid() && fresh(items) && this.plan == plan && state == Begin(plan, othersAtStart) && schedule == []
    {
      this.plan, this.othersAtStart := plan, othersAtStart;
      var queue := plan.cands + plan.sqlOnly;
      items := new Item[|queue|](i requires 0 <= i < |queue| => Uncomputed(queue[i]));
      ci, si, pending, got, raws, sent := 0, 0, plan.cands != [], map[], None, false;
      cancelled, running, slots, others := false, map[], othersAtStart, othersAtStart;
      state, schedule, seen := Begin(plan, othersAtStart), [], [];
      new;
      assert items[..] == state.items;
    }

    twostate predicate Taken(a: Action)
      reads this`state, this`schedule
    {
      state == Next(plan, old(state), a) && schedule == old(schedule) + [a]
    }

    ghost method Take(a: Action)
      requires state == After(plan, othersAtStart, schedule, |schedule|)
      modifies this`state, this`schedule
      ensures Taken(a) && state == After(plan, othersAtStart, schedule, |schedule|)
    {
      var longer := schedule + [a];
      AfterAppend(plan, othersAtStart, schedule, a);
      assert |longer| == |schedule| + 1;
      state := After(plan, othersAtStart, longer, |longer|);
      schedule := longer;
    }

    /** Takes a slot of the pool when one is free. */
    method AcquireSlot() returns (ok: bool)
      requires Valid() && state.pc == Acquire && (ci < |plan.cands| || si < |plan.sqlOnly|)
      modifies this`slots, this`state, this`schedule
      ensures Valid() && Taken(TakeSlot) && ok == (old(slots) < plan.capacity)
    {
      ok := slots < plan.capacity;
      Take(TakeSlot);
      if ok {
        slots := slots + 1;
      }
    }

    /** The metrics are in if the channel holds them. */
    method PollMetrics(ghost s: State)
      requires Holds(s)
      modifies this`pending, this`got, this`raws
      ensures Holds(Poll(s))
    {
      if pending && raws.Some? {
        pending, got, raws := false, raws.value, None;
      }
    }

    /** The next candidate with its metrics. */
    method Candidate(ghost q: State) returns (row: nat, job: Job)
      requires Holds(q) && !pending && ci < |plan.cands|
      modifies this`ci, this`running
      ensures Holds(Dispatched(plan, q)) && row == q.ci && row < |Queue(plan)| && job == JobOf(plan, q.got, row)
    {
      CandidateStarts(plan, q);
      var t := plan.cands[ci];
      job := Job(t, if t in got then Some(got[t]) else None);
      row, ci := ci, ci + 1;
      running := running[row := job];
    }

    /** The next snapshot-only instance. */
    method SnapshotOnly(ghost q: State) returns (row: nat, job: Job)
      requires Holds(q) && (pending || ci >= |plan.cands|) && si < |plan.sqlOnly|
      modifies this`si, this`running
      ensures Holds(Dispatched(plan, q)) && row == |plan.cands| + q.si && row < |Queue(plan)| && job == JobOf(plan, q.got, row)
    {
      SnapshotStarts(plan, q);
      job := Job(plan.sqlOnly[si], None);
      row, si := |plan.cands| + si, si + 1;
      running := running[row := job];
    }

    /** The next row in the order of the loop; without one the slot is given back. */
    method NextRow(ghost q: State) returns (row: Option<nat>, job: Job)
      requires Holds(q)
      modifies this`ci, this`si, this`running, this`slots
      ensures Holds(Dispatched(plan, q)) && row == NextOf(plan, q)
      ensures row.Some? ==> row.value < |Queue(plan)| && job == JobOf(plan, q.got, row.value)
    {
      if !pending && ci < |plan.cands| {
        var i;
        i, job := Candidate(q);
        row := Some(i);
      } else if si < |plan.sqlOnly| {
        var i;
        i, job := SnapshotOnly(q);
        row := Some(i);
      } else {
        row, job := None, Job(Target("", ""), None);
        slots := slots - 1;
      }
    }

    /** With a slot in hand: the next row to start, or none when only the metrics can bring more. */
    method StartNext() returns (row: Option<nat>, job: Job)
      requires Valid() && state.pc == Holding
      modifies this`ci, this`si, this`pending, this`got, this`raws, this`running, this`slots, this`state, this`schedule
      ensures Valid() && Taken(Dispatch) && row == NextOf(plan, Poll(old(state)))
      ensures row.Some? ==> row.value < |Queue(plan)| && job == JobOf(plan, Poll(old(state)).got, row.value)
      ensures state.pc == if row.Some? then Acquire else Waiting
      ensures if row.Some? then 0 <= LeftOf(plan, ci, si, pending) < LeftOf(plan, old(ci), old(si), old(pending))
              else ci == old(ci) && si == old(si) && pending && old(pending) && LeftOf(plan, ci, si, pending) > 0
    {
      ghost var q := Poll(state);
      RunKeepsInv(plan, othersAtStart, schedule, |schedule|);
      DispatchProgress(plan, state);
      PollMetrics(state);
      Take(Dispatch);
      DispatchIs(plan, old(state));
      row, job := NextRow(q);
    }

    /** The dispatcher was waiting for the metrics and receives them. */
    method ReceiveMetrics()
      requires Valid() && state.pc == Waiting && raws.Some?
      modifies this`pending, this`got, this`raws, this`state, this`schedule
      ensures Valid() && Taken(Receive) && !pending
    {
      RunKeepsInv(plan, othersAtStart, schedule, |schedule|);
      Take(Receive);
      pending, got, raws := false, raws.value, None;
    }

    /** A worker writes its row and gives its slot back. */
    method WriteRow(row: nat, outcome: Outcome)
      requires Valid() && row in running && (outcome == OutOfBudget ==> cancelled)
      modifies this`running, this`slots, this`state, this`schedule, items
      ensures Valid() && Taken(Finish(row, outcome))
    {
      RunKeepsInv(plan, othersAtStart, schedule, |schedule|);
      WorkerWrites(plan, state, row, outcome);
      Take(Finish(row, outcome));
      items[row] := Row(running[row], outcome);
      running, slots := running - {row}, slots - 1;
    }

    /** The metrics read sends its one map. */
    method SendMetrics(read: map<Target, Raw>)
      requires Valid() && plan.cands != [] && !sent
      modifies this`sent, this`raws, this`state, this`schedule
      ensures Valid() && Taken(ReaderSends(read))
    {
      Take(ReaderSends(read));
      sent, raws := true, Some(read);
    }

    method EndBudget()
      requires Valid()
      modifies this`cancelled, this`state, this`schedule
      ensures Valid() && Taken(Cancel)
    {
      Take(Cancel);
      cancelled := true;
    }

    method LendSlot()
      requires Valid() && slots < plan.capacity
      modifies this`slots, this`others, this`state, this`schedule
      ensures Valid() && Taken(OthersTake)
    {
      Take(OthersTake);
      slots, others := slots + 1, others + 1;
    }

    method ReturnSlot()
      requires Valid() && others > 0
      modifies this`slots, this`others, this`state, this`schedule
      ensures Valid() && Taken(OthersGive)
    {
      Take(OthersGive);
      slots, others := slots - 1, others - 1;
    }

    predicate CanHappen(e: Event)
      reads this`running, this`cancelled, this`sent, this`slots, this`others
    {
      Enabled(plan, e, running, cancelled, sent, slots, others)
    }

    /** One event outside the loop, if it can happen now. */
    method Happens(e: Event)
      requires Valid()
      modifies this`running, this`slots, this`sent, this`raws, this`cancelled, this`others, this`state, this`schedule, this`seen, items
      ensures Valid() && Taken(ActionOf(e)) && seen == old(seen) + [ActionOf(e)] && state.pc == old(state.pc)
    {
      EventIsOutside(plan, state, e);
      seen := seen + [ActionOf(e)];
      if CanHappen(e) {
        Perform(e);
      } else {
        NothingHappens(plan, state, e);
        Take(ActionOf(e));
      }
    }

    method Perform(e: Event)
      requires Valid() && CanHappen(e)
      modifies this`running, this`slots, this`sent, this`raws, this`cancelled, this`others, this`state, this`schedule, items
      ensures Valid() && Taken(ActionOf(e))
    {
      match e {
        case WorkerEnds(row, outcome) => WriteRow(row, outcome);
        case MetricsRead(read) => SendMetrics(read);
        case BudgetEnds => EndBudget();
        case SlotTaken => LendSlot();
        case SlotGiven => ReturnSlot();
      }
    }

    /** Lets the events of the next turn happen, when there is one; before is all that happened before the first turn. */
    method NextTurn(turns: seq<Turn>, from: nat, ghost before: seq<Action>) returns (k: nat, budgetFirst: bool)
      requires Valid() && from <= |turns| && seen == before + Events(turns, from)
      modifies this`running, this`slots, this`sent, this`raws, this`cancelled, this`others, this`state, this`schedule, this`seen, items
      ensures k == if from < |turns| then from + 1 else from
      ensures Valid() && state.pc == old(state.pc) && seen == before + Events(turns, k)
    {
      if from == |turns| {
        return from, false;
      }
      Meanwhile(turns[from].events, before + Events(turns, from));
      return from + 1, turns[from].budgetFirst;
    }

    method Meanwhile(events: seq<Event>, ghost before: seq<Action>)
      requires Valid() && seen == before
      modifies this`running, this`slots, this`sent, this`raws, this`cancelled, this`others, this`state, this`schedule, this`seen, items
      ensures Valid() && state.pc == old(state.pc) && seen == before + ActionsOf(events, |events|)
    {
      for i := 0 to |events|
        invariant Valid() && state.pc == old(state.pc) && seen == before + ActionsOf(events, i)
      {
        Happens(events[i]);
      }
    }

    /** Only something outside can go on: a slot given back, the metrics, a worker or the end of the budget. */
    ghost predicate MustWait()
      reads this
    {
      match state.pc
      case Acquire => slots >= plan.capacity && !cancelled
      case Waiting => raws.None? && !cancelled
      case Draining => running != map[]
      case _ => false
    }

    /** Waits for a slot or the end of the budget. */
    method AcquireOrGiveUp(budgetFirst: bool) returns (step: Step)
      requires Valid() && state.pc == Acquire && (ci < |plan.cands| || si < |plan.sqlOnly|)
      modifies this`slots, this`state, this`schedule
      ensures Valid() && (step == Blocked ==> MustWait()) && (old(MustWait()) ==> step == Blocked)
      ensures state.pc == (match step case Went => Holding case Stopped => Draining case Blocked => Acquire)
    {
      if slots < plan.capacity && !(budgetFirst && cancelled) {
        var ok := AcquireSlot();
        return Went;
      }
      if cancelled {
        Take(GiveUp);
        return Stopped;
      }
      return Blocked;
    }

    /** Waits for the metrics or the end of the budget. */
    method AwaitMetrics(budgetFirst: bool) returns (step: Step)
      requires Valid() && state.pc == Waiting
      modifies this`pending, this`got, this`raws, this`state, this`schedule
      ensures Valid() && (step == Blocked ==> MustWait() && raws == old(raws)) && (old(MustWait()) ==> step == Blocked)
      ensures if step == Went then !pending else pending == old(pending)
      ensures state.pc == (match step case Went => Acquire case Stopped => Draining case Blocked => Waiting)
    {
      if raws.Some? && !(budgetFirst && cancelled) {
        ReceiveMetrics();
        return Went;
      }
      if cancelled {
        Take(StopWaiting);
        return Stopped;
      }
      return Blocked;
    }

    /** Blocks until a slot was acquired or the budget ended; Blocked when nothing more happens. */
    method Acquiring(turns: seq<Turn>, from: nat, ghost before: seq<Action>) returns (step: Step, k: nat)
      requires Valid() && state.pc == Acquire && (ci < |plan.cands| || si < |plan.sqlOnly|)
      requires from <= |turns| && seen == before + Events(turns, from)
      modifies this`running, this`slots, this`sent, this`raws, this`cancelled, this`others, this`state, this`schedule, this`seen, items
      ensures Valid() && from <= k <= |turns| && seen == before + Events(turns, k)
      ensures step == Blocked ==> k == |turns| && MustWait()
      ensures state.pc == (match step case Went => Holding case Stopped => Draining case Blocked => Acquire)
    {
      var budgetFirst;
      k, budgetFirst := NextTurn(turns, from, before);
      step := AcquireOrGiveUp(budgetFirst);
      while step == Blocked && k < |turns|
        invariant Valid() && from <= k <= |turns| && seen == before + Events(turns, k)
        invariant state.pc == (match step case Went => Holding case Stopped => Draining case Blocked => Acquire)
        invariant step == Blocked ==> MustWait()
      {
        k, budgetFirst := NextTurn(turns, k, before);
        step := AcquireOrGiveUp(budgetFirst);
      }
    }

    /** Blocks until the metrics came in or the budget ended; Blocked when nothing more happens. */
    method Receiving(turns: seq<Turn>, from: nat, ghost before: seq<Action>) returns (step: Step, k: nat)
      requires Valid() && state.pc == Waiting && from <= |turns| && seen == before + Events(turns, from)
      modifies this`pending, this`got, this`running, this`slots, this`sent, this`raws, this`cancelled, this`others, this`state, this`schedule, this`seen, items
      ensures Valid() && from <= k <= |turns| && seen == before + Events(turns, k)
      ensures step == Blocked ==> k == |turns| && MustWait()
      ensures state.pc == (match step case Went => Acquire case Stopped => Draining case Blocked => Waiting)
      ensures step == Went ==> !pending
    {
      var budgetFirst;
      k, budgetFirst := NextTurn(turns, from, before);
      step := AwaitMetrics(budgetFirst);
      while step == Blocked && k < |turns|
        invariant Valid() && from <= k <= |turns| && seen == before + Events(turns, k)
        invariant state.pc == (match step case Went => Acquire case Stopped => Draining case Blocked => Waiting)
        invariant (step == Blocked ==> MustWait()) && if step == Went then !pending else pending == old(pending)
      {
        k, budgetFirst := NextTurn(turns, k, before);
        step := AwaitMetrics(budgetFirst);
      }
    }

    /** With a slot in hand: starts a row, or waits for what can bring more. */
    method StartOrWait(turns: seq<Turn>, from: nat, ghost before: seq<Action>) returns (step: Step, k: nat)
      requires Valid() && state.pc == Holding && from <= |turns| && seen == before + Events(turns, from)
      modifies this, items
      ensures Valid() && from <= k <= |turns| && seen == before + Events(turns, k)
      ensures step == Blocked ==> k == |turns| && MustWait()
      ensures state.pc == (match step case Went => Acquire case Stopped => Draining case Blocked => Waiting)
      ensures step == Went ==> 0 <= LeftOf(plan, ci, si, pending) < LeftOf(plan, old(ci), old(si), old(pending))
    {
      var budgetFirst;
      k, budgetFirst := NextTurn(turns, from, before);
      var row, job := StartNext();
      step := Went;
      if row.None? {
        step, k := Receiving(turns, k, before);
      }
    }

    /** Acquires a slot, then starts a row or waits. */
    method Iterate(turns: seq<Turn>, from: nat, ghost before: seq<Action>) returns (step: Step, k: nat)
      requires Valid() && state.pc == Acquire && (ci < |plan.cands| || si < |plan.sqlOnly|)
      requires from <= |turns| && seen == before + Events(turns, from)
      modifies this, items
      ensures Valid() && from <= k <= |turns| && seen == before + Events(turns, k)
      ensures match step case Went => state.pc == Acquire case Stopped => state.pc == Draining case Blocked => k == |turns| && MustWait()
      ensures step == Went ==> 0 <= LeftOf(plan, ci, si, pending) < LeftOf(plan, old(ci), old(si), old(pending))
    {
      step, k := Acquiring(turns, from, before);
      if step == Went {
        step, k := StartOrWait(turns, k, before);
      }
    }

    /**
     * The loop: while targets are left it acquires a slot, then starts the next row or
     * waits for the metrics. It is over when all are started or the budget ended; not
     * over, it has seen every turn and can only wait.
     */
    method DispatchAll(turns: seq<Turn>, ghost before: seq<Action>) returns (over: bool, k: nat)
      requires Valid() && state.pc == Acquire && seen == before
      modifies this, items
      ensures Valid() && k <= |turns| && seen == before + Events(turns, k)
      ensures if over then state.pc == Draining else k == |turns| && MustWait()
    {
      k := 0;
      RunKeepsInv(plan, othersAtStart, schedule, |schedule|);
      while ci < |plan.cands| || si < |plan.sqlOnly|
        invariant Valid() && state.pc == Acquire && k <= |turns| && seen == before + Events(turns, k)
        invariant LeftOf(plan, ci, si, pending) >= 0
        decreases LeftOf(plan, ci, si, pending)
      {
        var step;
        step, k := Iterate(turns, k, before);
        if step != Went {
          return step == Stopped, k;
        }
      }
      Take(EndLoop);
      return true, k;
    }

    /** Waits for the workers. */
    method DrainAll(turns: seq<Turn>, from: nat, ghost before: seq<Action>) returns (over: bool)
      requires Valid() && state.pc == Draining && from <= |turns| && seen == before + Events(turns, from)
      modifies this, items
      ensures Valid() && if over then state.pc == Returned else MustWait() && seen == before + Events(turns, |turns|)
    {
      var k := from;
      while running != map[]
        invariant Valid() && state.pc == Draining && k <= |turns| && seen == before + Events(turns, k)
        decreases |turns| - k
      {
        if k == |turns| {
          return false;
        }
        var budgetFirst;
        k, budgetFirst := NextTurn(turns, k, before);
      }
      Take(Drain);
      return true;
    }

    /** All workers are done: the rows worst first, each queued target on exactly one of them. */
    method SortedRows() returns (rows: seq<Item>)
      requires Valid() && state.pc == Returned
      ensures RowsRight(rows)
    {
      RowsArePermutation(plan, othersAtStart, schedule, |schedule|);
      rows := Sorting.Sort(items[..], WorseFirst);
      AllComputed(plan, othersAtStart, schedule, |schedule|);
    }

    /** The rows of the queue, worst first, all computed unless the budget ended. */
    ghost predicate RowsRight(rows: seq<Item>)
      reads this
    {
      && rows == Rows(state) && multiset(TargetsOf(rows)) == multiset(plan.cands + plan.sqlOnly)
      && WorstOnTop(rows) && (!cancelled ==> forall it :: it in rows ==> !it.uncomputed)
    }

    /**
     * Scores the plan, whatever happens in the turns: the rows, or none when after all
     * of it the loop can only wait for more to happen.
     */
    method ScoreAll(turns: seq<Turn>) returns (rows: Option<seq<Item>>)
      requires Valid() && state.pc == Acquire
      modifies this, items
      ensures Valid() && (rows.Some? ==> state.pc == Returned && RowsRight(rows.value))
      ensures rows.None? ==> MustWait() && seen == old(seen) + Events(turns, |turns|)
    {
      ghost var before := seen;
      rows := None;
      var over, k := DispatchAll(turns, before);
      if over {
        over := DrainAll(turns, k, before);
      }
      if over {
        var sorted := SortedRows();
        rows := Some(sorted);
      }
    }
  }
}
