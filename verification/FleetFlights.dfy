/**
 * Shared fleet computations: keyed single flight, a cap on running computations, expiry
 * timers and the one sweep. A run interleaves the atomic actions of callers, computations
 * and timers in any order; an action that is not enabled leaves the state as it is, so
 * every sequence of actions is a run.
 */
module FleetFlights {
  import opened Common

  type Key = string

  datatype Config = Config(maxComputations: nat, resultTtl: int)

  /** Where the goroutine of a flight is; Leaving and Returning are its deferred calls. */
  datatype Pc = Body | AfterPublish | AfterRelease | InSweep | Leaving(panicked: bool) | Returning | Done

  /** closes and decrements count what the once-guarded publish and release really did. */
  datatype Flight = Flight(
    key: Key, pc: Pc, published: bool, expires: int, closes: nat, released: bool, decrements: nat, armed: bool)

  /** all holds every flight ever started, oldest first; flights is the map callers look in. */
  datatype State = State(all: seq<Flight>, flights: map<Key, nat>, computing: int, sweeping: bool)

  datatype Action =
    | Join(key: Key, now: int)
    | Finish(id: nat, now: int)
    | Release(id: nat)
    | TrySweep(id: nat)
    | EndSweep(id: nat)
    | Panic(id: nat)
    | Recover(id: nat, now: int)
    | Return(id: nat)
    | Timer(id: nat, now: int)

  const EMPTY := State([], map[], 0, false)

  function Started(key: Key): Flight {
    Flight(key, Body, false, 0, 0, false, 0, false)
  }

  function Publish(f: Flight, expires: int): Flight {
    if f.published then f else f.(published := true, expires := expires, closes := f.closes + 1, armed := true)
  }

  /** Puts f at pc in place of flight id. */
  function With(s: State, id: nat, f: Flight): State
    requires id < |s.all|
  {
    s.(all := s.all[id := f])
  }

  function ReleaseTo(s: State, id: nat, pc: Pc): State
    requires id < |s.all|
  {
    var f := s.all[id];
    if f.released then With(s, id, f.(pc := pc))
    else With(s, id, f.(pc := pc, released := true, decrements := f.decrements + 1)).(computing := s.computing - 1)
  }

  /** The flight a caller may share: one still computing, or a result not yet expired. */
  predicate Shareable(s: State, key: Key, now: int) {
    key in s.flights && s.flights[key] < |s.all| &&
    (!s.all[s.flights[key]].published || now < s.all[s.flights[key]].expires)
  }

  /** The flight a caller gets, none when it is turned away as busy. */
  function Joined(c: Config, s: State, key: Key, now: int): Option<nat> {
    if Shareable(s, key, now) then Some(s.flights[key])
    else if s.computing >= c.maxComputations then None
    else Some(|s.all|)
  }

  function Next(c: Config, s: State, a: Action): State {
    match a
    case Join(key, now) =>
      if Shareable(s, key, now) || s.computing >= c.maxComputations then s
      else State(s.all + [Started(key)], s.flights[key := |s.all|], s.computing + 1, s.sweeping)
    case Finish(id, now) =>
      if id < |s.all| && s.all[id].pc == Body
      then With(s, id, Publish(s.all[id], now + c.resultTtl).(pc := AfterPublish)) else s
    case Release(id) =>
      if id < |s.all| && s.all[id].pc == AfterPublish then ReleaseTo(s, id, AfterRelease) else s
    case TrySweep(id) =>
      if !(id < |s.all| && s.all[id].pc == AfterRelease) then s
      else if s.sweeping then With(s, id, s.all[id].(pc := Leaving(false)))
      else With(s, id, s.all[id].(pc := InSweep)).(sweeping := true)
    case EndSweep(id) =>
      if id < |s.all| && s.all[id].pc == InSweep
      then With(s, id, s.all[id].(pc := Leaving(false))).(sweeping := false) else s
    case Panic(id) =>
      if !(id < |s.all|) || !(s.all[id].pc in {Body, AfterPublish, AfterRelease, InSweep}) then s
      else With(s, id, s.all[id].(pc := Leaving(true))).(sweeping := s.sweeping && s.all[id].pc != InSweep)
    case Recover(id, now) =>
      if !(id < |s.all| && s.all[id].pc.Leaving?) then s
      else if s.all[id].pc.panicked then With(s, id, Publish(s.all[id], now).(pc := Returning))
      else With(s, id, s.all[id].(pc := Returning))
    case Return(id) =>
      if id < |s.all| && s.all[id].pc == Returning then ReleaseTo(s, id, Done) else s
    case Timer(id, now) =>
      if !(id < |s.all| && s.all[id].armed && now >= s.all[id].expires) then s
      else
        var f := s.all[id];
        With(s, id, f.(armed := false)).(
          flights := if f.key in s.flights && s.flights[f.key] == id then s.flights - {f.key} else s.flights)
  }

  function After(c: Config, run: seq<Action>, n: nat): State
    requires n <= |run|
  {
    if n == 0 then EMPTY else Next(c, After(c, run, n - 1), run[n - 1])
  }

  // ----- the invariant

  function Unreleased(fs: seq<Flight>): nat {
    if fs == [] then 0 else Unreleased(fs[..|fs| - 1]) + (if fs[|fs| - 1].released then 0 else 1)
  }

  function Sweepers(fs: seq<Flight>): nat {
    if fs == [] then 0 else Sweepers(fs[..|fs| - 1]) + (if fs[|fs| - 1].pc == InSweep then 1 else 0)
  }

  lemma {:induction false} CountsAfterUpdate(fs: seq<Flight>, i: nat, f: Flight)
    requires i < |fs|
    ensures Unreleased(fs[i := f]) + (if fs[i].released then 0 else 1) == Unreleased(fs) + (if f.released then 0 else 1)
    ensures Sweepers(fs[i := f]) + (if fs[i].pc == InSweep then 1 else 0) == Sweepers(fs) + (if f.pc == InSweep then 1 else 0)
  {
    var n := |fs| - 1;
    if i < n {
      CountsAfterUpdate(fs[..n], i, f);
      assert fs[i := f][..n] == fs[..n][i := f];
    } else {
      assert fs[i := f][..n] == fs[..n];
    }
  }

  lemma CountsAfterStart(fs: seq<Flight>, f: Flight)
    ensures Unreleased(fs + [f]) == Unreleased(fs) + (if f.released then 0 else 1)
    ensures Sweepers(fs + [f]) == Sweepers(fs) + (if f.pc == InSweep then 1 else 0)
  {
    assert (fs + [f])[..|fs|] == fs;
  }

  /** Publish and release happened at most once, and exactly as far as the goroutine has come. */
  predicate FlightOk(f: Flight) {
    && f.closes == (if f.published then 1 else 0) && f.decrements == (if f.released then 1 else 0)
    && (f.armed || f.released ==> f.published)
    && match f.pc
       case Body => !f.published
       case AfterPublish => f.published && !f.released
       case AfterRelease => f.released
       case InSweep => f.released
       case Leaving(panicked) => panicked || f.released
       case Returning => f.published
       case Done => f.released
  }

  predicate FlightsOk(s: State) {
    forall i :: 0 <= i < |s.all| ==> FlightOk(s.all[i])
  }

  /** The map points to the newest flight of each key. */
  predicate MapOk(s: State) {
    && (forall k :: k in s.flights ==> s.flights[k] < |s.all| && s.all[s.flights[k]].key == k)
    && (forall i :: 0 <= i < |s.all| && s.all[i].key in s.flights ==> i <= s.flights[s.all[i].key])
  }

  /** A flight without a result is in the map. */
  predicate UnpublishedListed(s: State) {
    forall i :: 0 <= i < |s.all| && !s.all[i].published ==> s.all[i].key in s.flights && s.flights[s.all[i].key] == i
  }

  predicate Inv(c: Config, s: State) {
    && FlightsOk(s) && MapOk(s) && UnpublishedListed(s)
    && s.computing == Unreleased(s.all) <= c.maxComputations
    && Sweepers(s.all) == (if s.sweeping then 1 else 0)
  }

  /** The step of flight id's own goroutine from s to s' is one that MoveKeepsInv covers. */
  predicate Moves(s: State, id: nat, s': State) {
    id < |s.all| && id < |s'.all| &&
    var f, f' := s.all[id], s'.all[id];
    && FlightOk(f') && f'.key == f.key
    && (f.published ==> f'.published) && (f.released ==> f'.released)
    && s'.all == s.all[id := f'] && s'.flights == s.flights
    && s'.computing == s.computing - (if f'.released && !f.released then 1 else 0)
    && (if f'.pc == InSweep then s'.sweeping && !s.sweeping && f.pc != InSweep
        else s'.sweeping == (s.sweeping && f.pc != InSweep))
  }

  /** A flight moved on: same key, no result taken back, counters and flag in step. */
  lemma MoveKeepsInv(c: Config, s: State, id: nat, s': State)
    requires Inv(c, s) && Moves(s, id, s')
    ensures Inv(c, s')
  {
    CountsAfterUpdate(s.all, id, s'.all[id]);
  }

  lemma JoinKeepsInv(c: Config, s: State, key: Key, now: int)
    requires Inv(c, s)
    ensures Inv(c, Next(c, s, Join(key, now)))
  {
    var s' := Next(c, s, Join(key, now));
    CountsAfterStart(s.all, Started(key));
    if s' != s {
      forall i | 0 <= i < |s'.all| && !s'.all[i].published
        ensures s'.all[i].key in s'.flights && s'.flights[s'.all[i].key] == i
      {
        if i < |s.all| && s.all[i].key == key {
          assert false;
        }
      }
    }
  }

  lemma TimerKeepsInv(c: Config, s: State, id: nat, now: int)
    requires Inv(c, s)
    ensures Inv(c, Next(c, s, Timer(id, now)))
  {
    var s' := Next(c, s, Timer(id, now));
    if s' != s {
      var f := s.all[id];
      assert FlightOk(f);
      CountsAfterUpdate(s.all, id, f.(armed := false));
      TimerKeepsLists(s, id, f.(armed := false), s');
    }
  }

  lemma TimerKeepsLists(s: State, id: nat, f: Flight, s': State)
    requires MapOk(s) && UnpublishedListed(s) && id < |s.all| && f.key == s.all[id].key && f.published && s.all[id].published
    requires s'.all == s.all[id := f]
    requires s'.flights == if f.key in s.flights && s.flights[f.key] == id then s.flights - {f.key} else s.flights
    ensures MapOk(s') && UnpublishedListed(s')
  {
  }

  lemma RunStepMoves(c: Config, s: State, a: Action)
    requires FlightsOk(s) && !a.Join? && !a.Timer? && Next(c, s, a) != s
    ensures Moves(s, a.id, Next(c, s, a))
  {
    assert FlightOk(s.all[a.id]);
  }

  lemma NextKeepsInv(c: Config, s: State, a: Action)
    requires Inv(c, s)
    ensures Inv(c, Next(c, s, a))
  {
    var s' := Next(c, s, a);
    match a
    case Join(key, now) => JoinKeepsInv(c, s, key, now);
    case Timer(id, now) => TimerKeepsInv(c, s, id, now);
    case _ =>
      if s' != s {
        RunStepMoves(c, s, a);
        MoveKeepsInv(c, s, a.id, s');
      }
  }

  lemma {:induction false} RunKeepsInv(c: Config, run: seq<Action>, n: nat)
    requires n <= |run|
    ensures Inv(c, After(c, run, n))
  {
    if n > 0 {
      RunKeepsInv(c, run, n - 1);
      NextKeepsInv(c, After(c, run, n - 1), run[n - 1]);
    }
  }

  // ----- what callers and computations can rely on, at every point of every run

  lemma {:induction false} SweeperCounted(fs: seq<Flight>, i: nat)
    requires i < |fs| && fs[i].pc == InSweep
    ensures Sweepers(fs) >= 1
    ensures forall j :: i < j < |fs| && fs[j].pc == InSweep ==> Sweepers(fs) >= 2
  {
    var n := |fs| - 1;
    if i < n {
      SweeperCounted(fs[..n], i);
      forall j | i < j < |fs| && fs[j].pc == InSweep
        ensures Sweepers(fs) >= 2
      {
        if j < n {
          assert fs[..n][j].pc == InSweep;
        }
      }
    }
  }

  lemma SingleFlight(c: Config, run: seq<Action>, n: nat, i: nat, j: nat)
    requires n <= |run|
    ensures var s := After(c, run, n);
      i < |s.all| && j < |s.all| ==>
        && (!s.all[i].published ==> s.all[i].key in s.flights && s.flights[s.all[i].key] == i)
        && (!s.all[i].published && !s.all[j].published && s.all[i].key == s.all[j].key ==> i == j)
        && (s.all[i].pc == InSweep && s.all[j].pc == InSweep ==> i == j)
  {
    RunKeepsInv(c, run, n);
    var s := After(c, run, n);
    if i < |s.all| && j < |s.all| && s.all[i].pc == InSweep && s.all[j].pc == InSweep {
      SweeperCounted(s.all, if i < j then i else j);
    }
  }

  /** The cap counts exactly the runs that have not released, and a finished run published and released once. */
  lemma CapAndOnce(c: Config, run: seq<Action>, n: nat)
    requires n <= |run|
    ensures var s := After(c, run, n);
      && s.computing == Unreleased(s.all) <= c.maxComputations
      && (forall i :: 0 <= i < |s.all| ==> s.all[i].closes <= 1 && s.all[i].decrements <= 1)
      && (forall i :: 0 <= i < |s.all| && s.all[i].pc == Done ==> s.all[i].closes == 1 && s.all[i].decrements == 1)
  {
    RunKeepsInv(c, run, n);
    var s := After(c, run, n);
    assert forall i :: 0 <= i < |s.all| ==> FlightOk(s.all[i]);
  }

  predicate Listed(s: State, k: Key, id: nat) {
    k in s.flights && s.flights[k] == id
  }

  /** The flight's own timer, or a caller who finds it expired. */
  predicate EndsListing(s: State, a: Action, k: Key, id: nat) {
    match a
    case Timer(i, _) => i == id
    case Join(key, now) => key == k && !Shareable(s, key, now)
    case _ => false
  }

  /** No action from m to n - 1 ends the listing. */
  predicate NoneEnds(c: Config, run: seq<Action>, m: nat, n: nat, k: Key, id: nat)
    requires m <= n <= |run|
    decreases n
  {
    m == n || (NoneEnds(c, run, m, n - 1, k, id) && !EndsListing(After(c, run, n - 1), run[n - 1], k, id))
  }

  lemma ListedKept(c: Config, s: State, a: Action, k: Key, id: nat)
    requires Listed(s, k, id) && !EndsListing(s, a, k, id)
    ensures Listed(Next(c, s, a), k, id)
  {
  }

  /** Nothing but its own expiry unlists a flight: late timers of others, joins of other keys and panics leave it. */
  lemma {:induction false} StaysListed(c: Config, run: seq<Action>, m: nat, n: nat, k: Key, id: nat)
    requires m <= n <= |run| && Listed(After(c, run, m), k, id) && NoneEnds(c, run, m, n, k, id)
    ensures Listed(After(c, run, n), k, id)
  {
    if m < n {
      StaysListed(c, run, m, n - 1, k, id);
      ListedKept(c, After(c, run, n - 1), run[n - 1], k, id);
    }
  }

  /**
   * A caller gets a flight of its key: the unpublished one when there is one, else an
   * unexpired result, else a new computation; it is turned away exactly when that would
   * exceed the cap.
   */
  lemma JoinIsSound(c: Config, run: seq<Action>, n: nat, key: Key, now: int)
    requires n <= |run|
    ensures var s := After(c, run, n);
      var r, s' := Joined(c, s, key, now), Next(c, s, Join(key, now));
      && (r.Some? ==> r.value < |s'.all| && s'.all[r.value].key == key)
      && (r.Some? && s'.all[r.value].published ==> s' == s && now < s.all[r.value].expires)
      && (forall i :: 0 <= i < |s.all| && !s.all[i].published && s.all[i].key == key ==> r == Some(i) && s' == s)
      && (r.None? ==> s' == s && Unreleased(s.all) == c.maxComputations)
  {
    RunKeepsInv(c, run, n);
  }

  // ----- results are reused for their whole time

  function Clock(a: Action): Option<int> {
    match a
    case Join(_, now) => Some(now)
    case Finish(_, now) => Some(now)
    case Recover(_, now) => Some(now)
    case Timer(_, now) => Some(now)
    case _ => None
  }

  /** The run's clock readings never go back and stay at most at limit. */
  predicate ClockUpTo(run: seq<Action>, n: nat, limit: int)
    requires n <= |run|
  {
    n == 0 || (
      var reading := Clock(run[n - 1]);
      (reading.Some? ==> reading.value <= limit) && ClockUpTo(run, n - 1, if reading.Some? then reading.value else limit))
  }

  predicate UnlistedExpired(s: State, limit: int) {
    forall i :: 0 <= i < |s.all| && !(s.all[i].key in s.flights && s.flights[s.all[i].key] == i) ==> s.all[i].expires <= limit
  }

  lemma NextKeepsUnlisted(c: Config, s: State, a: Action, limit: int, limit': int)
    requires Inv(c, s) && UnlistedExpired(s, limit) && limit <= limit'
    requires Clock(a).Some? ==> limit == Clock(a).value
    ensures UnlistedExpired(Next(c, s, a), limit')
  {
    var s' := Next(c, s, a);
    if s' != s && !a.Join? && !a.Timer? {
      RunStepMoves(c, s, a);
      assert s.all[a.id].published ==> s'.all[a.id].expires == s.all[a.id].expires;
    }
  }

  lemma {:induction false} RunKeepsUnlisted(c: Config, run: seq<Action>, n: nat, limit: int)
    requires n <= |run| && ClockUpTo(run, n, limit)
    ensures UnlistedExpired(After(c, run, n), limit)
  {
    if n > 0 {
      var reading := Clock(run[n - 1]);
      var before := if reading.Some? then reading.value else limit;
      RunKeepsUnlisted(c, run, n - 1, before);
      RunKeepsInv(c, run, n - 1);
      NextKeepsUnlisted(c, After(c, run, n - 1), run[n - 1], before, limit);
    }
  }

  /** Until its result expires, every caller of its key shares the flight, and nothing is computed again. */
  lemma ReusedUntilExpiry(c: Config, run: seq<Action>, n: nat, id: nat, now: int)
    requires n <= |run| && ClockUpTo(run, n, now) && id < |After(c, run, n).all|
    requires var f := After(c, run, n).all[id]; f.published ==> now < f.expires
    ensures var s := After(c, run, n);
      Joined(c, s, s.all[id].key, now) == Some(id) && Next(c, s, Join(s.all[id].key, now)) == s
  {
    RunKeepsInv(c, run, n);
    RunKeepsUnlisted(c, run, n, now);
  }

  lemma PublishedKept(c: Config, s: State, a: Action, id: nat)
    requires id < |s.all| && s.all[id].published
    ensures id < |Next(c, s, a).all|
    ensures var f := Next(c, s, a).all[id]; f.published && f.expires == s.all[id].expires && f.key == s.all[id].key
  {
  }

  /** A result and its expiry stand as they were published. */
  lemma {:induction false} PublishedStays(c: Config, run: seq<Action>, m: nat, n: nat, id: nat)
    requires m <= n <= |run| && id < |After(c, run, m).all| && After(c, run, m).all[id].published
    ensures id < |After(c, run, n).all|
    ensures var f, g := After(c, run, m).all[id], After(c, run, n).all[id];
      g.published && g.expires == f.expires && g.key == f.key
  {
    if m < n {
      PublishedStays(c, run, m, n - 1, id);
      PublishedKept(c, After(c, run, n - 1), run[n - 1], id);
    }
  }

  lemma ExpiredIsNotShared(c: Config, s: State, id: nat, now: int)
    requires id < |s.all| && s.all[id].published && s.all[id].expires <= now
    ensures Joined(c, s, s.all[id].key, now) != Some(id)
  {
  }

  lemma SharedUntil(c: Config, run: seq<Action>, m: nat, n: nat, id: nat, now: int)
    requires m <= n <= |run| && ClockUpTo(run, n, now)
    requires id < |After(c, run, m).all| && After(c, run, m).all[id].published
    ensures var s, f := After(c, run, n), After(c, run, m).all[id];
      id < |s.all| && s.all[id].key == f.key && (Joined(c, s, f.key, now) == Some(id) <==> now < f.expires)
  {
    PublishedStays(c, run, m, n, id);
    if now < After(c, run, n).all[id].expires {
      ReusedUntilExpiry(c, run, n, id, now);
    } else {
      ExpiredIsNotShared(c, After(c, run, n), id, now);
    }
  }

  lemma OneStep(c: Config, run: seq<Action>, m: nat)
    requires m < |run|
    ensures After(c, run, m + 1) == Next(c, After(c, run, m), run[m])
  {
  }

  lemma FinishPublishes(c: Config, s: State, id: nat, at: int)
    requires id < |s.all| && s.all[id].pc == Body && !s.all[id].published
    ensures var s' := Next(c, s, Finish(id, at));
      id < |s'.all| && s'.all[id].published && s'.all[id].expires == at + c.resultTtl && s'.all[id].key == s.all[id].key
  {
  }

  lemma RecoverPublishes(c: Config, s: State, id: nat, at: int)
    requires id < |s.all| && s.all[id].pc == Leaving(true) && !s.all[id].published
    ensures var s' := Next(c, s, Recover(id, at));
      id < |s'.all| && s'.all[id].published && s'.all[id].expires == at && s'.all[id].key == s.all[id].key
  {
  }

  /**
   * A computation that ended at a moment is shared from then on exactly until resultTtl
   * later, for every caller of its key in every run.
   */
  lemma SharedForTtl(c: Config, run: seq<Action>, m: nat, n: nat, id: nat, at: int, now: int)
    requires m < n <= |run| && run[m] == Finish(id, at) && ClockUpTo(run, n, now)
    requires id < |After(c, run, m).all| && After(c, run, m).all[id].pc == Body
    ensures var s := After(c, run, n);
      id < |s.all| && s.all[id].key == After(c, run, m).all[id].key &&
      (Joined(c, s, s.all[id].key, now) == Some(id) <==> now < at + c.resultTtl)
  {
    RunKeepsInv(c, run, m);
    assert FlightOk(After(c, run, m).all[id]);
    FinishPublishes(c, After(c, run, m), id, at);
    OneStep(c, run, m);
    SharedUntil(c, run, m + 1, n, id, now);
  }

  lemma {:induction false} ReadingBefore(run: seq<Action>, m: nat, n: nat, limit: int)
    requires m < n <= |run| && ClockUpTo(run, n, limit)
    ensures Clock(run[m]).Some? ==> Clock(run[m]).value <= limit
    decreases n
  {
    if m < n - 1 {
      ReadingBefore(run, m, n - 1, if Clock(run[n - 1]).Some? then Clock(run[n - 1]).value else limit);
    }
  }

  /** A computation that panicked before it had a result is shared by nobody from the moment it is recovered. */
  lemma FailureIsNotShared(c: Config, run: seq<Action>, m: nat, n: nat, id: nat, at: int, now: int)
    requires m < n <= |run| && run[m] == Recover(id, at) && ClockUpTo(run, n, now)
    requires id < |After(c, run, m).all| && After(c, run, m).all[id].pc == Leaving(true) && !After(c, run, m).all[id].published
    ensures var s := After(c, run, n);
      id < |s.all| && Joined(c, s, s.all[id].key, now) != Some(id)
  {
    ReadingBefore(run, m, n, now);
    RecoverPublishes(c, After(c, run, m), id, at);
    OneStep(c, run, m);
    SharedUntil(c, run, m + 1, n, id, now);
  }

  // ----- every computation can end

  function Rank(pc: Pc): nat {
    match pc
    case Body => 6
    case AfterPublish => 5
    case AfterRelease => 4
    case InSweep => 3
    case Leaving(_) => 2
    case Returning => 1
    case Done => 0
  }

  function TotalRank(fs: seq<Flight>): nat {
    if fs == [] then 0 else TotalRank(fs[..|fs| - 1]) + Rank(fs[|fs| - 1].pc)
  }

  lemma {:induction false} TotalRankAfterUpdate(fs: seq<Flight>, i: nat, f: Flight)
    requires i < |fs|
    ensures TotalRank(fs[i := f]) + Rank(fs[i].pc) == TotalRank(fs) + Rank(f.pc)
  {
    var n := |fs| - 1;
    if i < n {
      TotalRankAfterUpdate(fs[..n], i, f);
      assert fs[i := f][..n] == fs[..n][i := f];
    } else {
      assert fs[i := f][..n] == fs[..n];
    }
  }

  /** Every own step of a computation brings it closer to its end, whatever else runs. */
  lemma StepsEnd(c: Config, s: State, a: Action)
    requires !a.Join? && !a.Timer? && Next(c, s, a) != s
    ensures a.id < |s.all| && TotalRank(Next(c, s, a).all) < TotalRank(s.all)
  {
    TotalRankAfterUpdate(s.all, a.id, Next(c, s, a).all[a.id]);
  }

  /** A computation that has not ended has a step to take. */
  function OwnStep(s: State, id: nat, now: int): (a: Action)
    requires id < |s.all|
  {
    match s.all[id].pc
    case Body => Finish(id, now)
    case AfterPublish => Release(id)
    case AfterRelease => TrySweep(id)
    case InSweep => EndSweep(id)
    case Leaving(_) => Recover(id, now)
    case _ => Return(id)
  }

  lemma {:induction false} NoneUnreleased(fs: seq<Flight>)
    requires forall i :: 0 <= i < |fs| ==> fs[i].released
    ensures Unreleased(fs) == 0
  {
    if fs != [] {
      NoneUnreleased(fs[..|fs| - 1]);
    }
  }

  lemma OwnStepCounts(c: Config, s: State, id: nat, now: int)
    requires id < |s.all| && s.all[id].pc != Done
    ensures TotalRank(Next(c, s, OwnStep(s, id, now)).all) < TotalRank(s.all)
  {
    var a := OwnStep(s, id, now);
    assert Next(c, s, a).all[id].pc != s.all[id].pc;
    StepsEnd(c, s, a);
  }

  function Exec(c: Config, s: State, actions: seq<Action>): State
    decreases |actions|
  {
    if actions == [] then s else Exec(c, Next(c, s, actions[0]), actions[1..])
  }

  predicate Idle(s: State) {
    s.computing == 0 && forall i :: 0 <= i < |s.all| ==> s.all[i].pc == Done
  }

  lemma DoneIsIdle(c: Config, s: State)
    requires Inv(c, s) && forall i :: 0 <= i < |s.all| ==> s.all[i].pc == Done
    ensures Idle(s)
  {
    forall i | 0 <= i < |s.all|
      ensures s.all[i].released
    {
      assert FlightOk(s.all[i]);
    }
    NoneUnreleased(s.all);
  }

  lemma {:induction false} Drain(c: Config, s: State, now: int) returns (more: seq<Action>)
    requires Inv(c, s)
    ensures Idle(Exec(c, s, more))
    decreases TotalRank(s.all)
  {
    if i :| 0 <= i < |s.all| && s.all[i].pc != Done {
      var a := OwnStep(s, i, now);
      OwnStepCounts(c, s, i, now);
      NextKeepsInv(c, s, a);
      var rest := Drain(c, Next(c, s, a), now);
      more := [a] + rest;
      assert more[1..] == rest;
    } else {
      more := [];
      DoneIsIdle(c, s);
    }
  }

  lemma ExecFirst(c: Config, s: State, actions: seq<Action>)
    requires actions != []
    ensures Exec(c, s, actions) == Exec(c, Next(c, s, actions[0]), actions[1..])
  {
  }

  lemma {:induction false} ExecIsAfter(c: Config, run: seq<Action>, more: seq<Action>)
    ensures After(c, run + more, |run| + |more|) == Exec(c, After(c, run, |run|), more)
    decreases |more|
  {
    if more == [] {
      assert run + more == run;
    } else {
      var longer, rest := run + [more[0]], more[1..];
      assert longer + rest == run + more && |longer| + |rest| == |run| + |more|;
      ExecIsAfter(c, longer, rest);
      AfterAppend(c, run, more[0]);
      ExecFirst(c, After(c, run, |run|), more);
    }
  }

  lemma {:induction false} AfterPrefix(c: Config, run: seq<Action>, a: Action, n: nat)
    requires n <= |run|
    ensures After(c, run + [a], n) == After(c, run, n)
  {
    if n > 0 {
      AfterPrefix(c, run, a, n - 1);
    }
  }

  lemma AfterAppend(c: Config, run: seq<Action>, a: Action)
    ensures After(c, run + [a], |run| + 1) == Next(c, After(c, run, |run|), a)
  {
    AfterPrefix(c, run, a, |run|);
  }

  /** From every reachable point the computations can all end, and then no place under the cap is lost. */
  lemma CanDrain(c: Config, run: seq<Action>, now: int) returns (more: seq<Action>)
    ensures Idle(After(c, run + more, |run| + |more|))
  {
    RunKeepsInv(c, run, |run|);
    more := Drain(c, After(c, run, |run|), now);
    ExecIsAfter(c, run, more);
  }
}
