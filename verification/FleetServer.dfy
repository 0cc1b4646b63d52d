/**
 * The shared state of the fleet overview and the critical sections over it. Each does
 * what its action does in the protocol of FleetFlights, which holds the promises.
 */
module FleetServer {
  import opened FleetFlights

  /** A flight as its callers hold it, with the flags of the once-guarded publish and release. */
  class FlightCell {
    const key: Key
    var done: bool
    var expires: int
    var released: bool

    constructor (key: Key)
      ensures this.key == key && !done && !released && expires == 0
    {
      this.key := key;
      done, expires, released := false, 0, false;
    }
  }

  lemma TimerEffect(c: Config, s: State, id: nat, now: int)
    requires id < |s.all| && s.all[id].armed && now >= s.all[id].expires
    ensures var s', f := Next(c, s, Action.Timer(id, now)), s.all[id];
      && s'.all == s.all[id := f.(armed := false)] && s'.computing == s.computing && s'.sweeping == s.sweeping
      && s'.flights == if f.key in s.flights && s.flights[f.key] == id then s.flights - {f.key} else s.flights
  {
  }

  class Fleet {
    const config: Config
    var flights: map<Key, FlightCell>
    var computing: int
    var sweeping: bool

    /** Every flight ever started the protocol state they stand for, and the run that led to it. */
    ghost var cells: seq<FlightCell>
    ghost var state: State
    ghost var trace: seq<Action>

    ghost predicate CellsKept()
      reads this`cells, this`state, cells
    {
      && |cells| == |state.all|
      && (forall i, j :: 0 <= i < j < |cells| ==> cells[i] != cells[j])
      && forall i :: 0 <= i < |cells| ==> Stands(cells[i], state.all[i])
    }

    ghost predicate Stands(cell: FlightCell, f: Flight)
      reads cell
    {
      cell.key == f.key && cell.done == f.published && cell.expires == f.expires && cell.released == f.released
    }

    ghost predicate MapKept()
      reads this`cells, this`state, this`flights
    {
      && flights.Keys == state.flights.Keys
      && forall k :: k in flights ==> state.flights[k] < |cells| && flights[k] == cells[state.flights[k]]
    }

    ghost predicate Valid()
      reads this, cells
    {
      && CellsKept() && MapKept() && state == After(config, trace, |trace|)
      && computing == state.computing && sweeping == state.sweeping
    }

    constructor (config: Config)
      ensures Valid() && state == EMPTY && this.config == config
    {
      this.config := config;
      flights, computing, sweeping := map[], 0, false;
      cells, state, trace := [], EMPTY, [];
    }

    /** One more action of the run. */
    twostate predicate Taken(a: Action)
      reads this`state, this`trace
    {
      state == Next(config, old(state), a) && trace == old(trace) + [a]
    }

    ghost method Take(a: Action)
      requires state == After(config, trace, |trace|)
      modifies this`state, this`trace
      ensures Taken(a) && state == After(config, trace, |trace|)
    {
      AfterAppend(config, trace, a);
      state, trace := Next(config, state, a), trace + [a];
    }

    /** What the protocol promises holds of the shared state. */
    lemma Promised()
      requires Valid()
      ensures Inv(config, state) && computing == Unreleased(state.all) <= config.maxComputations
      ensures forall i :: 0 <= i < |cells| && !cells[i].done ==> cells[i].key in flights && flights[cells[i].key] == cells[i]
    {
      RunKeepsInv(config, trace, |trace|);
      forall i | 0 <= i < |cells| && !cells[i].done
        ensures cells[i].key in flights && flights[cells[i].key] == cells[i]
      {
        assert Stands(cells[i], state.all[i]);
      }
    }

    /** Starts a computation of the key and lists it. */
    method Start(key: Key, now: int) returns (cell: FlightCell)
      requires Valid() && !Shareable(state, key, now) && computing < config.maxComputations
      modifies this
      ensures Valid() && Taken(Action.Join(key, now)) && cells == old(cells) + [cell]
    {
      computing := computing + 1;
      cell := new FlightCell(key);
      flights := flights[key := cell];
      cells := cells + [cell];
      Take(Action.Join(key, now));
    }

    /** Shares the flight of the key or starts one; null means too many computations are running. */
    method Join(key: Key, now: int) returns (cell: FlightCell?)
      requires Valid()
      modifies this
      ensures Valid() && Taken(Action.Join(key, now))
      ensures var joined := Joined(config, old(state), key, now);
        if joined.None? then cell == null else joined.value < |cells| && cell == cells[joined.value]
    {
      ghost var a := Action.Join(key, now);
      if key in flights {
        var fl := flights[key];
        assert Stands(fl, state.all[state.flights[key]]);
        if fl.done {
          if now < fl.expires {
            Take(a);
            return fl;
          }
        } else {
          Take(a);
          return fl;
        }
      }
      assert !Shareable(state, key, now);
      if computing >= config.maxComputations {
        Take(a);
        return null;
      }
      cell := Start(key, now);
    }

    /** Publishes once: a second call leaves the first result in place. */
    method Publish(cell: FlightCell, expires: int)
      modifies cell`done, cell`expires
      ensures cell.done && cell.expires == if old(cell.done) then old(cell.expires) else expires
    {
      if !cell.done {
        cell.done, cell.expires := true, expires;
      }
    }

    /** The computation of the flight is over; the result stays for the time to live. */
    method Finish(cell: FlightCell, ghost id: nat, now: int)
      requires Valid() && id < |cells| && cells[id] == cell && state.all[id].pc == Body
      modifies this`state, this`trace, cell`done, cell`expires
      ensures Valid() && Taken(Action.Finish(id, now))
    {
      Take(Action.Finish(id, now));
      Publish(cell, now + config.resultTtl);
    }

    /** The deferred recovery of a run: after a panic an error is published, to be held no longer than now. */
    method Recover(cell: FlightCell, ghost id: nat, panicked: bool, now: int)
      requires Valid() && id < |cells| && cells[id] == cell && state.all[id].pc == Leaving(panicked)
      modifies this`state, this`trace, cell`done, cell`expires
      ensures Valid() && Taken(Action.Recover(id, now))
    {
      Take(Action.Recover(id, now));
      if panicked {
        Publish(cell, now);
      }
    }

    /** Gives the place under the cap back, once. */
    method ReleaseOnce(cell: FlightCell, ghost id: nat, ghost a: Action)
      requires Valid() && id < |cells| && cells[id] == cell
      requires (a == Action.Release(id) && state.all[id].pc == AfterPublish) || (a == Action.Return(id) && state.all[id].pc == Returning)
      modifies this`state, this`trace, this`computing, cell`released
      ensures Valid() && Taken(a)
    {
      assert Stands(cell, state.all[id]);
      Take(a);
      if !cell.released {
        cell.released := true;
        computing := computing - 1;
      }
    }

    /** Claims the sweep unless another run has it. */
    method TrySweep(ghost id: nat) returns (claimed: bool)
      requires Valid() && id < |cells| && state.all[id].pc == AfterRelease
      modifies this`state, this`trace, this`sweeping
      ensures Valid() && Taken(Action.TrySweep(id))
      ensures claimed == !old(sweeping) && state.all[id].pc == if claimed then InSweep else Leaving(false)
    {
      Take(Action.TrySweep(id));
      claimed := !sweeping;
      sweeping := true;
    }

    /** The deferred end of a sweep, also run after a panic inside it. */
    method EndSweep(ghost id: nat, panicked: bool)
      requires Valid() && id < |cells| && state.all[id].pc == InSweep
      modifies this`state, this`trace, this`sweeping
      ensures Valid() && Taken(if panicked then Action.Panic(id) else Action.EndSweep(id))
    {
      ghost var a := if panicked then Action.Panic(id) else Action.EndSweep(id);
      Take(a);
      sweeping := false;
    }

    /** The expiry timer of a flight fires. */
    method Expire(cell: FlightCell, ghost id: nat, ghost now: int)
      requires Valid() && id < |cells| && cells[id] == cell && state.all[id].armed && now >= cell.expires
      modifies this`state, this`trace, this`flights
      ensures Valid() && Taken(Action.Timer(id, now))
    {
      assert Stands(cell, state.all[id]);
      TimerEffect(config, state, id, now);
      Take(Action.Timer(id, now));
      if cell.key in flights && flights[cell.key] == cell {
        flights := flights - {cell.key};
      }
    }
  }
}
