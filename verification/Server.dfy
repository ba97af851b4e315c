/** The running server: the connection table and the loop over it. */
module Server {
  import opened Prelude
  import opened Environment
  import Spec = SessionSpec
  import opened ServerSpec
  import Sessions

  class Server {
    const host: Host
    const connections: array<Sessions.Session?>
    const ls: nat
    /** All objects of all sessions. */
    ghost var Repr: set<object>

    /** Every slot's session is its own: the ghost owners and slot numbers keep the objects apart. */
    ghost predicate Valid()
      reads *
    {
      && connections.Length == MAX_CONNECTIONS
      && (forall i | 0 <= i < connections.Length && connections[i] != null ::
           connections[i].Valid() && connections[i].slot == i && connections[i].Repr() <= Repr)
      && (forall i, j | 0 <= i < j < connections.Length && connections[i] != null && connections[j] != null ::
           connections[i].line.cells != connections[j].line.cells)
    }

    ghost function SlotView(i: int): Option<Spec.Session>
      requires 0 <= i < connections.Length
      requires connections[i] != null ==> connections[i].Valid()
      reads this, connections, connections[i], if connections[i] == null then {} else connections[i].Repr()
    {
      if connections[i] == null then None else Some(connections[i].View())
    }

    /** The object graph shows the state `w`. */
    ghost predicate Shows(w: World)
      requires Valid()
      reads *
    {
      && w.m == host.m && w.ls == ls && |w.slots| == connections.Length
      && forall i | 0 <= i < |w.slots| :: w.slots[i] == SlotView(i)
    }

    constructor (host: Host, ls: nat)
      ensures Valid() && fresh(connections) && fresh(Repr) && this.host == host
      ensures Shows(World(seq(MAX_CONNECTIONS, _ => None), host.m, ls))
    {
      this.host, this.ls, Repr := host, ls, {};
      connections := new Sessions.Session?[MAX_CONNECTIONS](_ => null);
    }

    /** Collect the watched descriptors and the largest of them. */
    method BuildWatch(ghost w: World) returns (watched: set<int>, maxfd: int)
      requires Valid() && Shows(w)
      ensures watched == Watched(w)
      ensures maxfd in watched && forall n <- watched :: n <= maxfd
    {
      watched, maxfd := {ls}, ls;
      for i := 0 to connections.Length
        invariant watched == WatchedUpTo(w, i)
        invariant maxfd in watched && forall n <- watched :: n <= maxfd
      {
        assert w.slots[i] == SlotView(i);
        var s := connections[i];
        if s != null {
          watched, maxfd := watched + {i}, if i > maxfd then i else maxfd;
          if s.fd > -1 && s.mode != Spec.Confirm {
            watched, maxfd := watched + {s.fd}, if s.fd > maxfd then s.fd else maxfd;
          }
        }
      }
    }

    /** `accept_client` */
    method Accept(ghost w: World, a: Answers)
      requires Valid() && Shows(w)
      modifies this, host, connections
      ensures Valid() && fresh(Repr - old(Repr))
      ensures Shows(ServerSpec.Accept(w, a))
    {
      var n := a.newHandle;
      if !Usable(host.m, n) {
        return;
      }
      host.m := host.m.(handles := host.m.handles[n := Socket], wire := host.m.wire[n := []]);
      var s := new Sessions.Session(n, a.staleUid);
      connections[n] := s;
      Repr := Repr + s.Repr();
      assert forall j | 0 <= j < connections.Length && j != n :: SlotView(j) == old(SlotView(j));
    }

    /** Accept a client if the listening socket is readable. */
    method AcceptPending(ghost w: World, readable: set<int>, a: Answers)
      requires Valid() && Shows(w) && Shaped(w)
      modifies this, host, connections
      ensures Valid() && fresh(Repr - old(Repr))
      ensures Shows(Arrive(w, readable, a))
    {
      if ls in readable {
        Accept(w, a);
      }
    }

    /** No other session has an object of the session of slot `i`. */
    ghost predicate Separate(i: int)
      requires 0 <= i < connections.Length && connections[i] != null
      reads *
    {
      forall j | 0 <= j < connections.Length && j != i && connections[j] != null ::
        && connections[j] !in connections[i].Repr() && connections[j].line !in connections[i].Repr()
        && connections[j].line.cells !in connections[i].Repr()
        && (connections[j].file != null ==> connections[j].file !in connections[i].Repr())
    }

    /** Sessions in different slots share no object. */
    lemma KeptApart(i: int)
      requires Valid() && 0 <= i < connections.Length && connections[i] != null
      ensures Separate(i)
    {
    }

    /** No object of a session but that of slot `i` has changed. */
    twostate predicate OthersKept(i: int)
      requires 0 <= i < connections.Length
      reads *
    {
      && unchanged(connections)
      && forall j | 0 <= j < connections.Length && j != i && connections[j] != null ::
          && unchanged(connections[j]) && unchanged(connections[j].line) && unchanged(connections[j].line.cells)
          && (connections[j].file != null ==> unchanged(connections[j].file))
    }

    /** What touches only the session of slot `i` and the machine leaves the other slots as they were. */
    twostate lemma Undisturbed(i: int)
      requires old(Valid()) && 0 <= i < connections.Length && OthersKept(i)
      ensures forall j | 0 <= j < connections.Length && j != i ::
          && (connections[j] != null ==> connections[j].Valid() && connections[j].Repr() == old(connections[j].Repr()))
          && SlotView(j) == old(SlotView(j))
    {
    }

    /** The table is in order once the session of slot `i` is. */
    twostate lemma InOrder(i: int)
      requires old(Valid()) && 0 <= i < connections.Length && connections[i] != null && OthersKept(i)
      requires connections[i].Valid() && connections[i].Repr() <= Repr && old(Repr) <= Repr
      ensures Valid()
    {
      Undisturbed(i);
    }

    /** Let the session of slot `i` act; nothing else in the table changes. */
    method TakeTurn(i: nat, readable: set<int>, a: Answers, h: Spec.Hash) returns (open: bool)
      requires i < connections.Length && connections[i] != null && connections[i].Valid() && Separate(i)
      requires connections[i].Repr() <= Repr && Spec.FileHeld(connections[i].View())
      modifies this`Repr, host, connections[i].Repr()
      ensures OthersKept(i) && old(Repr) <= Repr && fresh(Repr - old(Repr))
      ensures connections[i].Valid() && connections[i].Repr() <= Repr
      ensures var after := Spec.SlotTurn(old(connections[i].At(host)), i, readable, a, h);
              host.m == after.m && open == after.s.Some? && (open ==> SlotView(i) == after.s)
    {
      var s := connections[i];
      open := s.SlotTurn(host, i, readable, a, h);
      Repr := Repr + s.Repr();
    }

    /** The body of the dispatch loop; `w'` is the state it leads to. */
    method Dispatch(ghost w: World, i: nat, readable: set<int>, a: Answers, h: Spec.Hash) returns (ghost w': World)
      requires Valid() && Shows(w) && Shaped(w) && i < MAX_CONNECTIONS
      modifies this, host, connections, Repr
      ensures Valid() && fresh(Repr - old(Repr))
      ensures w' == ServerSpec.Dispatch(w, i, readable, a, h) && Shaped(w') && Shows(w')
    {
      assert w.slots[i] == SlotView(i);
      w' := ServerSpec.Dispatch(w, i, readable, a, h);
      if connections[i] != null {
        KeptApart(i);
        var open := TakeTurn(i, readable, a, h);
        InOrder(i);
        Undisturbed(i);
        Record(w', i, open);
      }
    }

    /** Record the outcome of the turn of slot `i`, every other slot being as it was. */
    method Record(ghost w': World, i: nat, open: bool)
      requires Valid() && i < connections.Length && |w'.slots| == connections.Length
      requires forall j | 0 <= j < connections.Length && j != i :: w'.slots[j] == SlotView(j)
      requires connections[i] != null && w'.slots[i] == if open then SlotView(i) else None
      requires w'.m == host.m && w'.ls == ls
      modifies connections
      ensures Valid() && Shows(w')
    {
      if !open {
        connections[i] := null;
        assert forall j | 0 <= j < connections.Length && j != i :: SlotView(j) == old(SlotView(j));
      }
    }

    /** The dispatch loop. */
    method Sweep(ghost w: World, readable: set<int>, turns: int -> Answers, h: Spec.Hash)
      requires Valid() && Shows(w) && Shaped(w)
      modifies this, host, connections, Repr
      ensures Valid() && fresh(Repr - old(Repr))
      ensures Shows(ServerSpec.Sweep(w, 0, readable, turns, h))
    {
      ghost var ws := [w];
      for i := 0 to connections.Length
        invariant Valid() && |ws| == i + 1 && ws[0] == w && fresh(Repr - old(Repr))
        invariant Swept(ws, readable, turns, h) && Shows(ws[i])
      {
        ghost var v := Dispatch(ws[i], i, readable, turns(i), h);
        SweptOn(ws, v, readable, turns, h);
        ws := ws + [v];
      }
      SweptFrom(ws, 0, readable, turns, h);
    }

    /** One iteration of `server_main_loop`: watch, wait, accept, dispatch. */
    method Iterate(ghost w: World, r: Round, h: Spec.Hash)
      requires Valid() && Shows(w) && Shaped(w)
      modifies this, host, connections, Repr
      ensures Valid() && fresh(Repr - old(Repr))
      ensures Shows(ServerSpec.Iterate(w, r, h))
    {
      var watched, maxfd := BuildWatch(w);
      Serve(w, watched * r.ready, r, h);
    }

    /** Accept and dispatch. */
    method Serve(ghost w: World, readable: set<int>, r: Round, h: Spec.Hash)
      requires Valid() && Shows(w) && Shaped(w) && readable == Watched(w) * r.ready
      modifies this, host, connections, Repr
      ensures Valid() && fresh(Repr - old(Repr))
      ensures Shows(ServerSpec.Iterate(w, r, h))
    {
      ghost var w1 := Arrive(w, readable, r.arrival);
      AcceptPending(w, readable, r.arrival);
      ghost var between := Repr;
      Sweep(w1, readable, r.turns, h);
      assert Repr - old(Repr) <= (Repr - between) + (between - old(Repr));
    }

    /** Any finite stretch of the endless loop. */
    method MainLoop(ghost w: World, rounds: seq<Round>, h: Spec.Hash)
      requires Valid() && Shows(w) && Shaped(w)
      modifies this, host, connections, Repr
      ensures Valid() && Shows(Run(w, rounds, h))
    {
      ghost var v := w;
      assert rounds[0..] == rounds;
      for k := 0 to |rounds|
        invariant Valid() && Shaped(v) && Shows(v) && fresh(Repr - old(Repr))
        invariant Run(w, rounds, h) == Run(v, rounds[k..], h)
      {
        RunStep(v, rounds, k, h);
        Iterate(v, rounds[k], h);
        v := ServerSpec.Iterate(v, rounds[k], h);
      }
      RunStep(v, rounds, |rounds|, h);
    }
  }
}
