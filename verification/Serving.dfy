/** What one iteration of the main loop does for each session: whom it watches, and whom it serves. */
module Serving {
  import opened Prelude
  import opened Naming
  import opened Environment
  import opened SessionSpec
  import opened ServerSpec
  import opened Invariant
  import opened Confinement
  import opened Interleaving

  // ----- the watch set -----

  /** The server watches its listening socket, every session's socket, and every open file but that of a session that
      waits for a confirmation. */
  lemma WatchedIff(w: World, n: int)
    ensures n in Watched(w) <==>
      || n == w.ls
      || (0 <= n < |w.slots| && w.slots[n].Some?)
      || (n >= 0 && exists i | 0 <= i < |w.slots| && w.slots[i].Some? ::
                      w.slots[i].value.fd == n && w.slots[i].value.mode != Confirm)
  {
    WatchedMembers(w, |w.slots|, n);
    forall i | 0 <= i < |w.slots| && n in WatchedFor(w, i)
      ensures w.slots[i].Some? && (n == i || w.slots[i].value.fd == n)
    {
    }
    if 0 <= n < |w.slots| && w.slots[n].Some? {
      assert n in WatchedFor(w, n);
    }
    if n >= 0 && exists i | 0 <= i < |w.slots| && w.slots[i].Some? ::
         w.slots[i].value.fd == n && w.slots[i].value.mode != Confirm {
      var i :| 0 <= i < |w.slots| && w.slots[i].Some? && w.slots[i].value.fd == n && w.slots[i].value.mode != Confirm;
      assert n in WatchedFor(w, i);
    }
  }

  /** So a transfer is woken by its file, a request by its socket, and a paused download not by its file. */
  lemma WatchesWhatItServes(w: World, i: nat)
    requires Inv(w) && i < MAX_CONNECTIONS && w.slots[i].Some?
    ensures var s := w.slots[i].value;
            && i in Watched(w)
            && (s.mode == Upload || s.mode == Download ==> s.fd >= 0 && s.fd in Watched(w))
            && (s.mode == Confirm ==> s.fd >= 0 && s.fd !in Watched(w))
  {
    var s := w.slots[i].value;
    assert SlotOk(s, i, w.m);
    WatchedIff(w, i);
    WatchedIff(w, s.fd);
    if s.mode == Confirm {
      forall j | 0 <= j < |w.slots| && w.slots[j].Some?
        ensures s.fd != j && (j != i ==> s.fd != w.slots[j].value.fd)
      {
        assert SlotOk(w.slots[j].value, j, w.m) && (j != i ==> Apart(s, w.slots[j].value, w.m));
      }
    }
  }

  // ----- the dispatch loop up to a slot -----

  /** The state in which the dispatch loop gets to slot `n`. */
  function SweepTo(w: World, n: nat, readable: set<int>, turns: int -> Answers, h: Hash): (w': World)
    requires Shaped(w) && n <= MAX_CONNECTIONS
    ensures Shaped(w') && w'.ls == w.ls
  {
    if n == 0 then w else Dispatch(SweepTo(w, n - 1, readable, turns, h), n - 1, readable, turns(n - 1), h)
  }

  lemma {:induction false} SweepGoesThrough(w: World, n: nat, readable: set<int>, turns: int -> Answers, h: Hash)
    requires Shaped(w) && n <= MAX_CONNECTIONS
    ensures Sweep(w, 0, readable, turns, h) == Sweep(SweepTo(w, n, readable, turns, h), n, readable, turns, h)
  {
    if n > 0 {
      SweepGoesThrough(w, n - 1, readable, turns, h);
    }
  }

  lemma {:induction false} LaterTurnsKeep(w: World, n: nat, readable: set<int>, turns: int -> Answers, h: Hash, i: nat)
    requires Shaped(w) && i < n <= MAX_CONNECTIONS
    ensures Sweep(w, n, readable, turns, h).slots[i] == w.slots[i]
    decreases MAX_CONNECTIONS - n
  {
    if n < MAX_CONNECTIONS {
      LaterTurnsKeep(Dispatch(w, n, readable, turns(n), h), n + 1, readable, turns, h, i);
    }
  }

  /** The slot itself is what the turn of its session makes of it. */
  lemma SweepServes(w: World, readable: set<int>, turns: int -> Answers, h: Hash, i: nat)
    requires Shaped(w) && i < MAX_CONNECTIONS
    ensures Sweep(w, 0, readable, turns, h).slots[i]
            == Dispatch(SweepTo(w, i, readable, turns, h), i, readable, turns(i), h).slots[i]
  {
    SweepGoesThrough(w, i, readable, turns, h);
    LaterTurnsKeep(Dispatch(SweepTo(w, i, readable, turns, h), i, readable, turns(i), h), i + 1, readable, turns, h, i);
  }

  // ----- what a session can see -----

  /** All that the turn of a session in a transfer or a dialogue depends on is the same in both machines. */
  predicate Sees(s: Session, i: int, m: Machine, m': Machine) {
    && (s.fd >= 0 ==> Same(m.handles, m'.handles, s.fd)) && (i >= 0 ==> Same(m.wire, m'.wire, i))
    && (NeedsFile(s.mode) && s.file.Some? ==> Same(m.files, m'.files, s.file.value.path))
  }

  lemma TouchesKeepsView(s: Session, i: nat, m: Machine, m': Machine, t: Session, j: nat)
    requires SlotOk(s, i, m) && SlotOk(t, j, m) && i != j && Apart(s, t, m) && Apart(t, s, m) && Touches(s, i, m, m')
    ensures Sees(t, j, m, m')
  {
    BystanderKept(s, i, m, m', t, j);
  }

  lemma AcceptKeepsView(w: World, a: Answers, j: nat)
    requires Inv(w) && j < MAX_CONNECTIONS && w.slots[j].Some?
    ensures Accept(w, a).slots[j] == w.slots[j] && Sees(w.slots[j].value, j, w.m, Accept(w, a).m)
  {
    assert SlotOk(w.slots[j].value, j, w.m);
    if Usable(w.m, a.newHandle) {
      AcceptFillsEmptySlot(w, a.newHandle);
    }
  }

  lemma DispatchKeepsView(w: World, i: nat, readable: set<int>, a: Answers, h: Hash, j: nat)
    requires Inv(w) && i < MAX_CONNECTIONS && j < MAX_CONNECTIONS && i != j && w.slots[j].Some?
    ensures Shaped(w) && Dispatch(w, i, readable, a, h).slots[j] == w.slots[j]
    ensures Sees(w.slots[j].value, j, w.m, Dispatch(w, i, readable, a, h).m)
  {
    InvShaped(w);
    assert SlotOk(w.slots[j].value, j, w.m);
    if w.slots[i].Some? {
      var s := w.slots[i].value;
      assert SlotOk(s, i, w.m);
      SlotTurnConfined(Turn(s, w.m), i, readable, a, h, w.ls);
      TouchesKeepsView(s, i, w.m, SlotTurn(Turn(s, w.m), i, readable, a, h).m, w.slots[j].value, j);
    }
  }

  lemma DispatchKeepsAll(w: World, i: nat, readable: set<int>, a: Answers, h: Hash, j: nat, s: Session, m: Machine)
    requires Inv(w) && i < MAX_CONNECTIONS && j < MAX_CONNECTIONS && i != j
    requires w.slots[j] == Some(s) && Sees(s, j, m, w.m)
    ensures Shaped(w)
    ensures var w' := Dispatch(w, i, readable, a, h);
            Inv(w') && w'.slots[j] == Some(s) && Sees(s, j, m, w'.m)
  {
    DispatchKeepsView(w, i, readable, a, h, j);
    DispatchKeepsInv(w, i, readable, a, h);
  }

  lemma {:induction false} SweepToKeepsView(w: World, n: nat, readable: set<int>, turns: int -> Answers, h: Hash,
                                            j: nat)
    requires Inv(w) && n <= j < MAX_CONNECTIONS && w.slots[j].Some?
    ensures Shaped(w) && Inv(SweepTo(w, n, readable, turns, h))
    ensures SweepTo(w, n, readable, turns, h).slots[j] == w.slots[j]
    ensures Sees(w.slots[j].value, j, w.m, SweepTo(w, n, readable, turns, h).m)
  {
    InvShaped(w);
    if n > 0 {
      SweepToKeepsView(w, n - 1, readable, turns, h, j);
      var w1 := SweepTo(w, n - 1, readable, turns, h);
      DispatchKeepsAll(w1, n - 1, readable, turns(n - 1), h, j, w.slots[j].value, w.m);
    }
  }

  lemma {:induction false} SweepKeepsView(w: World, n: nat, readable: set<int>, turns: int -> Answers, h: Hash, j: nat)
    requires Inv(w) && j < n <= MAX_CONNECTIONS && w.slots[j].Some?
    ensures Shaped(w) && Sees(w.slots[j].value, j, w.m, Sweep(w, n, readable, turns, h).m)
    decreases MAX_CONNECTIONS - n
  {
    InvShaped(w);
    if n < MAX_CONNECTIONS {
      DispatchKeepsView(w, n, readable, turns(n), h, j);
      DispatchKeepsInv(w, n, readable, turns(n), h);
      SweepKeepsView(Dispatch(w, n, readable, turns(n), h), n + 1, readable, turns, h, j);
    }
  }

  // ----- one iteration -----

  /** The machine that the session of slot `i` finds in its turn. */
  function MachineAt(w: World, r: Round, h: Hash, i: nat): Machine
    requires Shaped(w) && i < MAX_CONNECTIONS
  {
    var readable := Watched(w) * r.ready;
    SweepTo(Arrive(w, readable, r.arrival), i, readable, r.turns, h).m
  }

  lemma TurnInIteration(w: World, r: Round, h: Hash, i: nat)
    requires Shaped(w) && i < MAX_CONNECTIONS && w.slots[i].Some? && Sound(w.slots[i].value)
    requires var readable := Watched(w) * r.ready;
             SweepTo(Arrive(w, readable, r.arrival), i, readable, r.turns, h).slots[i] == w.slots[i]
    ensures Iterate(w, r, h).slots[i]
            == SlotTurn(Turn(w.slots[i].value, MachineAt(w, r, h, i)), i, Watched(w) * r.ready, r.turns(i), h).s
  {
    var readable := Watched(w) * r.ready;
    SweepServes(Arrive(w, readable, r.arrival), readable, r.turns, h, i);
  }

  /** What a session sees in its turn: what it has seen before, whatever others have done to the rest. */
  lemma FoundInTurn(w: World, r: Round, h: Hash, i: nat)
    requires Inv(w) && i < MAX_CONNECTIONS && w.slots[i].Some?
    ensures Shaped(w)
    ensures var readable, m := Watched(w) * r.ready, MachineAt(w, r, h, i);
            && SweepTo(Arrive(w, readable, r.arrival), i, readable, r.turns, h).slots[i] == w.slots[i]
            && SlotOk(w.slots[i].value, i, m) && MachineOk(m, w.ls) && Sees(w.slots[i].value, i, w.m, m)
  {
    InvShaped(w);
    var readable := Watched(w) * r.ready;
    var w1 := Arrive(w, readable, r.arrival);
    AcceptKeepsInv(w, r.arrival);
    AcceptKeepsView(w, r.arrival, i);
    SweepToKeepsView(w1, i, readable, r.turns, h, i);
    var w2 := SweepTo(w1, i, readable, r.turns, h);
    assert SlotOk(w2.slots[i].value, i, w2.m) && MachineOk(w2.m, w2.ls);
  }

  /** Who is ready and watched is served: a transfer makes a step, any other session reads a line and acts on it. */
  function Service(t: Turn, i: nat, ready: set<int>, a: Answers, h: Hash): Option<Session>
    requires Sound(t.s)
  {
    match t.s.mode
    case Upload => if t.s.fd in ready then Some(FileUpload(t, a).s) else Some(t.s)
    case Download => if t.s.fd in ready then Some(FileDownload(t, a).s) else Some(t.s)
    case _ => if i in ready then RequestTurn(t, i, a, h).s else Some(t.s)
  }

  lemma ReadyIsServed(t: Turn, i: nat, watched: set<int>, ready: set<int>, a: Answers, h: Hash)
    requires Sound(t.s) && i in watched && (Transferring(t.s) ==> t.s.fd >= 0 && t.s.fd in watched)
    ensures SlotTurn(t, i, watched * ready, a, h).s == Service(t, i, ready, a, h)
  {
  }

  /** In every iteration every session that was there has exactly one turn, on a machine that shows it what it has seen
      before: an upload or a download whose file is ready makes one step; any other session whose socket is ready reads
      a line and acts on it; and who is not ready stays as it was. */
  lemma EverybodyIsServed(w: World, r: Round, h: Hash, i: nat)
    requires Inv(w) && i < MAX_CONNECTIONS && w.slots[i].Some?
    ensures Shaped(w) && Sound(w.slots[i].value)
    ensures var s, m, a, s' := w.slots[i].value, MachineAt(w, r, h, i), r.turns(i), Iterate(w, r, h).slots[i];
            && SlotOk(s, i, m) && MachineOk(m, w.ls) && Sees(s, i, w.m, m)
            && s' == Service(Turn(s, m), i, r.ready, a, h)
  {
    InvShaped(w);
    FoundInTurn(w, r, h, i);
    TurnInIteration(w, r, h, i);
    WatchesWhatItServes(w, i);
    ReadyIsServed(Turn(w.slots[i].value, MachineAt(w, r, h, i)), i, Watched(w), r.ready, r.turns(i), h);
  }
}
