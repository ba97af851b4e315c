/** Whoever has a file in hand is served in the main loop as if nobody else were there. */
module Alone {
  import opened Prelude
  import opened Naming
  import opened Environment
  import opened SessionSpec
  import opened ServerSpec
  import opened Invariant
  import opened Confinement
  import opened Interleaving
  import opened Serving
  import CommandTurns
  import Framing
  import LineBuffer

  // ----- one turn on two machines -----

  /** The session has the same descriptor or none, and as long as it has a file in hand both are the same. */
  predicate SameInHand(s: Session, s': Session) {
    && s.file.Some? && (s'.fd == s.fd || s'.fd < 0)
    && (NeedsFile(s'.mode) ==> s'.fd == s.fd && s'.file.Some? && s'.file.value.path == s.file.value.path)
  }

  lemma ObeyKeepsInHand(t: Turn, v: Framing.Verdict, a: Answers)
    requires t.s.file.Some? && t.s.mode == Upload
    ensures SameInHand(t.s, Obey(t, v, a).s)
  {
  }

  lemma TransferKeepsInHand(t: Turn, a: Answers)
    requires Sound(t.s) && Transferring(t.s)
    ensures SameInHand(t.s, TransferTurn(t, a).s)
  {
    var f, r := t.s.file.value, UploadRead(a);
    if t.s.mode == Upload && r.chunk != [] {
      UploadObeysVerdict(t, a);
      ObeyKeepsInHand(t, Framing.Deframe(f.rest, f.packageRest, r), a);
    }
  }

  /** Two turns of the same session have the same outcome for it, and show it the same things afterwards. */
  ghost predicate SameOutcome(i: nat, x: After, y: After) {
    x.s == y.s && (x.s.Some? ==> Sees(x.s.value, i, x.m, y.m))
  }

  lemma TransferSame(s: Session, i: nat, m1: Machine, m2: Machine, a: Answers)
    requires SlotOk(s, i, m1) && Transferring(s) && Sees(s, i, m1, m2)
    ensures Sound(s) && SameOutcome(i, Going(TransferTurn(Turn(s, m1), a)), Going(TransferTurn(Turn(s, m2), a)))
  {
    TransferAlike(s, i, m1, m2, a);
    TransferKeepsInHand(Turn(s, m1), a);
  }

  lemma ConfirmSame(s: Session, i: nat, m1: Machine, m2: Machine, line: string)
    requires s.file.Some? && s.fd >= 0 && s.mode == Confirm && Sees(s, i, m1, m2)
    ensures SameOutcome(i, Going(DownloadConfirm(Turn(s, m1), line)), Going(DownloadConfirm(Turn(s, m2), line)))
    ensures DownloadConfirm(Turn(s, m1), line).s.mode != Err
  {
  }

  lemma SaveSame(s: Session, i: nat, m1: Machine, m2: Machine, a: Answers)
    requires s.file.Some? && s.fd >= 0 && NeedsFile(s.mode) && Sees(s, i, m1, m2)
    ensures SameOutcome(i, Going(Save(Turn(s, m1), a)), Going(Save(Turn(s, m2), a)))
    ensures Save(Turn(s, m1), a).s.mode == Wait
  {
  }

  lemma DescriptionSame(s: Session, i: nat, m1: Machine, m2: Machine, line: string, a: Answers)
    requires s.file.Some? && s.fd >= 0 && s.mode == Description && Sees(s, i, m1, m2)
    ensures SameOutcome(i, Going(DescriptionTurn(Turn(s, m1), line, a)), Going(DescriptionTurn(Turn(s, m2), line, a)))
    ensures DescriptionTurn(Turn(s, m1), line, a).s.mode != Err
  {
    var c := Collect(s.file.value.description, line, s.text);
    var s1 := s.(file := Some(s.file.value.(description := Some(c.description))), text := c.text);
    SaveSame(s1, i, m1, m2, a);
  }

  lemma RequestSame(s: Session, i: nat, m1: Machine, m2: Machine, a: Answers, h: Hash)
    requires Sound(s) && s.fd >= 0 && (s.mode == Confirm || s.mode == Description) && Sees(s, i, m1, m2)
    ensures SameOutcome(i, RequestTurn(Turn(s, m1), i, a, h), RequestTurn(Turn(s, m2), i, a, h))
  {
    var (s1, line) := ReadLine(s, a);
    if line.Some? {
      if s.mode == Confirm {
        ConfirmSame(s1, i, m1, m2, line.value);
      } else {
        DescriptionSame(s1, i, m1, m2, line.value, a);
      }
    }
  }

  /** A session with a file in hand takes the same turn on every machine that shows it the same things. */
  lemma TurnSame(s: Session, i: nat, m1: Machine, m2: Machine, readable: set<int>, readable': set<int>, a: Answers,
                 h: Hash)
    requires SlotOk(s, i, m1) && NeedsFile(s.mode) && Sees(s, i, m1, m2)
    requires if Transferring(s) then s.fd in readable <==> s.fd in readable' else i in readable <==> i in readable'
    ensures Sound(s)
    ensures SameOutcome(i, SlotTurn(Turn(s, m1), i, readable, a, h), SlotTurn(Turn(s, m2), i, readable', a, h))
  {
    if Transferring(s) {
      TransferSame(s, i, m1, m2, a);
    } else {
      RequestSame(s, i, m1, m2, a, h);
    }
  }

  // ----- one iteration -----

  lemma SeesOn(s: Session, i: nat, m: Machine, m1: Machine, m2: Machine)
    requires Sees(s, i, m, m1) && Sees(s, i, m1, m2)
    ensures Sees(s, i, m, m2)
  {
  }

  /** What is left of a slot's turn at the end of the sweep. */
  lemma SweepLeaves(w: World, readable: set<int>, turns: int -> Answers, h: Hash, i: nat)
    requires Inv(w) && i < MAX_CONNECTIONS && w.slots[i].Some?
    ensures Shaped(w)
    ensures var w2, w' := SweepTo(w, i, readable, turns, h), Sweep(w, 0, readable, turns, h);
            var w3 := Dispatch(w2, i, readable, turns(i), h);
            w'.slots[i] == w3.slots[i] && (w3.slots[i].Some? ==> Sees(w3.slots[i].value, i, w3.m, w'.m))
  {
    SweepToKeepsView(w, i, readable, turns, h, i);
    var w2 := SweepTo(w, i, readable, turns, h);
    var w3 := Dispatch(w2, i, readable, turns(i), h);
    DispatchKeepsInv(w2, i, readable, turns(i), h);
    SweepGoesThrough(w, i, readable, turns, h);
    LaterTurnsKeep(w3, i + 1, readable, turns, h, i);
    if w3.slots[i].Some? {
      SweepKeepsView(w3, i + 1, readable, turns, h, i);
    }
  }

  /** The turn of slot `i` in an iteration, on the machine that it finds. */
  function TurnAt(w: World, r: Round, h: Hash, i: nat): After
    requires Shaped(w) && i < MAX_CONNECTIONS && w.slots[i].Some?
  {
    SlotTurn(Turn(w.slots[i].value, MachineAt(w, r, h, i)), i, Watched(w) * r.ready, r.turns(i), h)
  }

  lemma AfterTurn(w: World, r: Round, h: Hash, i: nat)
    requires Inv(w) && i < MAX_CONNECTIONS && w.slots[i].Some?
    ensures Shaped(w)
    ensures var y := TurnAt(w, r, h, i);
            Iterate(w, r, h).slots[i] == y.s && (y.s.Some? ==> Sees(y.s.value, i, y.m, Iterate(w, r, h).m))
  {
    InvShaped(w);
    FoundInTurn(w, r, h, i);
    AcceptKeepsInv(w, r.arrival);
    AcceptKeepsView(w, r.arrival, i);
    var readable := Watched(w) * r.ready;
    SweepLeaves(Arrive(w, readable, r.arrival), readable, r.turns, h, i);
  }

  /** The machine `t.m` shows the session of slot `i` what the server's does. */
  ghost predicate Shadows(t: Turn, w: World, i: nat) {
    && i < |w.slots| && w.slots[i] == Some(t.s)
    && SlotOk(t.s, i, t.m) && MachineOk(t.m, w.ls) && Sees(t.s, i, t.m, w.m)
  }

  /** In an iteration the session takes the turn that it would take on the machine `t.m`. */
  lemma TurnShadowed(t: Turn, w: World, r: Round, h: Hash, i: nat)
    requires Inv(w) && i < MAX_CONNECTIONS && Shadows(t, w, i) && NeedsFile(t.s.mode)
    ensures Shaped(w) && Sound(t.s) && SameOutcome(i, SlotTurn(t, i, r.ready, r.turns(i), h), TurnAt(w, r, h, i))
  {
    FoundInTurn(w, r, h, i);
    WatchesWhatItServes(w, i);
    SeesOn(t.s, i, t.m, w.m, MachineAt(w, r, h, i));
    TurnSame(t.s, i, t.m, MachineAt(w, r, h, i), r.ready, Watched(w) * r.ready, r.turns(i), h);
  }

  lemma OwnTurnOk(t: Turn, i: nat, readable: set<int>, a: Answers, h: Hash, ls: nat)
    requires SlotOk(t.s, i, t.m) && MachineOk(t.m, ls)
    ensures Sound(t.s)
    ensures var x := SlotTurn(t, i, readable, a, h);
            MachineOk(x.m, ls) && (x.s.Some? ==> SlotOk(x.s.value, i, x.m))
  {
    SlotTurnConfined(t, i, readable, a, h, ls);
    MachineKept(t.s, i, t.m, SlotTurn(t, i, readable, a, h).m, ls);
  }

  lemma ListenerStays(w: World, r: Round, h: Hash)
    requires Shaped(w)
    ensures Iterate(w, r, h).ls == w.ls
  {
    var readable := Watched(w) * r.ready;
    SweepGoesThrough(Arrive(w, readable, r.arrival), MAX_CONNECTIONS, readable, r.turns, h);
  }

  lemma IterationShadowed(t: Turn, w: World, r: Round, h: Hash, i: nat)
    requires Inv(w) && i < MAX_CONNECTIONS && Shadows(t, w, i) && NeedsFile(t.s.mode)
    ensures Shaped(w) && Sound(t.s)
    ensures var x := SlotTurn(t, i, r.ready, r.turns(i), h);
            && Iterate(w, r, h).slots[i] == x.s
            && (x.s.Some? ==> Shadows(Turn(x.s.value, x.m), Iterate(w, r, h), i))
  {
    TurnShadowed(t, w, r, h, i);
    AfterTurn(w, r, h, i);
    OwnTurnOk(t, i, r.ready, r.turns(i), h, w.ls);
    ListenerStays(w, r, h);
    var x := SlotTurn(t, i, r.ready, r.turns(i), h);
    if x.s.Some? {
      SeesOn(x.s.value, i, x.m, TurnAt(w, r, h, i).m, Iterate(w, r, h).m);
    }
  }

  // ----- a whole run -----

  /** What some iterations would make of the session of slot `i` if it had the machine to itself. */
  function Lone(t: Turn, i: nat, rounds: seq<Round>, h: Hash): After
    requires Sound(t.s)
    decreases |rounds|
  {
    if rounds == [] then Going(t)
    else
      var x := SlotTurn(t, i, rounds[0].ready, rounds[0].turns(i), h);
      SlotTurnSound(t, i, rounds[0].ready, rounds[0].turns(i), h);
      if x.s.None? then x else Lone(Turn(x.s.value, x.m), i, rounds[1..], h)
  }

  /** At the start of each of these iterations the session has a file in hand. */
  predicate Busy(t: Turn, i: nat, rounds: seq<Round>, h: Hash)
    requires Sound(t.s)
    decreases |rounds|
  {
    rounds == []
    || (NeedsFile(t.s.mode)
        && (|rounds| == 1
            || (var x := SlotTurn(t, i, rounds[0].ready, rounds[0].turns(i), h);
                SlotTurnSound(t, i, rounds[0].ready, rounds[0].turns(i), h);
                x.s.Some? && Busy(Turn(x.s.value, x.m), i, rounds[1..], h))))
  }

  lemma FirstRound(t: Turn, i: nat, rounds: seq<Round>, h: Hash, t1: Turn)
    requires Sound(t.s) && NeedsFile(t.s.mode) && rounds != []
    requires SlotTurn(t, i, rounds[0].ready, rounds[0].turns(i), h) == Going(t1)
    ensures Sound(t1.s) && Lone(t, i, rounds, h) == Lone(t1, i, rounds[1..], h)
    ensures |rounds| == 1 || Busy(t1, i, rounds[1..], h) ==> Busy(t, i, rounds, h)
  {
    SlotTurnSound(t, i, rounds[0].ready, rounds[0].turns(i), h);
  }

  lemma {:induction false} RunShadowed(t: Turn, w: World, rounds: seq<Round>, h: Hash, i: nat)
    requires Inv(w) && i < MAX_CONNECTIONS && Shadows(t, w, i) && Sound(t.s) && Busy(t, i, rounds, h)
    ensures Shaped(w)
    ensures var x := Lone(t, i, rounds, h);
            && Run(w, rounds, h).slots[i] == x.s
            && (x.s.Some? ==> Shadows(Turn(x.s.value, x.m), Run(w, rounds, h), i))
    decreases |rounds|
  {
    InvShaped(w);
    if rounds != [] {
      IterationShadowed(t, w, rounds[0], h, i);
      IterateKeepsInv(w, rounds[0], h);
      var x, w1 := SlotTurn(t, i, rounds[0].ready, rounds[0].turns(i), h), Iterate(w, rounds[0], h);
      if |rounds| == 1 {
        assert rounds[1..] == [];
      } else {
        RunShadowed(Turn(x.s.value, x.m), w1, rounds[1..], h, i);
      }
    }
  }

  lemma ShadowsItself(w: World, i: nat)
    requires Inv(w) && i < MAX_CONNECTIONS && w.slots[i].Some?
    ensures Shadows(Turn(w.slots[i].value, w.m), w, i)
  {
  }

  /** As if alone: over any iterations through which a session uploads, describes, downloads or confirms, it comes to
      the state, its client has received the bytes, and its file holds the content that it would if no other session
      were there and no connection arrived. */
  lemma AsIfAlone(w: World, rounds: seq<Round>, h: Hash, i: nat)
    requires Inv(w) && i < MAX_CONNECTIONS && w.slots[i].Some? && Shaped(w)
    requires Busy(Turn(w.slots[i].value, w.m), i, rounds, h)
    ensures var x, w' := Lone(Turn(w.slots[i].value, w.m), i, rounds, h), Run(w, rounds, h);
            && w'.slots[i] == x.s
            && (x.s.Some? ==>
                 && i in w'.m.wire && i in x.m.wire && w'.m.wire[i] == x.m.wire[i]
                 && (NeedsFile(x.s.value.mode) ==>
                      && var path := x.s.value.file.value.path;
                      path in x.m.files && path in w'.m.files && w'.m.files[path] == x.m.files[path]))
  {
    ShadowsItself(w, i);
    RunShadowed(Turn(w.slots[i].value, w.m), w, rounds, h, i);
  }
}
