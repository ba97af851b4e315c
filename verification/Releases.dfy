/** No descriptor is ever lost: every open one belongs to somebody. */
module Releases {
  import opened Prelude
  import opened Naming
  import opened Environment
  import opened SessionSpec
  import opened ServerSpec
  import opened Invariant
  import opened Confinement
  import opened Aborts
  import Acceptance
  import CommandTurns
  import Descriptions
  import Downloads
  import Growth
  import Interleaving
  import Isolation

  // ----- one turn -----

  /** A transfer of an empty file has left this descriptor open; no upload owns that file. */
  predicate LeftOpen(s: Session, m: Machine, after: After, n: nat) {
    && n == s.fd && Holds(s, m) && n in m.handles
    && n in after.m.handles && after.m.handles[n] == m.handles[n]
    && var path := m.handles[n].path;
    && path in after.m.files && after.m.files[path] == []
    && !Owns(s, path) && (after.s.Some? ==> !Owns(after.s.value, path))
  }

  /** After a turn of slot `i` every open descriptor is of somebody else, or of this session, or left open. */
  ghost predicate Releases(s: Session, i: int, m: Machine, after: After) {
    forall n <- after.m.handles ::
      || (n in m.handles && n != i && n != s.fd)
      || (after.s.Some? && (n == i || n == after.s.value.fd))
      || LeftOpen(s, m, after, n)
  }

  lemma TransferReleases(t: Turn, i: nat, a: Answers)
    requires SlotOk(t.s, i, t.m) && Interleaving.Transferring(t.s) && Bounded(t.m)
    ensures Sound(t.s) && Releases(t.s, i, t.m, Going(TransferTurn(t, a)))
  {
    var t' := TransferTurn(t, a);
    if t.s.mode == Upload {
      UploadReleases(t, i, a);
    } else {
      DownloadReleases(t, i, a);
    }
    forall n <- t'.m.handles
      ensures n in t.m.handles && (n == t.s.fd ==> t'.s.fd == t.s.fd)
    {
      if n != t.s.fd {
        assert n in t'.m.handles - {t.s.fd};
      }
    }
  }

  lemma DownloadReleases(t: Turn, i: nat, a: Answers)
    requires SlotOk(t.s, i, t.m) && t.s.mode == Download
    ensures KeepsOrCloses(t.s, t.m, FileDownload(t, a).s, FileDownload(t, a).m)
  {
    if Downloads.Piece(t, a) == [] || !a.firstWrite {
      Downloads.NothingSent(t, i, a);
    } else {
      Downloads.ServeResult(t, i, a);
      Downloads.SendingMoves(t, i, a);
    }
  }

  /** The session keeps its descriptor or closes it, and nothing is opened. */
  ghost predicate OpensNothing(t: Turn, t': Turn) {
    && (forall n <- t'.m.handles :: n in t.m.handles)
    && (t'.s.fd == t.s.fd || t.s.fd !in t'.m.handles)
  }

  lemma OpensNothingReleases(t: Turn, i: int, t': Turn)
    requires OpensNothing(t, t')
    ensures Releases(t.s, i, t.m, Going(t'))
  {
  }

  /** A new descriptor is the session's; one that an idle session had is that of an empty file. */
  lemma OpeningReleases(t: Turn, i: int, t': Turn)
    requires SlotOk(t.s, i, t.m) && t.s.mode == Wait
    requires t'.s.fd >= 0 && t'.s.fd !in t.m.handles
    requires exists path :: t'.m.handles == t.m.handles[t'.s.fd := OpenFile(path, 0)]
    requires forall p <- t.m.files :: p in t'.m.files && t'.m.files[p] == t.m.files[p] && !Owns(t'.s, p)
    ensures Releases(t.s, i, t.m, Going(t'))
  {
  }

  lemma ReceiveReleases(t: Turn, i: int, line: string, a: Answers, h: Hash)
    requires SlotOk(t.s, i, t.m) && t.s.mode == Wait
    ensures var p := ReceivePrepare(t, line, a, h);
            Releases(t.s, i, t.m, Going(if p.code == 0 then WithMode(p.t, Upload) else p.t))
  {
    var p := ReceivePrepare(t, line, a, h);
    if p.code == 0 {
      AcceptedAdds(t, line, a, h);
      OpeningReleases(t, i, WithMode(p.t, Upload));
    } else {
      Acceptance.RequestAcceptedIff(t, line, a, h);
      OpensNothingReleases(t, i, p.t);
    }
  }

  /** Only a stored file of the wrong length is opened in vain. */
  lemma RefusedOpensNothing(t: Turn, line: string, a: Answers)
    requires SendPrepare(t, line, a).code != 0 && SendPrepare(t, line, a).code != -3
    ensures OpensNothing(t, SendPrepare(t, line, a).t)
  {
  }

  lemma SendReleases(t: Turn, i: int, line: string, a: Answers, ls: nat)
    requires SlotOk(t.s, i, t.m) && t.s.mode == Wait && MachineOk(t.m, ls)
    ensures var p := SendPrepare(t, line, a);
            Releases(t.s, i, t.m, Going(if p.code == 0 then WithMode(p.t, Download) else p.t))
  {
    var p := SendPrepare(t, line, a);
    CommandTurns.NeverDamaged(t, line, a, ls);
    if p.code == 0 {
      Downloads.GrantedDownload(t, line, a);
      OpeningReleases(t, i, WithMode(p.t, Download));
    } else {
      RefusedOpensNothing(t, line, a);
      OpensNothingReleases(t, i, p.t);
    }
  }

  lemma CommandReleases(t: Turn, i: int, line: string, a: Answers, h: Hash, ls: nat)
    requires SlotOk(t.s, i, t.m) && t.s.mode == Wait && MachineOk(t.m, ls)
    ensures Releases(t.s, i, t.m, Going(ClientCommand(t, line, a, h)))
  {
    match Commands.ParseCommand(line, a.staleWords)
    case Upload => ReceiveReleases(t, i, line, a, h);
    case Download => SendReleases(t, i, line, a, ls);
    case _ => OpensNothingReleases(t, i, ClientCommand(t, line, a, h));
  }

  lemma DescriptionReleases(t: Turn, i: int, line: string, a: Answers)
    requires t.s.file.Some? && t.s.fd >= 0
    ensures Releases(t.s, i, t.m, Going(DescriptionTurn(t, line, a)))
  {
    var f := t.s.file.value;
    var c := Collect(f.description, line, t.s.text);
    var t1 := t.(s := t.s.(file := Some(f.(description := Some(c.description))), text := c.text));
    Descriptions.SaveReleases(t1, a);
    OpensNothingReleases(t, i, DescriptionTurn(t, line, a));
  }

  lemma ConfirmReleases(t: Turn, i: int, line: string)
    requires t.s.file.Some? && t.s.fd >= 0
    ensures Releases(t.s, i, t.m, Going(DownloadConfirm(t, line)))
  {
    CommandTurns.ConfirmationRead(t, line);
    OpensNothingReleases(t, i, DownloadConfirm(t, line));
  }

  lemma LineReleases(t: Turn, i: int, line: string, a: Answers, h: Hash, ls: nat)
    requires SlotOk(t.s, i, t.m) && Sound(t.s) && MachineOk(t.m, ls) && !Interleaving.Transferring(t.s)
    ensures Releases(t.s, i, t.m, Going(LineTurn(t, line, a, h)))
  {
    if t.s.mode == Wait {
      CommandReleases(t, i, line, a, h, ls);
    } else if t.s.mode == Description {
      DescriptionReleases(t, i, line, a);
    } else if t.s.mode == Confirm {
      ConfirmReleases(t, i, line);
    } else {
      OpensNothingReleases(t, i, LineTurn(t, line, a, h));
    }
  }

  /** Only "exit" leads to the error state, and it changes nothing else. */
  lemma OnlyExitErrs(t: Turn, line: string, a: Answers, h: Hash, ls: nat)
    requires Sound(t.s) && MachineOk(t.m, ls) && !Interleaving.Transferring(t.s) && t.s.mode != Err
    requires LineTurn(t, line, a, h).s.mode == Err
    ensures line == "exit" && LineTurn(t, line, a, h) == t.(s := t.s.(mode := Err, leaving := true))
    ensures !NeedsFile(t.s.mode)
  {
    if t.s.mode == Wait {
      CommandTurns.CommandLeadsTo(t, line, a, h, ls);
      Commands.ExitNeedsBareLine(line, a.staleWords);
    }
  }

  /** A closed session leaves no descriptor but that of an empty file it had forgotten. */
  lemma CloseReleases(s: Session, i: int, m: Machine, s1: Session)
    requires SlotOk(s, i, m) && s1.fd == s.fd && s1.file == s.file
    ensures Releases(s, i, m, After(None, CloseSession(Turn(s1, m), i)))
  {
    CommandTurns.CloseCloses(Turn(s1, m), i);
    if s.file.None? {
      assert !NeedsFile(s.mode);
    }
  }

  lemma RequestReleases(t: Turn, i: int, a: Answers, h: Hash, ls: nat)
    requires SlotOk(t.s, i, t.m) && Sound(t.s) && MachineOk(t.m, ls) && !Interleaving.Transferring(t.s)
    ensures Releases(t.s, i, t.m, RequestTurn(t, i, a, h))
  {
    var (s1, line) := ReadLine(t.s, a);
    ReadLeavesRoom(t.s, a);
    if line.None? || t.s.mode == Err {
      CloseReleases(t.s, i, t.m, s1);
    } else {
      var t1 := Turn(s1, t.m);
      var t2 := LineTurn(t1, line.value, a, h);
      TextIrrelevant(t, s1, i, Going(t2));
      if t2.s.mode == Err {
        OnlyExitErrs(t1, line.value, a, h, ls);
        CloseReleases(t.s, i, t.m, t2.s);
      } else {
        LineReleases(t1, i, line.value, a, h, ls);
      }
    }
  }

  /** After a turn of any session every open descriptor is somebody else's, its own, or of an empty file. */
  lemma TurnReleases(t: Turn, i: nat, readable: set<int>, a: Answers, h: Hash, ls: nat)
    requires SlotOk(t.s, i, t.m) && MachineOk(t.m, ls)
    ensures Sound(t.s) && Releases(t.s, i, t.m, SlotTurn(t, i, readable, a, h))
  {
    OpensNothingReleases(t, i, t);
    if Interleaving.Transferring(t.s) {
      TransferReleases(t, i, a);
    } else if i in readable {
      RequestReleases(t, i, a, h, ls);
    }
  }

  // ----- the whole server -----

  /** The listening socket, the socket of a session, or the file of a session. */
  predicate InUse(w: World, n: int) {
    || n == w.ls
    || (0 <= n < |w.slots| && w.slots[n].Some?)
    || exists i | 0 <= i < |w.slots| && w.slots[i].Some? :: w.slots[i].value.fd == n
  }

  /** A descriptor of an empty file that nobody is uploading. */
  predicate OfEmptyFile(w: World, n: nat) {
    && n in w.m.handles && w.m.handles[n].OpenFile?
    && var path := w.m.handles[n].path;
    && path in w.m.files && w.m.files[path] == []
    && forall i | 0 <= i < |w.slots| && w.slots[i].Some? :: !Owns(w.slots[i].value, path)
  }

  /** Every open descriptor is in use, or was open before, or leads to an empty file. */
  predicate Accounted(w: World, before: set<nat>) {
    forall n <- w.m.handles :: n in before || InUse(w, n) || OfEmptyFile(w, n)
  }

  lemma OfEmptyFileStays(w: World, i: nat, after: After, n: nat)
    requires Inv(w) && i < |w.slots| && w.slots[i].Some? && Local(w.slots[i].value, i, w.m, after)
    requires OfEmptyFile(w, n) && n != i && n != w.slots[i].value.fd
    ensures OfEmptyFile(Replace(w, i, after), n)
  {
    var s, w' := w.slots[i].value, Replace(w, i, after);
    assert !Owns(s, w.m.handles[n].path);
  }

  lemma LeftOpenIsOfEmptyFile(w: World, i: nat, after: After, n: nat)
    requires Inv(w) && i < |w.slots| && w.slots[i].Some?
    requires LeftOpen(w.slots[i].value, w.m, after, n)
    ensures OfEmptyFile(Replace(w, i, after), n)
  {
    var s, path := w.slots[i].value, w.m.handles[n].path;
    forall j | 0 <= j < |w.slots| && j != i && w.slots[j].Some?
      ensures !Owns(w.slots[j].value, path)
    {
      assert SlotOk(w.slots[j].value, j, w.m) && Apart(w.slots[j].value, s, w.m);
    }
  }

  lemma InUseStays(w: World, i: nat, after: After, n: nat)
    requires i < |w.slots| && w.slots[i].Some? && InUse(w, n) && n != i && n != w.slots[i].value.fd
    ensures InUse(Replace(w, i, after), n)
  {
    var w' := Replace(w, i, after);
    if exists j | 0 <= j < |w.slots| && w.slots[j].Some? :: w.slots[j].value.fd == n {
      var j :| 0 <= j < |w.slots| && w.slots[j].Some? && w.slots[j].value.fd == n;
      assert w'.slots[j] == w.slots[j];
    }
  }

  lemma TurnAccounted(w: World, i: nat, after: After, before: set<nat>)
    requires Inv(w) && i < |w.slots| && w.slots[i].Some? && Accounted(w, before)
    requires Local(w.slots[i].value, i, w.m, after) && Releases(w.slots[i].value, i, w.m, after)
    ensures Accounted(Replace(w, i, after), before)
  {
    var s, w' := w.slots[i].value, Replace(w, i, after);
    forall n <- w'.m.handles
      ensures n in before || InUse(w', n) || OfEmptyFile(w', n)
    {
      if n in w.m.handles && n != i && n != s.fd {
        if InUse(w, n) {
          InUseStays(w, i, after, n);
        } else if n !in before {
          OfEmptyFileStays(w, i, after, n);
        }
      } else if LeftOpen(s, w.m, after, n) {
        LeftOpenIsOfEmptyFile(w, i, after, n);
      } else {
        assert w'.slots[i] == after.s;
      }
    }
  }

  lemma DispatchAccounted(w: World, i: nat, readable: set<int>, a: Answers, h: Hash, before: set<nat>)
    requires Inv(w) && i < MAX_CONNECTIONS && Accounted(w, before)
    ensures Shaped(w) && Accounted(Dispatch(w, i, readable, a, h), before)
  {
    InvShaped(w);
    if w.slots[i].Some? {
      var t := Turn(w.slots[i].value, w.m);
      assert SlotOk(t.s, i, w.m);
      SlotTurnConfined(t, i, readable, a, h, w.ls);
      TurnReleases(t, i, readable, a, h, w.ls);
      TurnAccounted(w, i, SlotTurn(t, i, readable, a, h), before);
    }
  }

  lemma AcceptAccounted(w: World, a: Answers, before: set<nat>)
    requires Inv(w) && Accounted(w, before)
    ensures Accounted(Accept(w, a), before)
  {
    var w' := Accept(w, a);
    if Usable(w.m, a.newHandle) {
      AcceptFillsEmptySlot(w, a.newHandle);
      forall n <- w'.m.handles
        ensures n in before || InUse(w', n) || OfEmptyFile(w', n)
      {
        if n != a.newHandle && n !in before && !InUse(w', n) {
          assert forall j | 0 <= j < |w.slots| && w.slots[j].Some? :: w'.slots[j] == w.slots[j];
          assert OfEmptyFile(w, n);
        }
      }
    }
  }

  lemma {:induction false} SweepAccounted(w: World, i: nat, readable: set<int>, turns: int -> Answers, h: Hash,
                                          before: set<nat>)
    requires Inv(w) && i <= MAX_CONNECTIONS && Accounted(w, before)
    ensures Shaped(w) && Accounted(Sweep(w, i, readable, turns, h), before)
    decreases MAX_CONNECTIONS - i
  {
    InvShaped(w);
    if i < MAX_CONNECTIONS {
      DispatchAccounted(w, i, readable, turns(i), h, before);
      DispatchKeepsInv(w, i, readable, turns(i), h);
      SweepAccounted(Dispatch(w, i, readable, turns(i), h), i + 1, readable, turns, h, before);
    }
  }

  lemma {:induction false} RunAccounted(w: World, rounds: seq<Round>, h: Hash, before: set<nat>)
    requires Inv(w) && Accounted(w, before)
    ensures Shaped(w) && Accounted(Run(w, rounds, h), before)
    decreases |rounds|
  {
    InvShaped(w);
    if rounds != [] {
      var r := rounds[0];
      var readable := Watched(w) * r.ready;
      AcceptKeepsInv(w, r.arrival);
      AcceptAccounted(w, r.arrival, before);
      SweepAccounted(Arrive(w, readable, r.arrival), 0, readable, r.turns, h, before);
      IterateKeepsInv(w, r, h);
      RunAccounted(Iterate(w, r, h), rounds[1..], h, before);
    }
  }

  /** No descriptor is ever lost: after any number of iterations from the start, every open one was open before, or is
      the socket or the file of a session, or leads to an empty file. */
  lemma NoneLost(m: Machine, ls: nat, rounds: seq<Round>, h: Hash)
    requires MachineOk(m, ls)
    ensures Shaped(Started(m, ls))
    ensures var w := Run(Started(m, ls), rounds, h);
            forall n <- w.m.handles :: n in m.handles || InUse(w, n) || OfEmptyFile(w, n)
  {
    StartedInv(m, ls);
    RunAccounted(Started(m, ls), rounds, h, m.handles.Keys);
  }
}
