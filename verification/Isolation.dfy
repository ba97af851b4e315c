/** What the invariant means for storage and descriptors. */
module Isolation {
  import opened Prelude
  import opened Naming
  import opened Environment
  import opened SessionSpec
  import opened ServerSpec
  import opened Invariant
  import opened Confinement
  import Commands

  // ----- descriptors -----

  /** The descriptors that slot `i` accounts for: its socket and its file. */
  function OwnDescriptors(w: World, i: int): set<int>
    requires 0 <= i < |w.slots|
  {
    if w.slots[i].None? then {}
    else if w.slots[i].value.fd >= 0 then {i, w.slots[i].value.fd}
    else {i}
  }

  /** The listening socket, the sockets and the files of all sessions are open and pairwise distinct. */
  lemma DescriptorsDistinct(w: World)
    requires Inv(w)
    ensures w.ls in w.m.handles
    ensures forall i | 0 <= i < |w.slots| && w.slots[i].Some? ::
      w.slots[i].value.sd == i && w.slots[i].value.fd != i && w.ls !in OwnDescriptors(w, i)
    ensures forall i, n | 0 <= i < |w.slots| && n in OwnDescriptors(w, i) :: n in w.m.handles
    ensures forall i, j | 0 <= i < j < |w.slots| :: OwnDescriptors(w, i) !! OwnDescriptors(w, j)
  {
    assert forall i | 0 <= i < |w.slots| && w.slots[i].Some? :: SlotOk(w.slots[i].value, i, w.m);
    forall i, j | 0 <= i < j < |w.slots| && w.slots[i].Some? && w.slots[j].Some?
      ensures OwnDescriptors(w, i) !! OwnDescriptors(w, j)
    {
      assert Apart(w.slots[i].value, w.slots[j].value, w.m);
    }
  }

  lemma {:induction false} WatchedAreOpen(w: World, n: nat)
    requires Inv(w) && n <= |w.slots|
    ensures forall k <- WatchedUpTo(w, n) :: k in w.m.handles
  {
    if n > 0 {
      WatchedAreOpen(w, n - 1);
      if w.slots[n - 1].Some? {
        assert SlotOk(w.slots[n - 1].value, n - 1, w.m);
      }
    }
  }

  lemma {:induction false} SweepSkips(w: World, i: nat, readable: set<int>, turns: int -> Answers, h: Hash,
                                      n: nat, s: Session)
    requires Shaped(w) && i <= MAX_CONNECTIONS && n < MAX_CONNECTIONS
    requires w.slots[n] == Some(s) && s.mode == LoginUser && n !in readable
    ensures Sweep(w, i, readable, turns, h).slots[n] == Some(s)
    decreases MAX_CONNECTIONS - i
  {
    if i < MAX_CONNECTIONS {
      SweepSkips(Dispatch(w, i, readable, turns(i), h), i + 1, readable, turns, h, n, s);
    }
  }

  /** Whoever is accepted has a socket of its own, through which nothing has been sent, and nothing else changes. */
  lemma NewcomerIsConnected(w: World, a: Answers, k: nat)
    requires Inv(w) && Usable(w.m, a.newHandle)
    ensures var m', n := Accept(w, a).m, a.newHandle;
            && n in m'.handles && m'.handles[n] == Socket && n in m'.wire && m'.wire[n] == []
            && (k != n ==> (k in m'.handles <==> k in w.m.handles) && (k in m'.wire <==> k in w.m.wire))
            && (k != n && k in w.m.handles ==> m'.handles[k] == w.m.handles[k])
            && (k != n && k in w.m.wire ==> m'.wire[k] == w.m.wire[k])
            && m'.files == w.m.files && m'.records == w.m.records
  {
  }

  /** Whoever is accepted in an iteration gets an empty slot and is not served before the next iteration. */
  lemma NewcomerWaits(w: World, r: Round, h: Hash)
    requires Inv(w) && w.ls in r.ready && Usable(w.m, r.arrival.newHandle)
    ensures var n := r.arrival.newHandle;
            && w.slots[n].None?
            && Shaped(w)
            && Iterate(w, r, h).slots[n] == Some(Session(LoginUser, false, n, -1, None, "", None, r.arrival.staleUid))
  {
    InvShaped(w);
    var n, readable := r.arrival.newHandle, Watched(w) * r.ready;
    AcceptFillsEmptySlot(w, n);
    WatchedMembers(w, |w.slots|, w.ls);
    WatchedAreOpen(w, |w.slots|);
    assert n !in readable;
    SweepSkips(Arrive(w, readable, r.arrival), 0, readable, r.turns, h, n, NewSession(n, r.arrival.staleUid));
  }

  lemma {:induction false} SweepFillsNothing(w: World, i: nat, readable: set<int>, turns: int -> Answers, h: Hash,
                                             n: nat)
    requires Shaped(w) && i <= MAX_CONNECTIONS && n < MAX_CONNECTIONS && w.slots[n].None?
    ensures Sweep(w, i, readable, turns, h).slots[n].None?
    decreases MAX_CONNECTIONS - i
  {
    if i < MAX_CONNECTIONS {
      SweepFillsNothing(Dispatch(w, i, readable, turns(i), h), i + 1, readable, turns, h, n);
    }
  }

  /** An empty slot is filled in an iteration if and only if a client is waiting and the kernel gives it that number. */
  lemma FilledIff(w: World, r: Round, h: Hash, n: nat)
    requires Inv(w) && n < MAX_CONNECTIONS && w.slots[n].None?
    ensures Shaped(w)
    ensures Iterate(w, r, h).slots[n].Some? <==>
      w.ls in r.ready && r.arrival.newHandle == n && Usable(w.m, n)
  {
    InvShaped(w);
    if w.ls in r.ready && r.arrival.newHandle == n && Usable(w.m, n) {
      NewcomerWaits(w, r, h);
    } else {
      var readable := Watched(w) * r.ready;
      SweepFillsNothing(Arrive(w, readable, r.arrival), 0, readable, r.turns, h, n);
    }
  }

  // ----- storage -----

  /** Files being uploaded are pairwise distinct, stored under no saved path, and saved paths have their files. */
  lemma UploadPathsApart(w: World)
    requires Inv(w)
    ensures forall i | 0 <= i < |w.slots| && w.slots[i].Some? && Uploading(w.slots[i].value) ::
      && w.slots[i].value.file.Some?
      && w.slots[i].value.file.value.path in w.m.files && !IsSaved(w.m, w.slots[i].value.file.value.path)
    ensures forall i, j | 0 <= i < j < |w.slots| && w.slots[i].Some? && w.slots[j].Some?
                          && Uploading(w.slots[i].value) && Uploading(w.slots[j].value) ::
      w.slots[i].value.file.value.path != w.slots[j].value.file.value.path
    ensures forall r <- w.m.records :: PathOf(r.hash) in w.m.files
  {
    assert forall i | 0 <= i < |w.slots| && w.slots[i].Some? :: SlotOk(w.slots[i].value, i, w.m);
    forall i, j | 0 <= i < j < |w.slots| && w.slots[i].Some? && w.slots[j].Some?
                  && Uploading(w.slots[i].value) && Uploading(w.slots[j].value)
      ensures w.slots[i].value.file.value.path != w.slots[j].value.file.value.path
    {
      assert Apart(w.slots[i].value, w.slots[j].value, w.m);
    }
    assert forall r <- w.m.records :: RecordOk(r, w.m);
  }

  /** Every record stays, and with it every byte of its file. */
  ghost predicate Preserves(m: Machine, m': Machine) {
    && m.records <= m'.records
    && forall p <- m.files :: IsSaved(m, p) ==> p in m'.files && m'.files[p] == m.files[p]
  }

  lemma DispatchPreserves(w: World, i: nat, readable: set<int>, a: Answers, h: Hash)
    requires Inv(w) && i < MAX_CONNECTIONS
    ensures Shaped(w) && Preserves(w.m, Dispatch(w, i, readable, a, h).m)
  {
    InvShaped(w);
    if w.slots[i].Some? {
      SlotTurnConfined(Turn(w.slots[i].value, w.m), i, readable, a, h, w.ls);
    }
  }

  lemma PreservesTransitive(m: Machine, m1: Machine, m2: Machine)
    requires Preserves(m, m1) && Preserves(m1, m2)
    ensures Preserves(m, m2)
  {
    forall p | p in m.files && IsSaved(m, p)
      ensures IsSaved(m1, p)
    {
      var r :| r in m.records && PathOf(r.hash) == p;
      assert r in m1.records;
    }
  }

  lemma {:induction false} SweepPreserves(w: World, i: nat, readable: set<int>, turns: int -> Answers, h: Hash)
    requires Inv(w) && i <= MAX_CONNECTIONS
    ensures Shaped(w) && Preserves(w.m, Sweep(w, i, readable, turns, h).m)
    decreases MAX_CONNECTIONS - i
  {
    InvShaped(w);
    if i < MAX_CONNECTIONS {
      var w1 := Dispatch(w, i, readable, turns(i), h);
      DispatchPreserves(w, i, readable, turns(i), h);
      DispatchKeepsInv(w, i, readable, turns(i), h);
      SweepPreserves(w1, i + 1, readable, turns, h);
      PreservesTransitive(w.m, w1.m, Sweep(w1, i + 1, readable, turns, h).m);
    }
  }

  /** No step of any session ever changes or removes a saved file. */
  lemma {:induction false} SavedFilesUntouched(w: World, rounds: seq<Round>, h: Hash)
    requires Inv(w)
    ensures Shaped(w) && Preserves(w.m, Run(w, rounds, h).m)
    decreases |rounds|
  {
    InvShaped(w);
    if rounds != [] {
      var r := rounds[0];
      var readable := Watched(w) * r.ready;
      var w1 := Arrive(w, readable, r.arrival);
      AcceptKeepsInv(w, r.arrival);
      SweepPreserves(w1, 0, readable, r.turns, h);
      IterateKeepsInv(w, r, h);
      SavedFilesUntouched(Iterate(w, r, h), rounds[1..], h);
      PreservesTransitive(w.m, Iterate(w, r, h).m, Run(w, rounds, h).m);
    }
  }

  // ----- opening a saved file -----

  /** A stored file never looks damaged, and a request for one succeeds exactly when the kernel lets the server
      open it and no refused directory has left the process inside the storage folder. */
  lemma SavedFileOpens(t: Turn, line: string, a: Answers, ls: nat, name: string)
    requires MachineOk(t.m, ls)
    requires Commands.ParseDownload(line) == Commands.DownloadRequest(name)
    requires a.found < |t.m.records| && t.m.records[a.found].name == name
    ensures var code := SendPrepare(t, line, a).code;
            && code != -3
            && (code == 0 <==> t.m.atRoot && !a.openRefused && Usable(t.m, a.newHandle))
  {
    var r := t.m.records[a.found];
    assert RecordOk(r, t.m);
    CounterFits(|t.m.files[PathOf(r.hash)]|);
  }
}
