/** What holds in every reachable state, whatever the clients send and however their turns interleave. */
module Invariant {
  import opened Prelude
  import opened Naming
  import opened Environment
  import opened SessionSpec
  import opened ServerSpec

  predicate Uploading(s: Session) {
    s.mode == Upload || s.mode == Description
  }

  predicate Downloading(s: Session) {
    s.mode == Download || s.mode == Confirm
  }

  /** The file descriptor of a session is open and leads to a stored file. */
  predicate Holds(s: Session, m: Machine) {
    s.fd >= 0 ==> s.fd in m.handles && m.handles[s.fd].OpenFile? && m.handles[s.fd].path in m.files
  }

  function Held(s: Session, m: Machine): string
    requires s.fd >= 0 && Holds(s, m)
  {
    m.handles[s.fd].path
  }

  /** An upload owns its file: nobody has saved it, it is written at its end, and written and missing bytes
      make up the declared size. */
  ghost predicate UploadOk(s: Session, m: Machine) {
    && s.file.Some? && s.fd >= 0 && s.fd in m.handles
    && var f := s.file.value;
    && f.path == PathOf(f.hash) && f.path in m.files && !IsSaved(m, f.path)
    && m.handles[s.fd] == OpenFile(f.path, |m.files[f.path]|)
    && ToSize(|m.files[f.path]| + f.rest) == f.size
    && (s.mode == Description ==> f.rest == 0)
    && (s.mode == Upload ==> f.rest > 0 || f.size == 0)
  }

  /** A download reads a saved file of the recorded size, from where it left off. */
  ghost predicate DownloadOk(s: Session, m: Machine) {
    && s.file.Some? && s.fd >= 0 && s.fd in m.handles
    && var f := s.file.value;
    && f.path == PathOf(f.hash) && f.path in m.files && IsSaved(m, f.path)
    && |m.files[f.path]| == f.size && f.rest <= f.size
    && m.handles[s.fd] == OpenFile(f.path, f.size - f.rest)
    && (f.rest > 0 || (f.size == 0 && s.mode == Download && f.packageRest > 0))
    && (s.mode == Confirm ==> f.packageRest == 0)
  }

  /** Between transfers a descriptor is left only by a transfer of an empty file. */
  predicate IdleOk(s: Session, m: Machine) {
    s.fd >= 0 ==> Holds(s, m) && m.files[Held(s, m)] == []
  }

  ghost predicate SlotOk(s: Session, i: int, m: Machine) {
    && s.sd == i && i in m.handles && m.handles[i] == Socket && i in m.wire
    && |s.text| < INBUFSIZE
    && s.fd >= -1 && Holds(s, m)
    && (if Uploading(s) then UploadOk(s, m) else if Downloading(s) then DownloadOk(s, m) else IdleOk(s, m))
  }

  /** Two sessions share no descriptor, and neither holds the file the other is uploading. */
  predicate Apart(s: Session, t: Session, m: Machine) {
    s.fd >= 0 && t.fd >= 0 ==>
      && s.fd != t.fd
      && (Uploading(s) && s.file.Some? && Holds(t, m) ==> Held(t, m) != s.file.value.path)
  }

  predicate Bounded(m: Machine) {
    forall p <- m.files :: |m.files[p]| < OFF_SPAN
  }

  predicate RecordOk(r: Record, m: Machine) {
    PathOf(r.hash) in m.files && |m.files[PathOf(r.hash)]| == r.size
  }

  ghost predicate MachineOk(m: Machine, ls: nat) {
    && ls in m.handles && m.handles[ls] == Listener
    && Bounded(m)
    && forall r <- m.records :: RecordOk(r, m)
  }

  ghost predicate Inv(w: World) {
    && |w.slots| == MAX_CONNECTIONS
    && MachineOk(w.m, w.ls)
    && (forall i | 0 <= i < |w.slots| && w.slots[i].Some? :: SlotOk(w.slots[i].value, i, w.m))
    && (forall i, j | 0 <= i < |w.slots| && 0 <= j < |w.slots| && i != j && w.slots[i].Some? && w.slots[j].Some? ::
         Apart(w.slots[i].value, w.slots[j].value, w.m))
  }

  lemma InvShaped(w: World)
    requires Inv(w)
    ensures Shaped(w)
  {
    forall i | 0 <= i < |w.slots| && w.slots[i].Some?
      ensures Sound(w.slots[i].value)
    {
      assert SlotOk(w.slots[i].value, i, w.m);
    }
  }

  // ----- what a turn may touch -----

  /** The path that only this session may change. */
  predicate Owns(s: Session, path: string) {
    Uploading(s) && s.file.Some? && s.file.value.path == path
  }

  /** A turn of the session of slot `i` changes no descriptor, file or socket but its own, and saves only its own file.
      */
  ghost predicate Touches(s: Session, i: int, m: Machine, m': Machine) {
    && (forall n <- m.handles :: n != i && n != s.fd ==> n in m'.handles && m'.handles[n] == m.handles[n])
    && (forall p <- m.files :: !Owns(s, p) ==> p in m'.files && m'.files[p] == m.files[p])
    && (forall n <- m.wire :: n != i ==> n in m'.wire && m'.wire[n] == m.wire[n])
    && Bounded(m')
    && m.records <= m'.records
    && forall k | |m.records| <= k < |m'.records| ::
         Owns(s, PathOf(m'.records[k].hash)) && RecordOk(m'.records[k], m')
  }

  /** What the session holds afterwards is what it held, or new to everybody, or a saved file. */
  ghost predicate Links(s: Session, m: Machine, s': Session, m': Machine) {
    && (s'.fd >= 0 && Holds(s', m') ==>
         if s'.fd == s.fd then Holds(s, m) && Held(s', m') == Held(s, m)
         else s'.fd !in m.handles && (Held(s', m') !in m.files || IsSaved(m, Held(s', m'))))
    && (Uploading(s') && s'.file.Some? ==> Owns(s, s'.file.value.path) || s'.file.value.path !in m.files)
  }

  /** The outcome of a turn of the session of slot `i` is confined to that slot. */
  ghost predicate Local(s: Session, i: int, m: Machine, after: After) {
    && Touches(s, i, m, after.m)
    && (after.s.Some? ==> Links(s, m, after.s.value, after.m) && SlotOk(after.s.value, i, after.m))
  }

  lemma SavedGrows(s: Session, i: int, m: Machine, m': Machine, path: string)
    requires Touches(s, i, m, m')
    ensures IsSaved(m, path) ==> IsSaved(m', path)
    ensures IsSaved(m', path) ==> IsSaved(m, path) || Owns(s, path)
  {
    if IsSaved(m, path) {
      var r :| r in m.records && PathOf(r.hash) == path;
      assert r in m'.records;
    }
    if IsSaved(m', path) {
      var r :| r in m'.records && PathOf(r.hash) == path;
      var k :| 0 <= k < |m'.records| && m'.records[k] == r;
      if k < |m.records| {
        assert m.records[k] == r;
      }
    }
  }

  /** A bystander keeps its invariant. */
  lemma BystanderKept(s: Session, i: int, m: Machine, m': Machine, t: Session, j: int)
    requires SlotOk(s, i, m) && SlotOk(t, j, m) && i != j && Apart(s, t, m) && Apart(t, s, m)
    requires Touches(s, i, m, m')
    ensures SlotOk(t, j, m')
    ensures t.fd >= 0 ==> Held(t, m') == Held(t, m) && !Owns(s, Held(t, m))
  {
    if t.fd >= 0 {
      assert t.fd != i;
      SavedGrows(s, i, m, m', Held(t, m));
      assert !Owns(s, Held(t, m));
    }
  }

  lemma StillApart(s: Session, i: int, m: Machine, s': Session, m': Machine, t: Session, j: int)
    requires SlotOk(s, i, m) && SlotOk(t, j, m) && i != j && Apart(s, t, m) && Apart(t, s, m)
    requires Local(s, i, m, After(Some(s'), m'))
    ensures Apart(s', t, m') && Apart(t, s', m')
  {
    BystanderKept(s, i, m, m', t, j);
  }

  lemma MachineKept(s: Session, i: int, m: Machine, m': Machine, ls: nat)
    requires MachineOk(m, ls) && SlotOk(s, i, m) && Touches(s, i, m, m')
    ensures MachineOk(m', ls)
  {
    forall r <- m'.records
      ensures RecordOk(r, m')
    {
      var k :| 0 <= k < |m'.records| && m'.records[k] == r;
      if k < |m.records| {
        assert r in m.records && IsSaved(m, PathOf(r.hash)) by {
          assert m.records[k] == r;
        }
        assert !Owns(s, PathOf(r.hash));
      }
    }
  }

  function Replace(w: World, i: nat, after: After): World
    requires i < |w.slots|
  {
    w.(slots := w.slots[i := after.s], m := after.m)
  }

  /** A confined turn keeps the invariant of the whole server. */
  lemma LocalKeepsInv(w: World, i: nat, after: After)
    requires Inv(w) && i < |w.slots| && w.slots[i].Some?
    requires Local(w.slots[i].value, i, w.m, after)
    ensures Inv(Replace(w, i, after))
  {
    var s, w' := w.slots[i].value, Replace(w, i, after);
    MachineKept(s, i, w.m, after.m, w.ls);
    forall j | 0 <= j < |w'.slots| && w'.slots[j].Some?
      ensures SlotOk(w'.slots[j].value, j, w'.m)
    {
      if j != i {
        BystanderKept(s, i, w.m, after.m, w.slots[j].value, j);
      }
    }
    forall j, k | 0 <= j < |w'.slots| && 0 <= k < |w'.slots| && j != k && w'.slots[j].Some? && w'.slots[k].Some?
      ensures Apart(w'.slots[j].value, w'.slots[k].value, w'.m)
    {
      if j == i {
        StillApart(s, i, w.m, after.s.value, after.m, w.slots[k].value, k);
      } else if k == i {
        StillApart(s, i, w.m, after.s.value, after.m, w.slots[j].value, j);
      } else {
        BystanderKept(s, i, w.m, after.m, w.slots[j].value, j);
        BystanderKept(s, i, w.m, after.m, w.slots[k].value, k);
        assert Apart(w.slots[j].value, w.slots[k].value, w.m);
      }
    }
  }
}
