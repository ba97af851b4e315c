/** Uploads that end early, and the paths that uploads are given. */
module Aborts {
  import opened Prelude
  import opened Naming
  import opened Environment
  import opened SessionSpec
  import opened Invariant
  import opened Confinement
  import Framing
  import Commands

  /** How a session looks once its upload is gone. */
  predicate Forgotten(s: Session) {
    s.mode == Wait && s.file == None && s.fd == -1
  }

  /** What a dropped upload leaves of the file map, its own file having held anything at all. */
  ghost predicate Removed(path: string, m: Machine, m': Machine) {
    && m'.atRoot == m.atRoot
    && m'.files - {path} == m.files - {path}
    && (path !in m'.files <==> m.atRoot)
  }

  lemma DropRemoves(s: Session, m: Machine, m1: Machine, data: Bytes)
    requires UploadOk(s, m) && Bounded(m) && Appended(s, m, m1, data)
    ensures Forgotten(DropUpload(Turn(s, m1)).s) && Removed(s.file.value.path, m, DropUpload(Turn(s, m1)).m)
    ensures Forgotten(FailUpload(Turn(s, m1)).s) && Removed(s.file.value.path, m, FailUpload(Turn(s, m1)).m)
  {
    var path := s.file.value.path;
    assert m.files[path := m.files[path] + data] - {path} == m.files - {path};
  }

  /** The upload goes on with the same file and nothing else changed, or is over: session cleared, and the file gone
      exactly when the process stands in its own directory. */
  ghost predicate GoesOnOrEnds(t: Turn, t': Turn)
    requires t.s.file.Some?
  {
    var path := t.s.file.value.path;
    if Uploading(t'.s) then
      && t'.s.file.Some? && t'.s.file.value.path == path && t'.s.file.value.size == t.s.file.value.size
      && t'.m.atRoot == t.m.atRoot && t'.m.files - {path} == t.m.files - {path}
    else Forgotten(t'.s) && Removed(path, t.m, t'.m)
  }

  lemma ObeyEnds(t: Turn, i: int, v: Framing.Verdict, a: Answers)
    requires SlotOk(t.s, i, t.m) && t.s.mode == Upload && Bounded(t.m)
    ensures GoesOnOrEnds(t, Obey(t, v, a))
  {
    var m1, m2, path := WriteFile(t.m, t.s.fd, v.first, a.firstWrite), WriteAll(t.m, t.s.fd, v, a), t.s.file.value.path;
    WriteAppends(t.s, t.m, v.first, a.firstWrite);
    WriteAllAppends(t.s, t.m, v, a);
    if m1.None? {
      NothingAppended(t.s, t.m);
      DropRemoves(t.s, t.m, t.m, []);
    } else {
      DropRemoves(t.s, t.m, m1.value, v.first);
      if m2.Some? {
        assert m2.value.files - {path} == t.m.files - {path};
      }
    }
  }

  /** So does every turn of an upload of a non-empty file. */
  lemma UploadTurnEnds(t: Turn, i: int, a: Answers)
    requires SlotOk(t.s, i, t.m) && t.s.mode == Upload && Bounded(t.m) && t.s.file.value.size > 0
    ensures GoesOnOrEnds(t, FileUpload(t, a))
  {
    var f, r := t.s.file.value, UploadRead(a);
    if r.chunk != [] {
      ObeyEnds(t, i, Framing.Deframe(f.rest, f.packageRest, r), a);
      UploadObeysVerdict(t, a);
    } else {
      NothingAppended(t.s, t.m);
      DropRemoves(t.s, t.m, t.m, []);
    }
  }

  // ----- what ends an upload -----

  /** The client has closed its end of the stream. */
  predicate StreamEnds(a: Answers) {
    a.data == []
  }

  /** The descriptor behind the package at hand tells the server to stop. */
  predicate Cancels(t: Turn, a: Answers)
    requires t.s.file.Some?
  {
    var f, r := t.s.file.value, UploadRead(a);
    && f.packageRest < |r.chunk| && f.rest != f.packageRest
    && Framing.ParseDescriptor(Framing.Peek(r, f.packageRest)).signal == Framing.Cancel
  }

  /** That is: the read holds bytes behind the package at hand, something is still missing then, and the first four of
      these bytes are the number 1. */
  lemma CancelsIff(t: Turn, a: Answers)
    requires t.s.file.Some?
    ensures var f, chunk := t.s.file.value, UploadRead(a).chunk;
            |chunk| >= f.packageRest + 4 ==>
              (Cancels(t, a) <==> f.rest != f.packageRest && chunk[f.packageRest..f.packageRest + 4] == [1, 0, 0, 0])
  {
    var f, r := t.s.file.value, UploadRead(a);
    if |r.chunk| >= f.packageRest + 4 {
      Framing.CancelIff(Framing.Peek(r, f.packageRest));
      assert Framing.Peek(r, f.packageRest)[..4] == r.chunk[f.packageRest..f.packageRest + 4];
    }
  }

  /** A write that the read asks for is refused. */
  predicate WriteFails(t: Turn, a: Answers)
    requires t.s.file.Some?
  {
    var f, r := t.s.file.value, UploadRead(a);
    r.chunk != [] && WriteAll(t.m, t.s.fd, Framing.Deframe(f.rest, f.packageRest, r), a).None?
  }

  predicate EndsEarly(t: Turn, a: Answers)
    requires t.s.file.Some?
  {
    StreamEnds(a) || Cancels(t, a) || WriteFails(t, a)
  }

  lemma CancelledByDescriptor(rest: Size, packageRest: Size, r: Framing.Read)
    requires r.chunk != []
    ensures Framing.Deframe(rest, packageRest, r).cancelled
            <==> packageRest < |r.chunk| && rest != packageRest
                 && Framing.ParseDescriptor(Framing.Peek(r, packageRest)).signal == Framing.Cancel
  {
    assert ToSize(rest - packageRest) == 0 <==> rest == packageRest;
  }

  lemma ObeyWaits(t: Turn, v: Framing.Verdict, a: Answers)
    requires t.s.file.Some? && t.s.mode == Upload
    ensures Obey(t, v, a).s.mode == Wait <==> v.cancelled || WriteAll(t.m, t.s.fd, v, a).None?
  {
  }

  /** An upload of a non-empty file goes back to waiting at an end of stream, a cancellation or a failed write, and at
      nothing else. */
  lemma UploadWaitsIff(t: Turn, i: int, a: Answers)
    requires SlotOk(t.s, i, t.m) && t.s.mode == Upload && t.s.file.value.size > 0
    ensures FileUpload(t, a).s.mode == Wait <==> EndsEarly(t, a)
  {
    var f, r := t.s.file.value, UploadRead(a);
    if r.chunk != [] {
      UploadObeysVerdict(t, a);
      CancelledByDescriptor(f.rest, f.packageRest, r);
      ObeyWaits(t, Framing.Deframe(f.rest, f.packageRest, r), a);
    }
  }

  // ----- descriptors -----

  lemma DropReleases(s: Session, m: Machine, m1: Machine, data: Bytes)
    requires UploadOk(s, m) && Appended(s, m, m1, data)
    ensures DropUpload(Turn(s, m1)).m.handles == m.handles - {s.fd}
    ensures FailUpload(Turn(s, m1)).m.handles == m.handles - {s.fd}
  {
    assert DropUpload(Turn(s, m1)).m.handles == m1.handles - {s.fd} == m.handles - {s.fd};
    assert FailUpload(Turn(s, m1)).m.handles == m1.handles - {s.fd};
  }

  /** What becomes of the descriptor of a transfer: still this session's, or closed; no other changes. */
  ghost predicate KeepsOrCloses(s: Session, m: Machine, s': Session, m': Machine) {
    if s'.fd == s.fd then m'.handles - {s.fd} == m.handles - {s.fd} && s.fd in m'.handles
    else s'.fd == -1 && m'.handles == m.handles - {s.fd}
  }

  lemma ObeyReleases(t: Turn, i: int, v: Framing.Verdict, a: Answers)
    requires SlotOk(t.s, i, t.m) && t.s.mode == Upload && Bounded(t.m)
    ensures KeepsOrCloses(t.s, t.m, Obey(t, v, a).s, Obey(t, v, a).m)
    ensures Obey(t, v, a).s.mode == Wait ==> Obey(t, v, a).s.fd == -1
  {
    var m1, m2 := WriteFile(t.m, t.s.fd, v.first, a.firstWrite), WriteAll(t.m, t.s.fd, v, a);
    WriteAppends(t.s, t.m, v.first, a.firstWrite);
    WriteAllAppends(t.s, t.m, v, a);
    if m1.None? {
      NothingAppended(t.s, t.m);
      DropReleases(t.s, t.m, t.m, []);
    } else {
      DropReleases(t.s, t.m, m1.value, v.first);
    }
  }

  /** A call of the upload handler keeps the descriptor or closes it, and closes it whenever an upload of a non-empty
      file ends early. */
  lemma UploadReleases(t: Turn, i: int, a: Answers)
    requires SlotOk(t.s, i, t.m) && t.s.mode == Upload && Bounded(t.m)
    ensures KeepsOrCloses(t.s, t.m, FileUpload(t, a).s, FileUpload(t, a).m)
    ensures t.s.file.value.size > 0 && EndsEarly(t, a) ==>
      FileUpload(t, a).s.fd == -1 && FileUpload(t, a).m.handles == t.m.handles - {t.s.fd}
  {
    var f, r := t.s.file.value, UploadRead(a);
    if r.chunk != [] {
      UploadObeysVerdict(t, a);
      ObeyReleases(t, i, Framing.Deframe(f.rest, f.packageRest, r), a);
    } else {
      NothingAppended(t.s, t.m);
      DropReleases(t.s, t.m, t.m, []);
    }
    if t.s.file.value.size > 0 {
      UploadWaitsIff(t, i, a);
    }
  }

  // ----- whole uploads -----

  /** An upload served until it ends or the answers run out. */
  function UploadTurns(t: Turn, answers: seq<Answers>): (t': Turn)
    requires FileHeld(t.s)
    ensures FileHeld(t'.s)
    decreases |answers|
  {
    if t.s.mode != Upload || answers == [] then t
    else
      UploadKeepsFile(t, answers[0]);
      UploadTurns(FileUpload(t, answers[0]), answers[1..])
  }

  lemma ObeyKeepsFile(t: Turn, v: Framing.Verdict, a: Answers)
    requires t.s.file.Some? && t.s.mode == Upload
    ensures FileHeld(Obey(t, v, a).s)
  {
  }

  lemma UploadKeepsFile(t: Turn, a: Answers)
    requires t.s.file.Some? && t.s.mode == Upload
    ensures FileHeld(FileUpload(t, a).s)
  {
    var f, r := t.s.file.value, UploadRead(a);
    if r.chunk != [] {
      UploadObeysVerdict(t, a);
      ObeyKeepsFile(t, Framing.Deframe(f.rest, f.packageRest, r), a);
    }
  }

  /** As long as it goes on, an upload changes no file and no descriptor but its own. */
  lemma {:induction false} UploadStays(t: Turn, i: int, answers: seq<Answers>)
    requires SlotOk(t.s, i, t.m) && t.s.mode == Upload && Bounded(t.m) && t.s.file.value.size > 0
    requires UploadTurns(t, answers).s.mode == Upload
    ensures var t', path := UploadTurns(t, answers), t.s.file.value.path;
            && SlotOk(t'.s, i, t'.m) && Bounded(t'.m)
            && t'.s.file.value.path == path && t'.s.file.value.size == t.s.file.value.size && t'.s.fd == t.s.fd
            && t'.m.atRoot == t.m.atRoot && t'.m.files - {path} == t.m.files - {path}
            && t'.m.handles - {t.s.fd} == t.m.handles - {t.s.fd}
    decreases |answers|
  {
    if answers != [] {
      var t1 := FileUpload(t, answers[0]);
      UploadTurnEnds(t, i, answers[0]);
      UploadReleases(t, i, answers[0]);
      UploadConfined(t, i, answers[0]);
      UploadStays(t1, i, answers[1..]);
    }
  }

  /** An accepted request has added an empty file at a path that nobody had, and a descriptor. */
  lemma AcceptedAdds(t: Turn, line: string, a: Answers, h: Hash)
    requires ReceivePrepare(t, line, a, h).code == 0
    ensures var t1 := ReceivePrepare(t, line, a, h).t;
            && t1.s.file.value.path !in t.m.files && t1.m.files == t.m.files[t1.s.file.value.path := []] && t1.m.atRoot
            && t1.s.fd >= 0 && t1.s.fd !in t.m.handles
            && t1.m.handles == t.m.handles[t1.s.fd := OpenFile(t1.s.file.value.path, 0)]
  {
    ProbeResult(t.m, h, Commands.ParseUpload(line).name, a, FILE_HASH_SEED);
  }

  lemma TraceRemoved(m: Machine, m1: Machine, m2: Machine, m3: Machine, path: string)
    requires path !in m.files && m1.files == m.files[path := []] && m1.atRoot && m2.atRoot == m1.atRoot
    requires m2.files - {path} == m1.files - {path} && Removed(path, m2, m3)
    ensures m3.files == m.files
  {
    assert m.files[path := []] - {path} == m.files;
    assert m3.files == m3.files - {path};
  }

  /** At any point of an upload of a non-empty file an end of stream, a cancellation or a failed write, and nothing
      else, makes the session wait again; its file is then forgotten, and the file map and the open descriptors are as
      they were before the request. */
  lemma AbortedUploadLeavesNoTrace(t: Turn, i: int, line: string, a: Answers, h: Hash, ls: nat,
                                   answers: seq<Answers>, b: Answers)
    requires SlotOk(t.s, i, t.m) && t.s.mode == Wait && MachineOk(t.m, ls)
    requires ReceivePrepare(t, line, a, h).code == 0
    requires ReceivePrepare(t, line, a, h).t.s.file.value.size > 0
    requires UploadTurns(WithMode(ReceivePrepare(t, line, a, h).t, Upload), answers).s.mode == Upload
    ensures var t2 := UploadTurns(WithMode(ReceivePrepare(t, line, a, h).t, Upload), answers);
            var t3 := FileUpload(t2, b);
            && (t3.s.mode == Wait <==> EndsEarly(t2, b))
            && (EndsEarly(t2, b) ==> Forgotten(t3.s) && t3.m.files == t.m.files && t3.m.handles == t.m.handles)
  {
    var t1 := WithMode(ReceivePrepare(t, line, a, h).t, Upload);
    ReceivePrepareConfined(t, i, line, a, h, ls);
    AcceptedAdds(t, line, a, h);
    UploadStays(t1, i, answers);
    var t2 := UploadTurns(t1, answers);
    UploadWaitsIff(t2, i, b);
    UploadTurnEnds(t2, i, b);
    UploadReleases(t2, i, b);
    if EndsEarly(t2, b) {
      assert t1.m.handles - {t1.s.fd} == t.m.handles;
      TraceRemoved(t.m, t1.m, t2.m, FileUpload(t2, b).m, t1.s.file.value.path);
    }
  }

  // ----- the probing loop -----

  /** A seed at which the loop goes on: the directory is there or can be made, and the file exists. */
  predicate Occupied(m: Machine, h: Hash, name: string, seed: int) {
    PathOf(h(name, seed)) in m.files
  }

  /** If nothing is refused, the file gets the least seed whose path was free, every earlier path being occupied. */
  lemma {:induction false} LeastFreeSeed(m: Machine, h: Hash, name: string, a: Answers, seed: int, free: int)
    requires seed <= free <= INT_MAX && Usable(m, a.newHandle)
    requires a.mkdirRefused == {} && a.createRefused == {}
    requires !Occupied(m, h, name, free) && forall k | seed <= k < free :: Occupied(m, h, name, k)
    ensures var p := ProbeFrom(m, h, name, a, seed);
            p.Created? && p.hash == h(name, free)
    decreases free - seed
  {
    if seed < free {
      assert Occupied(m, h, name, seed);
      var m1 := m.(dirs := m.dirs + {DirOf(h(name, seed))}, atRoot := true);
      forall k | seed + 1 <= k < free
        ensures Occupied(m1, h, name, k)
      {
        assert Occupied(m, h, name, k);
      }
      LeastFreeSeed(m1, h, name, a, seed + 1, free);
    }
  }

  /** Whenever a file is created, its seed is the first from FILE_HASH_SEED on whose path was free. */
  lemma {:induction false} CreatedAtFirstFreeSeed(m: Machine, h: Hash, name: string, a: Answers, seed: int)
    requires ProbeFrom(m, h, name, a, seed).Created?
    ensures exists free | seed <= free <= INT_MAX ::
      && ProbeFrom(m, h, name, a, seed).hash == h(name, free)
      && !Occupied(m, h, name, free)
      && forall k | seed <= k < free :: Occupied(m, h, name, k)
    decreases INT_MAX - seed
  {
    var m1 := m.(dirs := m.dirs + {DirOf(h(name, seed))}, atRoot := true);
    if Occupied(m, h, name, seed) {
      CreatedAtFirstFreeSeed(m1, h, name, a, seed + 1);
      var free :| seed + 1 <= free <= INT_MAX
        && ProbeFrom(m1, h, name, a, seed + 1).hash == h(name, free)
        && !Occupied(m1, h, name, free)
        && forall k | seed + 1 <= k < free :: Occupied(m1, h, name, k);
      forall k | seed <= k < free
        ensures Occupied(m, h, name, k)
      {
        if k > seed {
          assert Occupied(m1, h, name, k);
        }
      }
    }
  }
}
