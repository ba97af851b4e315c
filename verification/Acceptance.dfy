/** Exactly which upload requests are accepted, and what a refused one leaves behind. */
module Acceptance {
  import opened Prelude
  import opened Naming
  import opened Environment
  import opened SessionSpec
  import opened Confinement
  import opened Directories
  import opened Uploads
  import Aborts
  import Commands

  // ----- the probing loop -----

  /** The loop, begun at `seed`, can create the file at seed `k`. */
  ghost predicate Free(m: Machine, h: Hash, name: string, a: Answers, seed: int, k: int) {
    && (Known(m, h, name, seed, k) || k !in a.mkdirRefused)
    && k !in a.createRefused && Usable(m, a.newHandle) && !Aborts.Occupied(m, h, name, k)
  }

  /** The loop gets to seed `k` and can create the file there. */
  ghost predicate FreeAt(m: Machine, h: Hash, name: string, a: Answers, seed: int, k: int) {
    seed <= k <= INT_MAX && AllPassed(m, h, name, a, seed, k) && Free(m, h, name, a, seed, k)
  }

  ghost predicate FindsFree(m: Machine, h: Hash, name: string, a: Answers, seed: int) {
    exists k :: FreeAt(m, h, name, a, seed, k)
  }

  lemma FreeFromNext(m: Machine, h: Hash, name: string, a: Answers, seed: int, k: int)
    requires Passed(m, h, name, a, seed, seed) && seed < k
    ensures FreeAt(m, h, name, a, seed, k)
            <==> FreeAt(m.(dirs := m.dirs + {DirOf(h(name, seed))}, atRoot := true), h, name, a, seed + 1, k)
  {
    KnownFromNext(m, h, name, seed, k);
    LoopFromNext(m, h, name, a, seed, k);
  }

  lemma FindsFromNext(m: Machine, h: Hash, name: string, a: Answers, seed: int)
    requires Passed(m, h, name, a, seed, seed)
    ensures FindsFree(m, h, name, a, seed)
            <==> FindsFree(m.(dirs := m.dirs + {DirOf(h(name, seed))}, atRoot := true), h, name, a, seed + 1)
  {
    var m1 := m.(dirs := m.dirs + {DirOf(h(name, seed))}, atRoot := true);
    if FindsFree(m, h, name, a, seed) {
      var k :| FreeAt(m, h, name, a, seed, k);
      FreeFromNext(m, h, name, a, seed, k);
    }
    if FindsFree(m1, h, name, a, seed + 1) {
      var k :| FreeAt(m1, h, name, a, seed + 1, k);
      FreeFromNext(m, h, name, a, seed, k);
    }
  }

  /** The loop cannot go past a seed at which it stops. */
  lemma StopsHere(m: Machine, h: Hash, name: string, a: Answers, seed: int)
    requires seed <= INT_MAX && !Passed(m, h, name, a, seed, seed)
    ensures FindsFree(m, h, name, a, seed) <==> Free(m, h, name, a, seed, seed)
  {
    assert forall k | seed < k :: !AllPassed(m, h, name, a, seed, k);
    assert AllPassed(m, h, name, a, seed, seed);
    assert FreeAt(m, h, name, a, seed, seed) <==> Free(m, h, name, a, seed, seed);
  }

  /** The loop creates the file exactly if it gets to a seed at which it can. */
  lemma {:induction false} CreatedIff(m: Machine, h: Hash, name: string, a: Answers, seed: int)
    ensures ProbeFrom(m, h, name, a, seed).Created? <==> FindsFree(m, h, name, a, seed)
    decreases INT_MAX + 1 - seed
  {
    if seed <= INT_MAX {
      if Passed(m, h, name, a, seed, seed) {
        FindsFromNext(m, h, name, a, seed);
        CreatedIff(m.(dirs := m.dirs + {DirOf(h(name, seed))}, atRoot := true), h, name, a, seed + 1);
      } else {
        StopsHere(m, h, name, a, seed);
      }
    }
  }

  // ----- the request -----

  /** The request passes its checks, and the probing loop finds a seed. */
  ghost predicate Acceptable(m: Machine, line: string, a: Answers, h: Hash) {
    PassesChecks(line, a) && FindsFree(m, h, Commands.ParseUpload(line).name, a, FILE_HASH_SEED)
  }

  /** The session has let go of its file, and whatever it had open is closed, if it closes it. */
  ghost predicate LetsGo(t: Turn, t': Turn, closes: bool) {
    if closes && t.s.fd > -1 then
      t'.s == t.s.(file := None, fd := -1, mode := t'.s.mode) && t'.m.handles == t.m.handles - {t.s.fd}
    else
      t'.s == t.s.(file := None, mode := t'.s.mode) && t'.m.handles == t.m.handles
  }

  lemma ClearLetsGo(t: Turn)
    ensures LetsGo(t, ClearFile(t), t.s.file.Some?)
  {
    assert CloseHandle(t.m, t.s.fd).handles == t.m.handles - {t.s.fd};
  }

  lemma AcceptedIff(t: Turn, size: Size, a: Answers, h: Hash)
    requires t.s.file.Some?
    ensures var p, name := AcceptUpload(t, size, a, h), t.s.file.value.name;
            && (p.code == 0 <==> |name| <= a.nameMax && size <= a.space && FindsFree(t.m, h, name, a, FILE_HASH_SEED))
            && (p.code != 0 ==> p.t.m.files == t.m.files && LetsGo(t, p.t, true))
  {
    var name := t.s.file.value.name;
    CreatedIff(t.m, h, name, a, FILE_HASH_SEED);
    ProbeResult(t.m, h, name, a, FILE_HASH_SEED);
    ClearLetsGo(t);
    ClearLetsGo(WithMode(t, Wait));
    var p := ProbeFrom(t.m, h, name, a, FILE_HASH_SEED);
    if p.Refused? {
      ClearLetsGo(t.(m := p.m));
    }
  }

  /** A request is accepted if and only if its line names a file, the name and the size pass the checks, and the probing
      loop gets to a seed with a free path at which nothing is refused. A refused one changes no file and opens nothing;
      the session has no file in hand, and unless the line names none, nothing open. */
  lemma RequestAcceptedIff(t: Turn, line: string, a: Answers, h: Hash)
    ensures var p := ReceivePrepare(t, line, a, h);
            && (p.code == 0 <==> Acceptable(t.m, line, a, h))
            && (p.code != 0 ==>
                 && p.t.m.files == t.m.files && p.t.m.wire == t.m.wire && p.t.m.records == t.m.records
                 && LetsGo(t, p.t, t.s.file.Some? || Commands.ParseUpload(line).UploadRequest?)
                 && p.t.s.mode in {t.s.mode, Wait})
  {
    ReceiveResult(t, line, a, h);
    match Commands.ParseUpload(line)
    case UploadRequest(name, size, perm) =>
      AcceptedIff(t.(s := t.s.(file := Some(NewFile(name, perm, a)))), size, a, h);
    case _ => ClearLetsGo(t);
  }
}
