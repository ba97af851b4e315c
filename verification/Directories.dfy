/** The working directory of the process: what moves it, and what it hides. */
module Directories {
  import opened Prelude
  import opened Naming
  import opened Environment
  import opened SessionSpec
  import opened ServerSpec
  import opened Invariant
  import opened Confinement
  import opened Observer
  import Aborts
  import Commands
  import EndToEnd
  import Framing

  // ----- the probing loop -----

  /** The directory for seed `j` is there by the time the loop, begun at `seed`, gets to it. */
  ghost predicate Known(m: Machine, h: Hash, name: string, seed: int, j: int) {
    DirOf(h(name, j)) in m.dirs || exists l | seed <= l < j :: DirOf(h(name, l)) == DirOf(h(name, j))
  }

  /** The loop passes seed `j`: the directory is there or can be made, and the file exists. */
  ghost predicate Passed(m: Machine, h: Hash, name: string, a: Answers, seed: int, j: int) {
    && (Known(m, h, name, seed, j) || j !in a.mkdirRefused)
    && j !in a.createRefused && Usable(m, a.newHandle) && Aborts.Occupied(m, h, name, j)
  }

  ghost predicate Stuck(m: Machine, h: Hash, name: string, a: Answers, seed: int, k: int) {
    !Known(m, h, name, seed, k) && k in a.mkdirRefused
  }

  ghost predicate AllPassed(m: Machine, h: Hash, name: string, a: Answers, seed: int, k: int) {
    forall j | seed <= j < k :: Passed(m, h, name, a, seed, j)
  }

  /** The loop gets to a seed whose directory is missing and cannot be made. */
  ghost predicate MeetsRefusal(m: Machine, h: Hash, name: string, a: Answers, seed: int) {
    exists k | seed <= k <= INT_MAX :: Stuck(m, h, name, a, seed, k) && AllPassed(m, h, name, a, seed, k)
  }

  lemma KnownFromNext(m: Machine, h: Hash, name: string, seed: int, j: int)
    requires seed < j
    ensures Known(m, h, name, seed, j)
            <==> Known(m.(dirs := m.dirs + {DirOf(h(name, seed))}, atRoot := true), h, name, seed + 1, j)
  {
  }

  lemma LoopFromNext(m: Machine, h: Hash, name: string, a: Answers, seed: int, k: int)
    requires Passed(m, h, name, a, seed, seed) && seed < k
    ensures var m1 := m.(dirs := m.dirs + {DirOf(h(name, seed))}, atRoot := true);
            && (Stuck(m, h, name, a, seed, k) <==> Stuck(m1, h, name, a, seed + 1, k))
            && (AllPassed(m, h, name, a, seed, k) <==> AllPassed(m1, h, name, a, seed + 1, k))
  {
    var m1, next := m.(dirs := m.dirs + {DirOf(h(name, seed))}, atRoot := true), seed + 1;
    forall j | seed < j
      ensures Passed(m, h, name, a, seed, j) <==> Passed(m1, h, name, a, next, j)
    {
      KnownFromNext(m, h, name, seed, j);
    }
    KnownFromNext(m, h, name, seed, k);
  }

  lemma RefusalFromNext(m: Machine, h: Hash, name: string, a: Answers, seed: int)
    requires Passed(m, h, name, a, seed, seed) && seed <= INT_MAX
    ensures MeetsRefusal(m, h, name, a, seed)
            <==> MeetsRefusal(m.(dirs := m.dirs + {DirOf(h(name, seed))}, atRoot := true), h, name, a, seed + 1)
  {
    var m1, next := m.(dirs := m.dirs + {DirOf(h(name, seed))}, atRoot := true), seed + 1;
    if MeetsRefusal(m, h, name, a, seed) {
      var k :| seed <= k <= INT_MAX && Stuck(m, h, name, a, seed, k) && AllPassed(m, h, name, a, seed, k);
      assert k != seed;
      LoopFromNext(m, h, name, a, seed, k);
      assert Stuck(m1, h, name, a, next, k);
    }
    if MeetsRefusal(m1, h, name, a, next) {
      var k :| next <= k <= INT_MAX && Stuck(m1, h, name, a, next, k) && AllPassed(m1, h, name, a, next, k);
      LoopFromNext(m, h, name, a, seed, k);
      assert Stuck(m, h, name, a, seed, k);
    }
  }

  /** The loop ends with the result for a directory that cannot be made exactly if it meets one. */
  lemma {:induction false} RefusedIff(m: Machine, h: Hash, name: string, a: Answers, seed: int)
    ensures var p := ProbeFrom(m, h, name, a, seed);
            (p.Refused? && p.code == -4) <==> MeetsRefusal(m, h, name, a, seed)
    decreases INT_MAX + 1 - seed
  {
    if seed <= INT_MAX {
      if Passed(m, h, name, a, seed, seed) {
        RefusalFromNext(m, h, name, a, seed);
        RefusedIff(m.(dirs := m.dirs + {DirOf(h(name, seed))}, atRoot := true), h, name, a, seed + 1);
      } else {
        assert forall k | seed < k :: !AllPassed(m, h, name, a, seed, k);
        assert AllPassed(m, h, name, a, seed, seed);
      }
    }
  }

  /** Where the probing loop leaves the process: inside the storage folder exactly when a directory was refused. */
  lemma {:induction false} ProbeDirectory(m: Machine, h: Hash, name: string, a: Answers, seed: int)
    requires seed <= INT_MAX
    ensures var p := ProbeFrom(m, h, name, a, seed);
            p.m.atRoot <==> !(p.Refused? && p.code == -4)
    decreases INT_MAX - seed
  {
    var hash := h(name, seed);
    var m1 := m.(dirs := m.dirs + {DirOf(hash)}, atRoot := true);
    if !(DirOf(hash) !in m.dirs && seed in a.mkdirRefused)
       && !(seed in a.createRefused || !Usable(m1, a.newHandle)) && PathOf(hash) in m1.files && seed < INT_MAX {
      ProbeDirectory(m1, h, name, a, seed + 1);
    }
  }

  // ----- a request -----

  /** The request gets as far as the probing loop. */
  predicate PassesChecks(line: string, a: Answers) {
    var r := Commands.ParseUpload(line);
    r.UploadRequest? && |r.name| <= a.nameMax && r.size <= a.space
  }

  /** It gets there and meets a directory that cannot be made. */
  ghost predicate DirectoryRefused(m: Machine, line: string, a: Answers, h: Hash) {
    PassesChecks(line, a) && MeetsRefusal(m, h, Commands.ParseUpload(line).name, a, FILE_HASH_SEED)
  }

  lemma AcceptMovesProcess(t: Turn, size: Size, a: Answers, h: Hash)
    requires t.s.file.Some?
    ensures var p, name := AcceptUpload(t, size, a, h), t.s.file.value.name;
            var refused := |name| <= a.nameMax && size <= a.space && MeetsRefusal(t.m, h, name, a, FILE_HASH_SEED);
            && (p.code == -4 <==> refused)
            && (p.t.m.atRoot <==> if |name| <= a.nameMax && size <= a.space then !refused else t.m.atRoot)
  {
    var name := t.s.file.value.name;
    RefusedIff(t.m, h, name, a, FILE_HASH_SEED);
    ProbeDirectory(t.m, h, name, a, FILE_HASH_SEED);
  }

  /** The exact condition for the result -4, and where a request leaves the process. */
  lemma RequestMovesProcess(t: Turn, line: string, a: Answers, h: Hash)
    ensures var p := ReceivePrepare(t, line, a, h);
            && (p.code == -4 <==> DirectoryRefused(t.m, line, a, h))
            && (p.t.m.atRoot <==> if PassesChecks(line, a) then !DirectoryRefused(t.m, line, a, h) else t.m.atRoot)
  {
    match Commands.ParseUpload(line)
    case UploadRequest(name, size, perm) =>
      AcceptMovesProcess(t.(s := t.s.(file := Some(NewFile(name, perm, a)))), size, a, h);
    case _ =>
  }

  /** A directory that could not be made for one client makes every stored file unreachable for all others:
      an undamaged saved file is then answered with "can't open". */
  lemma RefusedDirectoryHidesFiles(t: Turn, line: string, a: Answers, h: Hash,
                                   u: Session, request: string, b: Answers, name: string)
    requires DirectoryRefused(t.m, line, a, h)
    requires Commands.ParseDownload(request) == Commands.DownloadRequest(name)
    requires b.found < |t.m.records| && t.m.records[b.found].name == name
    ensures var m1 := ReceivePrepare(t, line, a, h).t.m;
            m1.files == t.m.files && SendPrepare(Turn(u, m1), request, b).code == -2
  {
    RequestMovesProcess(t, line, a, h);
    ProbeResult(t.m, h, Commands.ParseUpload(line).name, a, FILE_HASH_SEED);
  }

  /** For instance: the directory of the first path is missing and cannot be made. */
  lemma FirstDirectoryRefused(t: Turn, line: string, a: Answers, h: Hash, name: string, size: Size, perm: Option<Int32>)
    requires Commands.ParseUpload(line) == Commands.UploadRequest(name, size, perm)
    requires |name| <= a.nameMax && size <= a.space
    requires DirOf(h(name, FILE_HASH_SEED)) !in t.m.dirs && FILE_HASH_SEED in a.mkdirRefused
    ensures DirectoryRefused(t.m, line, a, h) && ReceivePrepare(t, line, a, h).code == -4
  {
    assert Stuck(t.m, h, name, a, FILE_HASH_SEED, FILE_HASH_SEED);
    RequestMovesProcess(t, line, a, h);
  }

  // ----- turns and runs -----

  /** The turn reads an upload request that passes its checks. */
  predicate Asks(s: Session, i: int, readable: set<int>, a: Answers)
    requires Sound(s)
  {
    && s.mode == Wait && i in readable
    && ReadLine(s, a).1.Some?
    && Commands.ParseCommand(LineRead(s, a), a.staleWords) == Commands.Command.Upload
    && PassesChecks(LineRead(s, a), a)
  }

  lemma ObeyKeepsRoot(t: Turn, v: Framing.Verdict, a: Answers)
    requires t.s.file.Some?
    ensures Obey(t, v, a).m.atRoot == t.m.atRoot
  {
  }

  lemma TransferKeepsRoot(t: Turn, a: Answers)
    requires Sound(t.s)
    ensures TransferTurn(t, a).m.atRoot == t.m.atRoot
  {
    if t.s.mode == Upload && UploadRead(a).chunk != [] {
      var f, r := t.s.file.value, UploadRead(a);
      UploadObeysVerdict(t, a);
      ObeyKeepsRoot(t, Framing.Deframe(f.rest, f.packageRest, r), a);
    }
  }

  lemma SendKeepsRoot(t: Turn, line: string, a: Answers)
    ensures SendPrepare(t, line, a).t.m.atRoot == t.m.atRoot
  {
  }

  lemma CommandMovesProcess(t: Turn, line: string, a: Answers, h: Hash)
    ensures ClientCommand(t, line, a, h).m.atRoot
            <==> if Commands.ParseCommand(line, a.staleWords) == Commands.Command.Upload && PassesChecks(line, a)
                 then !DirectoryRefused(t.m, line, a, h) else t.m.atRoot
  {
    match Commands.ParseCommand(line, a.staleWords)
    case Upload => RequestMovesProcess(t, line, a, h);
    case Download => SendKeepsRoot(t, line, a);
    case _ =>
  }

  lemma LineMovesProcess(t: Turn, line: string, a: Answers, h: Hash)
    requires Sound(t.s)
    ensures LineTurn(t, line, a, h).m.atRoot
            <==> if t.s.mode == Wait && Commands.ParseCommand(line, a.staleWords) == Commands.Command.Upload
                    && PassesChecks(line, a)
                 then !DirectoryRefused(t.m, line, a, h) else t.m.atRoot
  {
    match t.s.mode
    case Wait => CommandMovesProcess(t, line, a, h);
    case Upload => TransferKeepsRoot(t, a);
    case Download => TransferKeepsRoot(t, a);
    case _ =>
  }

  lemma CloseKeepsRoot(t: Turn, i: int)
    ensures CloseSession(t, i).atRoot == t.m.atRoot
  {
  }

  lemma RequestTurnMovesProcess(t: Turn, i: int, readable: set<int>, a: Answers, h: Hash)
    requires Sound(t.s) && i in readable
    ensures RequestTurn(t, i, a, h).m.atRoot
            <==> if Asks(t.s, i, readable, a) then !DirectoryRefused(t.m, LineRead(t.s, a), a, h) else t.m.atRoot
  {
    var (s1, line) := ReadLine(t.s, a);
    ReadLeavesRoom(t.s, a);
    CloseKeepsRoot(Turn(s1, t.m), i);
    if line.Some? {
      LineMovesProcess(Turn(s1, t.m), line.value, a, h);
      CloseKeepsRoot(LineTurn(Turn(s1, t.m), line.value, a, h), i);
    }
  }

  /** A turn moves the process only if it reads an upload request that passes its checks: into the storage folder if a
      directory is refused, and otherwise back to where it belongs. */
  lemma TurnMovesProcess(t: Turn, i: int, readable: set<int>, a: Answers, h: Hash)
    requires Sound(t.s)
    ensures SlotTurn(t, i, readable, a, h).m.atRoot
            <==> if Asks(t.s, i, readable, a) then !DirectoryRefused(t.m, LineRead(t.s, a), a, h) else t.m.atRoot
  {
    if t.s.mode == Upload || t.s.mode == Download {
      TransferKeepsRoot(t, a);
    } else if i in readable {
      RequestTurnMovesProcess(t, i, readable, a, h);
    }
  }

  /** No session's request passes its checks. */
  predicate NobodyAsks(o: History, events: seq<Event>, h: Hash)
    requires Shaped(o.w)
    decreases |events|
  {
    events == []
    || (&& !(&& events[0].SlotEvent? && events[0].i < MAX_CONNECTIONS && o.w.slots[events[0].i].Some?
             && Asks(o.w.slots[events[0].i].value, events[0].i, events[0].readable, events[0].answers))
        && NobodyAsks(Happen(o, events[0], h), events[1..], h))
  }

  /** Until then the process stays where it is, so that what a refused directory hides stays hidden. */
  lemma {:induction false} ProcessStays(o: History, events: seq<Event>, h: Hash)
    requires Shaped(o.w) && NobodyAsks(o, events, h)
    ensures Happens(o, events, h).w.m.atRoot == o.w.m.atRoot
    decreases |events|
  {
    if events != [] {
      var e := events[0];
      if e.SlotEvent? && e.i < MAX_CONNECTIONS && o.w.slots[e.i].Some? {
        TurnMovesProcess(Turn(o.w.slots[e.i].value, o.w.m), e.i, e.readable, e.answers, h);
      }
      ProcessStays(Happen(o, e, h), events[1..], h);
    }
  }

  /** The same for the main loop. */
  lemma RunProcessStays(w: World, rounds: seq<Round>, intents: int -> int -> Option<seq<Framing.Package>>, h: Hash)
    requires Shaped(w) && NobodyAsks(EndToEnd.Unobserved(w), EndToEnd.EventsOf(w, rounds, intents, h), h)
    ensures Run(w, rounds, h).m.atRoot == w.m.atRoot
  {
    EndToEnd.RunHappens(EndToEnd.Unobserved(w), rounds, intents, h);
    ProcessStays(EndToEnd.Unobserved(w), EndToEnd.EventsOf(w, rounds, intents, h), h);
  }
}
