/** Every handler is confined to its own slot, and so every step of the server keeps the invariant. */
module Confinement {
  import opened Prelude
  import opened Naming
  import opened Environment
  import opened SessionSpec
  import opened ServerSpec
  import opened Invariant
  import Framing
  import Commands

  // ----- writing to the uploaded file -----

  /** The session `s` has done nothing so far but append to its file. */
  ghost predicate Appended(s: Session, m: Machine, m1: Machine, data: Bytes) {
    && s.file.Some? && s.fd >= 0 && s.fd in m.handles && s.file.value.path in m.files
    && var path := s.file.value.path;
    && m1 == m.(files := m.files[path := m.files[path] + data],
                handles := m.handles[s.fd := OpenFile(path, |m.files[path]| + |data|)])
    && |m.files[path]| + |data| < OFF_SPAN
  }

  lemma WriteAppends(s: Session, m: Machine, data: Bytes, ok: bool)
    requires UploadOk(s, m) && Bounded(m)
    ensures var w := WriteFile(m, s.fd, data, ok);
            w.Some? ==> Appended(s, m, w.value, data)
  {
    var c := m.files[s.file.value.path];
    assert Overwrite(c, |c|, data) == c + data;
  }

  lemma AppendTwice(s: Session, m: Machine, m1: Machine, first: Bytes, second: Bytes, ok: bool)
    requires UploadOk(s, m) && Bounded(m) && Appended(s, m, m1, first)
    ensures var w := WriteFile(m1, s.fd, second, ok);
            w.Some? ==> Appended(s, m, w.value, first + second)
  {
    var c := m.files[s.file.value.path];
    assert Overwrite(c + first, |c + first|, second) == c + (first + second);
  }

  lemma WriteAllAppends(s: Session, m: Machine, v: Framing.Verdict, a: Answers)
    requires UploadOk(s, m) && Bounded(m)
    ensures var m2 := WriteAll(m, s.fd, v, a);
            m2.Some? ==> Appended(s, m, m2.value, Framing.Written(v))
  {
    WriteAppends(s, m, v.first, a.firstWrite);
    var m1 := WriteFile(m, s.fd, v.first, a.firstWrite);
    assert v.first + [] == v.first;
    if m1.Some? && v.second.Some? {
      AppendTwice(s, m, m1.value, v.first, v.second.value, a.secondWrite);
    }
  }

  // ----- handlers -----

  /** Removing the upload, whatever part of it was written, is confined. */
  lemma DropConfined(s: Session, i: int, m: Machine, m1: Machine, data: Bytes)
    requires SlotOk(s, i, m) && Uploading(s) && Bounded(m) && Appended(s, m, m1, data)
    ensures Local(s, i, m, Going(DropUpload(Turn(s, m1))))
    ensures Local(s, i, m, Going(FailUpload(Turn(s, m1))))
  {
  }

  lemma NothingAppended(s: Session, m: Machine)
    requires UploadOk(s, m) && Bounded(m)
    ensures Appended(s, m, m, [])
  {
    var path := s.file.value.path;
    assert m.files[path] + [] == m.files[path];
    assert m.files[path := m.files[path]] == m.files;
    assert m.handles[s.fd := m.handles[s.fd]] == m.handles;
  }

  lemma SettleConfined(t: Turn, i: int, m2: Machine, v: Framing.Verdict)
    requires SlotOk(t.s, i, t.m) && t.s.mode == Upload && Bounded(t.m)
    requires Appended(t.s, t.m, m2, Framing.Written(v))
    requires ToSize(|Framing.Written(v)| + v.rest) == t.s.file.value.rest
    ensures Local(t.s, i, t.m, Going(Settle(t.(m := m2), v.rest, v.packageRest)))
  {
    var f := t.s.file.value;
    ToSizeChains(f.size, |t.m.files[f.path]|, f.rest, |Framing.Written(v)|, v.rest);
  }

  lemma ObeyConfined(t: Turn, i: int, v: Framing.Verdict, a: Answers)
    requires SlotOk(t.s, i, t.m) && t.s.mode == Upload && Bounded(t.m)
    requires ToSize(|Framing.Written(v)| + v.rest) == t.s.file.value.rest
    ensures Local(t.s, i, t.m, Going(Obey(t, v, a)))
  {
    var m1, m2 := WriteFile(t.m, t.s.fd, v.first, a.firstWrite), WriteAll(t.m, t.s.fd, v, a);
    WriteAppends(t.s, t.m, v.first, a.firstWrite);
    WriteAllAppends(t.s, t.m, v, a);
    if m1.None? {
      NothingAppended(t.s, t.m);
      DropConfined(t.s, i, t.m, t.m, []);
    } else if v.cancelled || m2.None? {
      DropConfined(t.s, i, t.m, m1.value, v.first);
    } else {
      SettleConfined(t, i, m2.value, v);
    }
  }

  lemma EndOfStreamConfined(t: Turn, i: int)
    requires SlotOk(t.s, i, t.m) && t.s.mode == Upload && Bounded(t.m)
    ensures Local(t.s, i, t.m, Going(if t.s.file.value.rest != 0 then DropUpload(t) else WithMode(t, Wait)))
  {
    NothingAppended(t.s, t.m);
    DropConfined(t.s, i, t.m, t.m, []);
  }

  lemma UploadConfined(t: Turn, i: int, a: Answers)
    requires SlotOk(t.s, i, t.m) && t.s.mode == Upload && Bounded(t.m)
    ensures Local(t.s, i, t.m, Going(FileUpload(t, a)))
  {
    var f, r := t.s.file.value, UploadRead(a);
    if r.chunk != [] {
      Framing.ReadConserves(f.rest, f.packageRest, r);
      ObeyConfined(t, i, Framing.Deframe(f.rest, f.packageRest, r), a);
      UploadObeysVerdict(t, a);
    } else {
      EndOfStreamConfined(t, i);
    }
  }

  /** A download never reads past the end of the file or of the credit. */
  lemma DataWithinCounters(s: Session, m: Machine, short: nat)
    requires DownloadOk(s, m)
    ensures var f := s.file.value;
            var data := FileData(m, s.fd, Wanted(f.rest, f.packageRest), short);
            && |data| <= f.rest && |data| <= f.packageRest
            && f.size - f.rest + |data| <= |m.files[f.path]|
            && data == m.files[f.path][f.size - f.rest..f.size - f.rest + |data|]
  {
    var f := s.file.value;
    TakeTwice(m.files[f.path], f.size - f.rest, Wanted(f.rest, f.packageRest), short);
  }

  /** The machine of a download once it has moved on in its file, or closed it, and sent something. */
  ghost predicate Served(s: Session, i: int, m: Machine, m1: Machine, handles: map<int, Handle>) {
    && m1.handles == handles && m1.files == m.files && m1.records == m.records
    && i in m1.wire && forall n <- m.wire :: n != i ==> n in m1.wire && m1.wire[n] == m.wire[n]
  }

  lemma FinishConfined(s: Session, i: int, m: Machine, m1: Machine)
    requires SlotOk(s, i, m) && Downloading(s) && Bounded(m)
    requires Served(s, i, m, m1, m.handles - {s.fd})
    ensures Local(s, i, m, After(Some(s.(file := None, fd := -1, mode := Wait)), m1))
  {
  }

  lemma AdvanceConfined(s: Session, i: int, m: Machine, m1: Machine, n: nat, mode: Mode)
    requires SlotOk(s, i, m) && Downloading(s) && Bounded(m) && n < s.file.value.rest && n <= s.file.value.packageRest
    requires mode == if n == s.file.value.packageRest then Confirm else Download
    requires var f := s.file.value;
             Served(s, i, m, m1, m.handles[s.fd := OpenFile(f.path, f.size - f.rest + n)])
    ensures var s1 := WithCounters(s, s.file.value.rest - n, s.file.value.packageRest - n);
            Local(s, i, m, After(Some(s1.(mode := mode)), m1))
  {
  }

  lemma SendingConfined(t: Turn, i: int, data: Bytes)
    requires SlotOk(t.s, i, t.m) && t.s.mode == Download && Bounded(t.m)
    requires 0 < |data| <= t.s.file.value.rest && |data| <= t.s.file.value.packageRest
    ensures Local(t.s, i, t.m, Going(Deliver(t.(m := SkipFile(t.m, t.s.fd, |data|)), data, true)))
  {
    var f, m1 := t.s.file.value, SkipFile(t.m, t.s.fd, |data|);
    var m2 := Send(m1, i, data);
    DeliverResult(Turn(t.s, m1), data);
    if |data| == f.rest {
      assert CloseHandle(m2, t.s.fd).handles == t.m.handles - {t.s.fd};
      FinishConfined(t.s, i, t.m, CloseHandle(m2, t.s.fd));
    } else {
      AdvanceConfined(t.s, i, t.m, m2, |data|, if |data| == f.packageRest then Confirm else Download);
    }
  }

  lemma SendFailureConfined(t: Turn, i: int, data: Bytes)
    requires SlotOk(t.s, i, t.m) && t.s.mode == Download && Bounded(t.m)
    ensures Local(t.s, i, t.m, Going(Deliver(t.(m := SkipFile(t.m, t.s.fd, |data|)), data, false)))
  {
  }

  lemma DownloadConfined(t: Turn, i: int, a: Answers)
    requires SlotOk(t.s, i, t.m) && t.s.mode == Download && Bounded(t.m)
    ensures Local(t.s, i, t.m, Going(FileDownload(t, a)))
  {
    var f := t.s.file.value;
    DataWithinCounters(t.s, t.m, a.short);
    var data := FileData(t.m, t.s.fd, Wanted(f.rest, f.packageRest), a.short);
    if f.packageRest > 0 && data != [] {
      SendingConfined(t, i, data);
      SendFailureConfined(t, i, data);
    }
  }

  lemma ConfirmConfined(t: Turn, i: int, line: string)
    requires SlotOk(t.s, i, t.m) && t.s.mode == Confirm && Bounded(t.m)
    ensures Local(t.s, i, t.m, Going(DownloadConfirm(t, line)))
  {
  }

  lemma ClearConfined(t: Turn, i: int)
    requires SlotOk(t.s, i, t.m) && !NeedsFile(t.s.mode) && Bounded(t.m)
    ensures Local(t.s, i, t.m, Going(ClearFile(t)))
  {
  }

  /** A failed preparation leaves a record in hand, or nothing, but opens no descriptor of the session. */
  lemma RefusalConfined(t: Turn, i: int, file: Option<File>, m': Machine)
    requires SlotOk(t.s, i, t.m) && t.s.mode == Wait && Bounded(t.m)
    requires m' == t.m
             || exists n: nat, path :: n !in t.m.handles && m' == t.m.(handles := t.m.handles[n := OpenFile(path, 0)])
    ensures Local(t.s, i, t.m, Going(Turn(t.s.(file := file), m')))
  {
  }

  lemma OpeningConfined(t: Turn, i: int, r: Record, n: int)
    requires SlotOk(t.s, i, t.m) && t.s.mode == Wait && Bounded(t.m) && Usable(t.m, n)
    requires r in t.m.records && RecordOk(r, t.m)
    ensures var path := PathOf(r.hash);
            var s1 := t.s.(file := Some(FileOfRecord(r)));
            var m1 := t.m.(handles := t.m.handles[n := OpenFile(path, 0)]);
            Local(t.s, i, t.m, Going(Turn(WithCounters(s1, r.size, PACKAGE_SIZE).(fd := n, mode := Download), m1)))
  {
    assert IsSaved(t.m, PathOf(r.hash));
  }

  lemma SendPrepareConfined(t: Turn, i: int, line: string, a: Answers, ls: nat)
    requires SlotOk(t.s, i, t.m) && t.s.mode == Wait && MachineOk(t.m, ls)
    ensures var p := SendPrepare(t, line, a);
            Local(t.s, i, t.m, Going(if p.code == 0 then WithMode(p.t, Download) else p.t))
  {
    var p := SendPrepare(t, line, a);
    if p.code in {-4, -5, -6} {
      ClearConfined(t, i);
    } else if p.code == 0 {
      OpeningConfined(t, i, t.m.records[a.found], a.newHandle);
    } else {
      assert p.t.s == t.s.(file := p.t.s.file);
      RefusalConfined(t, i, p.t.s.file, p.t.m);
    }
  }

  // ----- creating a file -----

  /** Probing changes nothing but the set of directories and the working directory, and creates at most one new file. */
  lemma {:induction false} ProbeResult(m: Machine, h: Hash, name: string, a: Answers, seed: int)
    ensures var p := ProbeFrom(m, h, name, a, seed);
            && p.m.wire == m.wire && p.m.records == m.records
            && match p
               case Refused(m1, _) => m1.files == m.files && m1.handles == m.handles
               case Created(m1, hash) =>
                 && PathOf(hash) !in m.files && m1.files == m.files[PathOf(hash) := []]
                 && Usable(m, a.newHandle) && m1.handles == m.handles[a.newHandle := OpenFile(PathOf(hash), 0)]
                 && m1.atRoot
    decreases INT_MAX + 1 - seed
  {
    if seed <= INT_MAX {
      var hash := h(name, seed);
      var m1 := m.(dirs := m.dirs + {DirOf(hash)}, atRoot := true);
      if !(DirOf(hash) !in m.dirs && seed in a.mkdirRefused)
         && !(seed in a.createRefused || !Usable(m1, a.newHandle)) && PathOf(hash) in m1.files {
        ProbeResult(m1, h, name, a, seed + 1);
      }
    }
  }

  lemma FreshPath(m: Machine, path: string, ls: nat)
    requires MachineOk(m, ls) && path !in m.files
    ensures !IsSaved(m, path)
  {
    assert forall r <- m.records :: RecordOk(r, m);
  }

  lemma CreationConfined(s: Session, i: int, m: Machine, m1: Machine, f: File, n: int, ls: nat)
    requires SlotOk(s, i, m) && s.mode == Wait && MachineOk(m, ls) && Usable(m, n)
    requires f.path == PathOf(f.hash) && f.path !in m.files && f.rest == f.size
    requires m1 == m.(dirs := m1.dirs, atRoot := m1.atRoot, files := m.files[f.path := []],
                      handles := m.handles[n := OpenFile(f.path, 0)])
    ensures Local(s, i, m, After(Some(s.(file := Some(f), fd := n, mode := Upload)), m1))
  {
    FreshPath(m, f.path, ls);
    CounterFits(f.size);
    assert IsSaved(m1, f.path) == IsSaved(m, f.path);
  }

  lemma AcceptConfined(t: Turn, i: int, size: Size, a: Answers, h: Hash, ls: nat)
    requires SlotOk(t.s, i, t.m) && t.s.mode == Wait && MachineOk(t.m, ls) && t.s.file.Some?
    ensures var p := AcceptUpload(t, size, a, h);
            Local(t.s, i, t.m, Going(if p.code == 0 then WithMode(p.t, Upload) else p.t))
  {
    var name := t.s.file.value.name;
    ProbeResult(t.m, h, name, a, FILE_HASH_SEED);
    match ProbeFrom(t.m, h, name, a, FILE_HASH_SEED)
    case Created(m1, hash) =>
      var f := t.s.file.value.(path := PathOf(hash), hash := hash, size := size, rest := size);
      CreationConfined(t.s, i, t.m, m1, f, a.newHandle, ls);
      ClearConfined(t, i);
    case Refused(m1, _) =>
      ClearConfined(t, i);
      DirsConfined(t, i, m1);
  }

  lemma DirsConfined(t: Turn, i: int, m1: Machine)
    requires SlotOk(t.s, i, t.m) && t.s.mode == Wait && Bounded(t.m)
    requires m1 == t.m.(dirs := m1.dirs, atRoot := m1.atRoot)
    ensures Local(t.s, i, t.m, Going(ClearFile(Turn(t.s, m1))))
  {
  }

  /** Which file an idle session has in hand means nothing to the machine. */
  lemma FileIrrelevant(s: Session, file: Option<File>, i: int, m: Machine, after: After)
    requires SlotOk(s, i, m) && s.mode == Wait
    ensures SlotOk(s.(file := file), i, m)
    ensures Local(s.(file := file), i, m, after) ==> Local(s, i, m, after)
  {
  }

  lemma UploadRequestConfined(t: Turn, i: int, t1: Turn, size: Size, a: Answers, h: Hash, ls: nat)
    requires SlotOk(t.s, i, t.m) && t.s.mode == Wait && MachineOk(t.m, ls)
    requires t1 == Turn(t.s.(file := t1.s.file), t.m) && t1.s.file.Some?
    ensures var p := AcceptUpload(t1, size, a, h);
            Local(t.s, i, t.m, Going(if p.code == 0 then WithMode(p.t, Upload) else p.t))
  {
    var p := AcceptUpload(t1, size, a, h);
    FileIrrelevant(t.s, t1.s.file, i, t.m, Going(if p.code == 0 then WithMode(p.t, Upload) else p.t));
    AcceptConfined(t1, i, size, a, h, ls);
  }

  lemma ReceivePrepareConfined(t: Turn, i: int, line: string, a: Answers, h: Hash, ls: nat)
    requires SlotOk(t.s, i, t.m) && t.s.mode == Wait && MachineOk(t.m, ls)
    ensures var p := ReceivePrepare(t, line, a, h);
            Local(t.s, i, t.m, Going(if p.code == 0 then WithMode(p.t, Upload) else p.t))
  {
    match Commands.ParseUpload(line)
    case UploadRequest(name, size, perm) =>
      UploadRequestConfined(t, i, t.(s := t.s.(file := Some(NewFile(name, perm, a)))), size, a, h, ls);
    case _ =>
      ClearConfined(t, i);
  }

  // ----- description and login -----

  /** A complete upload has exactly the declared length: its record tells the truth. */
  lemma CompleteLength(s: Session, m: Machine)
    requires UploadOk(s, m) && s.mode == Description && Bounded(m)
    ensures |m.files[s.file.value.path]| == s.file.value.size
  {
  }

  lemma InsertConfined(t: Turn, i: int)
    requires SlotOk(t.s, i, t.m) && t.s.mode == Description && Bounded(t.m)
    ensures var r := RecordOf(t.s.file.value, t.s.uid);
            Local(t.s, i, t.m, Going(WithMode(ClearFile(t.(m := t.m.(records := t.m.records + [r]))), Wait)))
  {
    CompleteLength(t.s, t.m);
    var r := RecordOf(t.s.file.value, t.s.uid);
    assert RecordOk(r, t.m);
  }

  lemma SaveConfined(t: Turn, i: int, a: Answers)
    requires SlotOk(t.s, i, t.m) && t.s.mode == Description && Bounded(t.m)
    ensures Local(t.s, i, t.m, Going(Save(t, a)))
  {
    if a.saved.Inserted? {
      InsertConfined(t, i);
    } else {
      NothingAppended(t.s, t.m);
      DropConfined(t.s, i, t.m, t.m, []);
      assert a.saved.result != 0 ==> Local(t.s, i, t.m, Going(WithMode(ClearFile(t), Wait)));
    }
  }

  /** A new description or a shorter buffer means nothing to the machine. */
  lemma TextIrrelevant(t: Turn, s1: Session, i: int, after: After)
    requires s1 == t.s.(text := s1.text, file := s1.file)
    requires match (t.s.file, s1.file)
             case (Some(f), Some(f1)) => f1 == f.(description := f1.description)
             case (None, None) => true
             case _ => false
    requires SlotOk(t.s, i, t.m) && |s1.text| < INBUFSIZE
    ensures SlotOk(s1, i, t.m)
    ensures Local(s1, i, t.m, after) ==> Local(t.s, i, t.m, after)
  {
  }

  /** Doing nothing is confined. */
  lemma IdleConfined(s: Session, i: int, m: Machine)
    requires SlotOk(s, i, m) && Bounded(m)
    ensures Local(s, i, m, After(Some(s), m))
  {
  }

  lemma DescriptionConfined(t: Turn, i: int, line: string, a: Answers)
    requires SlotOk(t.s, i, t.m) && t.s.mode == Description && Bounded(t.m)
    ensures Local(t.s, i, t.m, Going(DescriptionTurn(t, line, a)))
  {
    var c := Collect(t.s.file.value.description, line, t.s.text);
    CollectShrinks(t.s.file.value.description, line, t.s.text);
    var s1 := t.s.(file := Some(t.s.file.value.(description := Some(c.description))), text := c.text);
    TextIrrelevant(t, s1, i, Going(Turn(s1, t.m)));
    if c.ended {
      SaveConfined(Turn(s1, t.m), i, a);
      TextIrrelevant(t, s1, i, Going(Save(Turn(s1, t.m), a)));
    } else {
      IdleConfined(s1, i, t.m);
    }
  }

  lemma NameConfined(t: Turn, i: int, s': Session)
    requires SlotOk(t.s, i, t.m) && !NeedsFile(t.s.mode) && Bounded(t.m)
    requires s' == t.s.(mode := s'.mode, leaving := s'.leaving, uname := s'.uname, uid := s'.uid) && !NeedsFile(s'.mode)
    ensures Local(t.s, i, t.m, After(Some(s'), t.m))
  {
  }

  // ----- dispatch -----

  lemma CommandConfined(t: Turn, i: int, line: string, a: Answers, h: Hash, ls: nat)
    requires SlotOk(t.s, i, t.m) && t.s.mode == Wait && MachineOk(t.m, ls)
    ensures Local(t.s, i, t.m, Going(ClientCommand(t, line, a, h)))
  {
    match Commands.ParseCommand(line, a.staleWords)
    case Upload => ReceivePrepareConfined(t, i, line, a, h, ls);
    case Download => SendPrepareConfined(t, i, line, a, ls);
    case Exit => NameConfined(t, i, t.s.(mode := Err, leaving := true));
    case _ => IdleConfined(t.s, i, t.m);
  }

  lemma LineConfined(t: Turn, i: int, line: string, a: Answers, h: Hash, ls: nat)
    requires SlotOk(t.s, i, t.m) && MachineOk(t.m, ls)
    ensures Sound(t.s)
    ensures Local(t.s, i, t.m, Going(LineTurn(t, line, a, h)))
  {
    match t.s.mode {
      case LoginUser => NameConfined(t, i, UserName(t.s, line, a));
      case LoginPassword => NameConfined(t, i, Login(t.s, a));
      case Wait =>
        CommandConfined(t, i, line, a, h, ls);
      case Description => DescriptionConfined(t, i, line, a);
      case Confirm => ConfirmConfined(t, i, line);
      case Upload => UploadConfined(t, i, a);
      case Download => DownloadConfined(t, i, a);
      case Err => IdleConfined(t.s, i, t.m);
    }
  }

  /** Closing the connection after a confined turn is confined. */
  lemma CloseConfined(s: Session, i: int, m: Machine, t1: Turn)
    requires SlotOk(s, i, m) && t1.s.sd == i && Touches(s, i, m, t1.m)
    requires t1.s.fd >= 0 && t1.s.fd != s.fd ==> t1.s.fd !in m.handles
    ensures Local(s, i, m, After(None, CloseSession(t1, i)))
  {
  }

  lemma RequestConfined(t: Turn, i: int, a: Answers, h: Hash, ls: nat)
    requires SlotOk(t.s, i, t.m) && MachineOk(t.m, ls)
    ensures Sound(t.s)
    ensures Local(t.s, i, t.m, RequestTurn(t, i, a, h))
  {
    var (s1, line) := ReadLine(t.s, a);
    ReadLeavesRoom(t.s, a);
    if line.None? {
      IdleConfined(t.s, i, t.m);
      CloseConfined(t.s, i, t.m, Turn(s1, t.m));
    } else {
      TextIrrelevant(t, s1, i, After(None, t.m));
      var t1 := LineTurn(Turn(s1, t.m), line.value, a, h);
      LineConfined(Turn(s1, t.m), i, line.value, a, h, ls);
      TextIrrelevant(t, s1, i, Going(t1));
      if t1.s.mode == Err {
        CloseConfined(t.s, i, t.m, t1);
      }
    }
  }

  lemma SlotTurnConfined(t: Turn, i: int, readable: set<int>, a: Answers, h: Hash, ls: nat)
    requires SlotOk(t.s, i, t.m) && MachineOk(t.m, ls)
    ensures Sound(t.s)
    ensures Local(t.s, i, t.m, SlotTurn(t, i, readable, a, h))
  {
    IdleConfined(t.s, i, t.m);
    if t.s.mode == Upload {
      UploadConfined(t, i, a);
    } else if t.s.mode == Download {
      DownloadConfined(t, i, a);
    } else if i in readable {
      RequestConfined(t, i, a, h, ls);
    }
  }

  // ----- the whole server -----

  lemma DispatchKeepsInv(w: World, i: nat, readable: set<int>, a: Answers, h: Hash)
    requires Inv(w) && i < MAX_CONNECTIONS
    ensures Shaped(w) && Inv(Dispatch(w, i, readable, a, h))
  {
    InvShaped(w);
    if w.slots[i].Some? {
      var t := Turn(w.slots[i].value, w.m);
      SlotTurnConfined(t, i, readable, a, h, w.ls);
      LocalKeepsInv(w, i, SlotTurn(t, i, readable, a, h));
    }
  }

  /** A number that `accept` returns names an empty slot. */
  lemma AcceptFillsEmptySlot(w: World, n: int)
    requires Inv(w) && Usable(w.m, n)
    ensures w.slots[n].None?
  {
    forall i | 0 <= i < |w.slots| && w.slots[i].Some?
      ensures i in w.m.handles
    {
      assert SlotOk(w.slots[i].value, i, w.m);
    }
  }

  lemma AcceptedSlotsOk(w: World, a: Answers, j: int)
    requires Inv(w) && Usable(w.m, a.newHandle) && 0 <= j < |w.slots| && Accept(w, a).slots[j].Some?
    ensures SlotOk(Accept(w, a).slots[j].value, j, Accept(w, a).m)
  {
    if j != a.newHandle {
      assert SlotOk(w.slots[j].value, j, w.m);
    }
  }

  lemma AcceptedSlotsApart(w: World, a: Answers, j: int, k: int)
    requires Inv(w) && Usable(w.m, a.newHandle) && 0 <= j < |w.slots| && 0 <= k < |w.slots| && j != k
    requires Accept(w, a).slots[j].Some? && Accept(w, a).slots[k].Some?
    ensures Apart(Accept(w, a).slots[j].value, Accept(w, a).slots[k].value, Accept(w, a).m)
  {
    if j != a.newHandle && k != a.newHandle {
      assert SlotOk(w.slots[j].value, j, w.m) && SlotOk(w.slots[k].value, k, w.m);
      assert Apart(w.slots[j].value, w.slots[k].value, w.m);
    }
  }

  lemma AcceptKeepsInv(w: World, a: Answers)
    requires Inv(w)
    ensures Inv(Accept(w, a))
  {
    var w' := Accept(w, a);
    if Usable(w.m, a.newHandle) {
      forall j | 0 <= j < |w'.slots| && w'.slots[j].Some?
        ensures SlotOk(w'.slots[j].value, j, w'.m)
      {
        AcceptedSlotsOk(w, a, j);
      }
      forall j, k | 0 <= j < |w'.slots| && 0 <= k < |w'.slots| && j != k && w'.slots[j].Some? && w'.slots[k].Some?
        ensures Apart(w'.slots[j].value, w'.slots[k].value, w'.m)
      {
        AcceptedSlotsApart(w, a, j, k);
      }
      assert forall r <- w.m.records :: RecordOk(r, w.m);
    }
  }

  lemma {:induction false} SweepKeepsInv(w: World, i: nat, readable: set<int>, turns: int -> Answers, h: Hash)
    requires Inv(w) && i <= MAX_CONNECTIONS
    ensures Shaped(w) && Inv(Sweep(w, i, readable, turns, h))
    decreases MAX_CONNECTIONS - i
  {
    InvShaped(w);
    if i < MAX_CONNECTIONS {
      DispatchKeepsInv(w, i, readable, turns(i), h);
      SweepKeepsInv(Dispatch(w, i, readable, turns(i), h), i + 1, readable, turns, h);
    }
  }

  lemma IterateKeepsInv(w: World, r: Round, h: Hash)
    requires Inv(w)
    ensures Shaped(w) && Inv(Iterate(w, r, h))
  {
    InvShaped(w);
    var readable := Watched(w) * r.ready;
    AcceptKeepsInv(w, r.arrival);
    SweepKeepsInv(Arrive(w, readable, r.arrival), 0, readable, r.turns, h);
  }

  /** The invariant holds after any number of iterations, whatever arrives and whoever is served. */
  lemma {:induction false} RunKeepsInv(w: World, rounds: seq<Round>, h: Hash)
    requires Inv(w)
    ensures Shaped(w) && Inv(Run(w, rounds, h))
    decreases |rounds|
  {
    InvShaped(w);
    if rounds != [] {
      IterateKeepsInv(w, rounds[0], h);
      RunKeepsInv(Iterate(w, rounds[0], h), rounds[1..], h);
    }
  }

  /** A server that has just started: an empty table, and a database whose records have their files. */
  function Started(m: Machine, ls: nat): World {
    World(seq(MAX_CONNECTIONS, _ => None), m, ls)
  }

  lemma StartedInv(m: Machine, ls: nat)
    requires MachineOk(m, ls)
    ensures Inv(Started(m, ls))
  {
  }
}
