/** What each handler does to one session and to the machine, as functions. */
module SessionSpec {
  import opened Prelude
  import opened Naming
  import opened Environment
  import Framing
  import Commands
  import LineBuffer

  /** The states a session can reach. */
  datatype Mode = LoginUser | LoginPassword | Wait | Upload | Description | Download | Confirm | Err

  datatype File = File(name: string, path: string, size: Size, rest: Size, packageRest: Size,
                       hash: Int32, description: Option<string>, permissions: int)

  datatype Session = Session(mode: Mode, leaving: bool, sd: int, fd: int, file: Option<File>, text: string,
                             uname: Option<string>, uid: Int32)

  /** A hash function of name and seed. */
  type Hash = (string, int) -> Int32

  predicate NeedsFile(mode: Mode) {
    mode in {Upload, Description, Download, Confirm}
  }

  /** The states that dereference `sess->file` have one. */
  predicate FileHeld(s: Session) {
    NeedsFile(s.mode) ==> s.file.Some?
  }

  /** The same client on the same socket, with the same text to be read. */
  predicate SameClient(s: Session, s': Session) {
    s'.text == s.text && s'.sd == s.sd && s'.uname == s.uname && s'.uid == s.uid
  }

  /** A new session; nobody sets its user number before a login does. */
  function NewSession(sd: int, uid: Int32): Session {
    Session(LoginUser, false, sd, -1, None, "", None, uid)
  }

  /** Session and machine together: what a handler works on. */
  datatype Turn = Turn(s: Session, m: Machine)

  /** `clear_file_from_sess` */
  function ClearFile(t: Turn): Turn {
    if t.s.file.None? then t
    else if t.s.fd > -1 then Turn(t.s.(file := None, fd := -1), CloseHandle(t.m, t.s.fd))
    else Turn(t.s.(file := None), t.m)
  }

  function WithMode(t: Turn, mode: Mode): Turn {
    t.(s := t.s.(mode := mode))
  }

  // ----- upload -----

  function WithCounters(s: Session, rest: Size, packageRest: Size): Session
    requires s.file.Some?
  {
    s.(file := Some(s.file.value.(rest := rest, packageRest := packageRest)))
  }

  /** The file is removed and the session waits for a command again. */
  function DropUpload(t: Turn): Turn
    requires t.s.file.Some?
  {
    WithMode(ClearFile(t.(m := Unlink(t.m, t.s.file.value.path))), Wait)
  }

  /** A failed write closes the descriptor first; `clear_file_from_sess` closes it again. */
  function FailUpload(t: Turn): Turn
    requires t.s.file.Some?
  {
    DropUpload(t.(m := CloseHandle(t.m, t.s.fd)))
  }

  function UploadRead(a: Answers): Framing.Read {
    Framing.Read(Take(a.data, INBUFSIZE), a.beyond)
  }

  /** The counters after a read, and the change of state once nothing is missing. */
  function Settle(t: Turn, rest: Size, packageRest: Size): Turn
    requires t.s.file.Some?
  {
    var s' := WithCounters(t.s, rest, packageRest);
    t.(s := if rest == 0 then s'.(mode := Description) else s')
  }

  /** The part of `file_upload` that follows the end of a package: a descriptor is due. */
  function AtDescriptor(t: Turn, r: Framing.Read, a: Answers): Turn
    requires t.s.file.Some? && t.s.file.value.packageRest < |r.chunk|
  {
    var rest, packageRest := t.s.file.value.rest, t.s.file.value.packageRest;
    var d := Framing.ParseDescriptor(Framing.Peek(r, packageRest));
    match d.signal
    case Continue => NewPackage(t, r, d.packageSize, a)
    case Cancel => DropUpload(t)
    case _ => Settle(t, rest, packageRest)
  }

  /** A new package of the given size: what the read holds of it goes to the file. */
  function NewPackage(t: Turn, r: Framing.Read, size: Size, a: Answers): Turn
    requires t.s.file.Some? && t.s.file.value.packageRest < |r.chunk|
  {
    var rest, from := t.s.file.value.rest, t.s.file.value.packageRest + Framing.DESCRIPTOR_SIZE;
    var left := |r.chunk| - from;
    if left > 0 then
      var len := Min(left, rest);
      var m2 := WriteFile(t.m, t.s.fd, r.chunk[from..from + len], a.secondWrite);
      if m2.None? then FailUpload(t) else Settle(t.(m := m2.value), rest - len, ToSize(size - len))
    else Settle(t, rest, ToSize(size - left))
  }

  /** A read that does not leave the package at hand. */
  function WithinPackage(t: Turn, r: Framing.Read, a: Answers): Turn
    requires t.s.file.Some? && t.s.file.value.packageRest >= |r.chunk|
  {
    var f := t.s.file.value;
    var m1 := WriteFile(t.m, t.s.fd, r.chunk, a.firstWrite);
    if m1.None? then FailUpload(t)
    else Settle(t.(m := m1.value), ToSize(f.rest - |r.chunk|), f.packageRest - |r.chunk|)
  }

  /** The package at hand has been written: either the file is complete, or a descriptor is due. */
  function EndPackage(t: Turn, r: Framing.Read, a: Answers): Turn
    requires t.s.file.Some? && t.s.file.value.packageRest < |r.chunk|
  {
    var f := t.s.file.value;
    var rest := ToSize(f.rest - f.packageRest);
    if rest == 0 then Settle(t, 0, f.packageRest)
    else AtDescriptor(Turn(WithCounters(t.s, rest, f.packageRest), t.m), r, a)
  }

  /** A read that holds more than the package at hand. */
  function AcrossPackage(t: Turn, r: Framing.Read, a: Answers): Turn
    requires t.s.file.Some? && t.s.file.value.packageRest < |r.chunk|
  {
    var m1 := WriteFile(t.m, t.s.fd, r.chunk[..t.s.file.value.packageRest], a.firstWrite);
    if m1.None? then FailUpload(t) else EndPackage(t.(m := m1.value), r, a)
  }

  /** `file_upload` */
  function FileUpload(t: Turn, a: Answers): Turn
    requires t.s.file.Some?
  {
    var r := UploadRead(a);
    if r.chunk == [] then
      if t.s.file.value.rest != 0 then DropUpload(t) else WithMode(t, Wait)
    else if t.s.file.value.packageRest < |r.chunk| then AcrossPackage(t, r, a)
    else WithinPackage(t, r, a)
  }

  /** The writes a verdict asks for. */
  function WriteAll(m: Machine, fd: int, v: Framing.Verdict, a: Answers): Option<Machine> {
    var m1 := WriteFile(m, fd, v.first, a.firstWrite);
    if m1.None? || v.second.None? then m1 else WriteFile(m1.value, fd, v.second.value, a.secondWrite)
  }

  /** The turn that a verdict leads to. */
  function Obey(t: Turn, v: Framing.Verdict, a: Answers): Turn
    requires t.s.file.Some?
  {
    var m1 := WriteFile(t.m, t.s.fd, v.first, a.firstWrite);
    var m2 := WriteAll(t.m, t.s.fd, v, a);
    if m1.None? then FailUpload(t)
    else if v.cancelled then DropUpload(t.(m := m1.value))
    else if m2.None? then FailUpload(t.(m := m1.value))
    else Settle(t.(m := m2.value), v.rest, v.packageRest)
  }

  /** The counters before it make no difference to what happens to an upload next. */
  lemma CountersVanish(s: Session, m: Machine, rest: Size, packageRest: Size)
    requires s.file.Some?
    ensures DropUpload(Turn(WithCounters(s, rest, packageRest), m)) == DropUpload(Turn(s, m))
    ensures FailUpload(Turn(WithCounters(s, rest, packageRest), m)) == FailUpload(Turn(s, m))
  {
  }

  lemma CountersOverwritten(s: Session, m: Machine, rest: Size, packageRest: Size, rest': Size, packageRest': Size)
    requires s.file.Some?
    ensures Settle(Turn(WithCounters(s, rest, packageRest), m), rest', packageRest')
            == Settle(Turn(s, m), rest', packageRest')
  {
  }

  /** The turn that a verdict leads to once its first write has succeeded. */
  function ObeyRest(t: Turn, v: Framing.Verdict, a: Answers): Turn
    requires t.s.file.Some?
  {
    if v.cancelled then DropUpload(t)
    else if v.second.None? then Settle(t, v.rest, v.packageRest)
    else
      var m2 := WriteFile(t.m, t.s.fd, v.second.value, a.secondWrite);
      if m2.None? then FailUpload(t) else Settle(t.(m := m2.value), v.rest, v.packageRest)
  }

  lemma ObeyInParts(t: Turn, v: Framing.Verdict, a: Answers)
    requires t.s.file.Some?
    ensures var m1 := WriteFile(t.m, t.s.fd, v.first, a.firstWrite);
            Obey(t, v, a) == if m1.None? then FailUpload(t) else ObeyRest(t.(m := m1.value), v, a)
  {
  }

  lemma DescriptorVerdict(s: Session, m1: Machine, r: Framing.Read, a: Answers)
    requires s.file.Some? && s.file.value.packageRest < |r.chunk|
    requires ToSize(s.file.value.rest - s.file.value.packageRest) != 0
    ensures var f := s.file.value;
            AtDescriptor(Turn(WithCounters(s, ToSize(f.rest - f.packageRest), f.packageRest), m1), r, a)
            == ObeyRest(Turn(s, m1), Framing.Deframe(f.rest, f.packageRest, r), a)
  {
    var rest, packageRest := ToSize(s.file.value.rest - s.file.value.packageRest), s.file.value.packageRest;
    var v := Framing.Deframe(s.file.value.rest, packageRest, r);
    CountersVanish(s, m1, rest, packageRest);
    CountersOverwritten(s, m1, rest, packageRest, v.rest, v.packageRest);
    if v.second.Some? {
      var m2 := WriteFile(m1, s.fd, v.second.value, a.secondWrite);
      if m2.Some? {
        CountersOverwritten(s, m2.value, rest, packageRest, v.rest, v.packageRest);
      }
    }
  }

  /** `file_upload` carries out what `Deframe` decides, unless a write fails. */
  lemma UploadObeysVerdict(t: Turn, a: Answers)
    requires t.s.file.Some? && UploadRead(a).chunk != []
    ensures FileUpload(t, a)
            == Obey(t, Framing.Deframe(t.s.file.value.rest, t.s.file.value.packageRest, UploadRead(a)), a)
  {
    var f, r := t.s.file.value, UploadRead(a);
    ObeyInParts(t, Framing.Deframe(f.rest, f.packageRest, r), a);
    if f.packageRest < |r.chunk| {
      var m1 := WriteFile(t.m, t.s.fd, r.chunk[..f.packageRest], a.firstWrite);
      if m1.Some? && ToSize(f.rest - f.packageRest) != 0 {
        DescriptorVerdict(t.s, m1.value, r, a);
      }
    }
  }

  // ----- download -----

  /** How many bytes `file_download` asks the file for. */
  function Wanted(rest: Size, packageRest: Size): nat {
    if packageRest < INBUFSIZE then packageRest else if rest < INBUFSIZE then rest else INBUFSIZE
  }

  /** `file_download` */
  function FileDownload(t: Turn, a: Answers): Turn
    requires t.s.file.Some?
  {
    var f := t.s.file.value;
    if f.packageRest == 0 then WithMode(t, Confirm)
    else
      var data := FileData(t.m, t.s.fd, Wanted(f.rest, f.packageRest), a.short);
      if data == [] then
        WithMode(if f.rest != 0 then ClearFile(t) else t, Wait)
      else
        Deliver(t.(m := SkipFile(t.m, t.s.fd, |data|)), data, a.firstWrite)
  }

  /** The second half of `file_download`: send what was read and count it. */
  function Deliver(t: Turn, data: Bytes, sent: bool): Turn
    requires t.s.file.Some?
  {
    if !sent then ClearFile(WithMode(t, Err))
    else
      var f := t.s.file.value;
      var rest, packageRest := ToSize(f.rest - |data|), ToSize(f.packageRest - |data|);
      var t1 := Turn(WithCounters(t.s, rest, packageRest), Send(t.m, t.s.sd, data));
      if rest == 0 then WithMode(ClearFile(t1), Wait)
      else if packageRest == 0 then WithMode(t1, Confirm)
      else t1
  }

  /** Exactly what sending data within both counters does. */
  lemma DeliverResult(t: Turn, data: Bytes)
    requires t.s.file.Some? && t.s.fd >= 0
    requires 0 < |data| <= t.s.file.value.rest && |data| <= t.s.file.value.packageRest
    ensures var f, n, m1 := t.s.file.value, |data|, Send(t.m, t.s.sd, data);
            Deliver(t, data, true) ==
              if n == f.rest then Turn(t.s.(file := None, fd := -1, mode := Wait), CloseHandle(m1, t.s.fd))
              else Turn(WithCounters(t.s, f.rest - n, f.packageRest - n)
                        .(mode := if n == f.packageRest then Confirm else t.s.mode), m1)
  {
    CounterFits(t.s.file.value.rest - |data|);
    CounterFits(t.s.file.value.packageRest - |data|);
  }

  /** `download_confirm` */
  function DownloadConfirm(t: Turn, line: string): Turn
    requires t.s.file.Some?
  {
    match Commands.ParseConfirmation(line)
    case Continue(credit) => WithMode(t.(s := WithCounters(t.s, t.s.file.value.rest, credit)), Download)
    case Cancel => WithMode(ClearFile(t), Wait)
    case Noise => t
  }

  /** The result code of a preparation beside its effect; 0 lets the caller start the transfer. */
  datatype Prepared = Prepared(t: Turn, code: int)

  /** `file_send_prepare` */
  function SendPrepare(t: Turn, line: string, a: Answers): (p: Prepared)
    ensures SameClient(t.s, p.t.s) && p.t.s.mode == t.s.mode
    ensures p.code == 0 ==> p.t.s.file.Some?
  {
    match Commands.ParseDownload(line)
    case NoOpeningBracket => Prepared(ClearFile(t), -4)
    case NoClosingBracket => Prepared(ClearFile(t), -5)
    case EmptyName => Prepared(ClearFile(t), -6)
    case Malformed => Prepared(t, -7)
    case DownloadRequest(name) =>
      if !(a.found < |t.m.records| && t.m.records[a.found].name == name) then
        Prepared(t.(s := t.s.(file := None)), -1)
      else
        OpenRecorded(t.(s := t.s.(file := Some(FileOfRecord(t.m.records[a.found])))), a)
  }

  /** Open the file of the record at hand and compare its length with the recorded one. */
  function OpenRecorded(t: Turn, a: Answers): (p: Prepared)
    requires t.s.file.Some?
    ensures SameClient(t.s, p.t.s) && p.t.s.mode == t.s.mode && p.t.s.file.Some?
  {
    var path := t.s.file.value.path;
    if a.openRefused || !t.m.atRoot || path !in t.m.files || !Usable(t.m, a.newHandle) then Prepared(t, -2)
    else
      var m1 := t.m.(handles := t.m.handles[a.newHandle := OpenFile(path, 0)]);
      var length := ToSize(|t.m.files[path]|);
      if t.s.file.value.size != length then Prepared(Turn(t.s, m1), -3)
      else Prepared(Turn(WithCounters(t.s, length, PACKAGE_SIZE).(fd := a.newHandle), m1), 0)
  }

  /** What `db_get_file` makes of a record, with the path its hash leads to. */
  function FileOfRecord(r: Record): File {
    File(r.name, PathOf(r.hash), r.size, r.size, 0, r.hash, Some(r.description), r.permissions)
  }

  // ----- accepting an upload -----

  datatype Probe = Created(m: Machine, hash: Int32) | Refused(m: Machine, code: int)

  /** The probing loop of `file_receive_prepare` from `seed` on. */
  function ProbeFrom(m: Machine, h: Hash, name: string, a: Answers, seed: int): (p: Probe)
    ensures p.Refused? ==> p.code in {-3, -4}
    decreases INT_MAX + 1 - seed
  {
    if seed > INT_MAX then Refused(m, -3)
    else
      var hash := h(name, seed);
      if DirOf(hash) !in m.dirs && seed in a.mkdirRefused then Refused(m.(atRoot := false), -4)
      else
        var m1 := m.(dirs := m.dirs + {DirOf(hash)}, atRoot := true);
        if seed in a.createRefused || !Usable(m1, a.newHandle) then Refused(m1, -3)
        else if PathOf(hash) in m1.files then ProbeFrom(m1, h, name, a, seed + 1)
        else Created(m1.(files := m1.files[PathOf(hash) := []],
                         handles := m1.handles[a.newHandle := OpenFile(PathOf(hash), 0)]), hash)
  }

  function PermissionsOf(perm: Option<Int32>, a: Answers): int {
    var p: int := if perm.Some? then perm.value else a.stalePerm;
    (p + 128) % 256 - 128
  }

  /** `file_receive_prepare` */
  function ReceivePrepare(t: Turn, line: string, a: Answers, h: Hash): (p: Prepared)
    ensures SameClient(t.s, p.t.s) && p.t.s.mode in {t.s.mode, Wait}
    ensures p.code == 0 ==> p.t.s.file.Some?
  {
    match Commands.ParseUpload(line)
    case NoOpeningQuote => Prepared(ClearFile(t), -5)
    case NoClosingQuote => Prepared(ClearFile(t), -6)
    case NoName => Prepared(ClearFile(t), -7)
    case UploadRequest(name, size, perm) =>
      AcceptUpload(t.(s := t.s.(file := Some(NewFile(name, perm, a)))), size, a, h)
  }

  function NewFile(name: string, perm: Option<Int32>, a: Answers): File {
    File(name, "", 0, 0, 0, 0, None, PermissionsOf(perm, a))
  }

  /** The checks and the creation of the file, once the request has been read. */
  function AcceptUpload(t: Turn, size: Size, a: Answers, h: Hash): (p: Prepared)
    requires t.s.file.Some?
    ensures SameClient(t.s, p.t.s) && p.t.s.mode in {t.s.mode, Wait}
    ensures p.code == 0 ==> p.t.s.file.Some?
  {
    var f := t.s.file.value;
    if |f.name| > a.nameMax then Prepared(ClearFile(WithMode(t, Wait)), -1)
    else if size > a.space then Prepared(ClearFile(t), -2)
    else
      match ProbeFrom(t.m, h, f.name, a, FILE_HASH_SEED)
      case Refused(m1, code) => Prepared(ClearFile(t.(m := m1)), code)
      case Created(m1, hash) =>
        var f1 := f.(path := PathOf(hash), hash := hash, size := size, rest := size);
        Prepared(Turn(t.s.(file := Some(f1), fd := a.newHandle), m1), 0)
  }

  // ----- description -----

  datatype Collected = Collected(description: string, text: string, ended: bool)

  predicate MarkerAt(line: string, i: nat) {
    i + 5 <= |line| && line[i..i + 5] == ":END:"
  }

  predicate EndsDescription(line: string) {
    exists i | 0 <= i <= |line| - 5 :: MarkerAt(line, i)
  }

  /** The terminator written six characters before the end of the description. */
  function CutEnd(d: string): string {
    if |d| >= 6 then d[..|d| - 6] else d
  }

  /** `file_upload_description`: append the line, and then every line the buffer holds up to the final one. */
  function Collect(description: Option<string>, line: string, text: string): Collected
    decreases |text|
  {
    var d := (if description.Some? then description.value else "") + line;
    if EndsDescription(line) then Collected(CutEnd(d), text, true)
    else if text == "" then Collected(d, "", false)
    else Collect(Some(d), LineBuffer.LineOf(text), LineBuffer.Rest(text))
  }

  function RecordOf(f: File, uid: Int32): Record {
    Record(f.name, f.size, f.hash, if f.description.Some? then f.description.value else "", f.permissions, uid)
  }

  /** The save step of the `OP_UPLOAD_DESCRIPTION` arm: any result but 0 counts as saved. */
  function Save(t: Turn, a: Answers): Turn
    requires t.s.file.Some?
  {
    var f := t.s.file.value;
    var m1 := match a.saved
      case Inserted(_) => t.m.(records := t.m.records + [RecordOf(f, t.s.uid)])
      case NotInserted(result) => if result != 0 then t.m else Unlink(t.m, f.path);
    WithMode(ClearFile(t.(m := m1)), Wait)
  }

  /** The `OP_UPLOAD_DESCRIPTION` arm of `perform_session_action` */
  function DescriptionTurn(t: Turn, line: string, a: Answers): Turn
    requires t.s.file.Some?
  {
    var c := Collect(t.s.file.value.description, line, t.s.text);
    var f := t.s.file.value.(description := Some(c.description));
    var t1 := t.(s := t.s.(file := Some(f), text := c.text));
    if c.ended then Save(t1, a) else t1
  }

  // ----- login -----

  predicate Registers(line: string) {
    Commands.StartsWith(line, "register")
  }

  /** The three words of a registration. */
  function RegisteredName(line: string): Option<string>
    requires Registers(line)
  {
    var w1 := Commands.ScanWord(line[8..]);
    if w1.Missing? then None
    else
      var w2 := Commands.ScanWord(w1.tail);
      if w2.Missing? || Commands.ScanWord(w2.tail).Missing? then None else Some(w1.value)
  }

  /** `process_user_name` and `create_user` */
  function UserName(s: Session, line: string, a: Answers): Session {
    if line == "exit" then s.(mode := Err, leaving := true)
    else if Registers(line) then
      var name := RegisteredName(line);
      if name.Some? && a.userId > 0 then s.(mode := Wait, uname := name, uid := a.userId) else s
    else if line == "anonymous" then s.(mode := Wait, uname := Some("anonymous"))
    else s.(mode := LoginPassword, uname := Some(line))
  }

  /** `login` */
  function Login(s: Session, a: Answers): Session {
    if a.userId != 0 then s.(mode := Wait, uid := a.userId) else s.(mode := LoginUser)
  }

  /** `process_client_command` */
  function ClientCommand(t: Turn, line: string, a: Answers, h: Hash): (t': Turn)
    ensures SameClient(t.s, t'.s)
    ensures t.s.mode == Wait ==> FileHeld(t'.s)
  {
    match Commands.ParseCommand(line, a.staleWords)
    case Upload =>
      var p := ReceivePrepare(t, line, a, h);
      if p.code == 0 then WithMode(p.t, Mode.Upload) else p.t
    case Download =>
      var p := SendPrepare(t, line, a);
      if p.code == 0 then WithMode(p.t, Mode.Download) else p.t
    case Exit => t.(s := t.s.(mode := Err, leaving := true))
    case _ => t
  }

  // ----- dispatch -----

  /** `perform_session_action` without a line: only the transfer states act. */
  function TransferTurn(t: Turn, a: Answers): Turn
    requires FileHeld(t.s)
  {
    match t.s.mode
    case Upload => FileUpload(t, a)
    case Download => FileDownload(t, a)
    case _ => t
  }

  /** `perform_session_action` with a line */
  function LineTurn(t: Turn, line: string, a: Answers, h: Hash): Turn
    requires FileHeld(t.s)
  {
    match t.s.mode
    case LoginUser => t.(s := UserName(t.s, line, a))
    case LoginPassword => t.(s := Login(t.s, a))
    case Wait => ClientCommand(t, line, a, h)
    case Description => DescriptionTurn(t, line, a)
    case Confirm => DownloadConfirm(t, line)
    case _ => TransferTurn(t, a)
  }

  /** `session_do_read`: the line, if the read brought any text. */
  function ReadLine(s: Session, a: Answers): (Session, Option<string>)
    requires |s.text| <= INBUFSIZE
  {
    var got := LineBuffer.Fits(s.text, a.text);
    if got == "" then (s.(mode := Err), None)
    else
      var text := s.text + got;
      (s.(text := LineBuffer.Rest(text)), Some(LineBuffer.LineOf(text)))
  }

  /** All of a text that fits into an empty buffer is read. */
  lemma AllOfItFits(s: Session, a: Answers)
    requires s.text == "" && 0 < |a.text| <= INBUFSIZE
    ensures ReadLine(s, a) == (s.(text := LineBuffer.Rest(a.text)), Some(LineBuffer.LineOf(a.text)))
  {
    assert "" + a.text == a.text;
  }

  /** `close_session` on slot `i` */
  function CloseSession(t: Turn, i: int): Machine {
    var m := CloseHandle(ClearFile(t).m, i);
    m.(wire := map k | k in m.wire && k != i :: m.wire[k])
  }

  /** The outcome of a turn; no session is left if it was closed. */
  datatype After = After(s: Option<Session>, m: Machine)

  function Going(t: Turn): After {
    After(Some(t.s), t.m)
  }

  /** The share of slot `i` in one iteration of the main loop. */
  function SlotTurn(t: Turn, i: int, readable: set<int>, a: Answers, h: Hash): After
    requires FileHeld(t.s) && |t.s.text| <= INBUFSIZE
  {
    if t.s.mode == Upload || t.s.mode == Download then
      if t.s.fd > -1 && t.s.fd in readable then Going(TransferTurn(t, a)) else Going(t)
    else if i in readable then RequestTurn(t, i, a, h)
    else Going(t)
  }

  /** Read a line and act on it, or close the connection. */
  function RequestTurn(t: Turn, i: int, a: Answers, h: Hash): After
    requires FileHeld(t.s) && |t.s.text| <= INBUFSIZE
  {
    var (s1, line) := ReadLine(t.s, a);
    if line.None? then After(None, CloseSession(Turn(s1, t.m), i))
    else
      Conclude(LineTurn(Turn(s1, t.m), line.value, a, h), i)
  }

  /** A session in the error state is closed. */
  function Conclude(t: Turn, i: int): After {
    if t.s.mode == Err then After(None, CloseSession(t, i)) else Going(t)
  }
}
