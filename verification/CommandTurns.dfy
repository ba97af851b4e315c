/** What each line of a client does: commands, confirmations, and the end of a connection. */
module CommandTurns {
  import opened Prelude
  import opened Naming
  import opened Environment
  import opened SessionSpec
  import opened ServerSpec
  import opened Invariant
  import opened Confinement
  import opened Directories
  import opened Acceptance
  import opened Uploads
  import opened Aborts
  import opened Lifecycles
  import Commands
  import Downloads
  import Isolation
  import LineBuffer
  import Requests

  /** The turn reads `line` and leaves `rest` in the buffer. */
  predicate Reads(s: Session, a: Answers, line: string, rest: string)
    requires Sound(s)
  {
    ReadLine(s, a) == (s.(text := rest), Some(line))
  }

  // ----- closing -----

  /** What a connection in slot `i` and its session have open is closed. */
  ghost predicate Closed(t: Turn, i: int, after: After) {
    && after.s == None
    && after.m.handles == t.m.handles - {i} - (if t.s.file.Some? && t.s.fd > -1 then {t.s.fd} else {})
    && after.m.wire == t.m.wire - {i}
    && after.m.files == t.m.files && after.m.records == t.m.records
  }

  lemma CloseCloses(t: Turn, i: int)
    ensures Closed(t, i, After(None, CloseSession(t, i)))
  {
    var m1 := ClearFile(t).m;
    assert m1.handles == t.m.handles - (if t.s.file.Some? && t.s.fd > -1 then {t.s.fd} else {});
    assert CloseSession(t, i).handles == m1.handles - {i};
    assert CloseSession(t, i).wire == t.m.wire - {i};
  }

  /** A session that finds its stream at an end is closed, whatever its state, unless it is in a transfer. */
  lemma EndOfStreamCloses(t: Turn, i: int, readable: set<int>, a: Answers, h: Hash)
    requires Sound(t.s) && t.s.mode != Upload && t.s.mode != Download && i in readable && a.text == ""
    ensures Closed(t, i, SlotTurn(t, i, readable, a, h))
  {
    CloseCloses(t.(s := t.s.(mode := Err)), i);
  }

  /** So is one that a failed send has left in the error state, as soon as its socket is readable. */
  lemma ErrorCloses(t: Turn, i: int, readable: set<int>, a: Answers, h: Hash)
    requires Sound(t.s) && t.s.mode == Err && i in readable
    ensures Closed(t, i, SlotTurn(t, i, readable, a, h))
  {
    var s1 := ReadLine(t.s, a).0;
    CloseCloses(Turn(s1, t.m), i);
  }

  // ----- commands -----

  /** Turns in the waiting state are commands. */
  lemma CommandTurn(t: Turn, i: int, a: Answers, h: Hash, line: string, rest: string)
    requires Sound(t.s) && t.s.mode == Wait && Reads(t.s, a, line, rest)
    ensures var t1 := ClientCommand(t.(s := t.s.(text := rest)), line, a, h);
            RequestTurn(t, i, a, h) == if t1.s.mode == Err then After(None, CloseSession(t1, i)) else Going(t1)
  {
  }

  /** A download request is granted: its name is recorded, and the file can be opened. */
  predicate Grantable(m: Machine, line: string, a: Answers) {
    && Commands.ParseDownload(line).DownloadRequest?
    && a.found < |m.records| && m.records[a.found].name == Commands.ParseDownload(line).name
    && m.atRoot && !a.openRefused && Usable(m, a.newHandle)
  }

  /** No stored file looks damaged. */
  lemma NeverDamaged(t: Turn, line: string, a: Answers, ls: nat)
    requires MachineOk(t.m, ls)
    ensures SendPrepare(t, line, a).code != -3
  {
    match Commands.ParseDownload(line)
    case DownloadRequest(name) =>
      if a.found < |t.m.records| && t.m.records[a.found].name == name {
        Isolation.SavedFileOpens(t, line, a, ls, name);
      }
    case _ =>
  }

  lemma GrantedIff(t: Turn, line: string, a: Answers, ls: nat)
    requires MachineOk(t.m, ls)
    ensures var p := SendPrepare(t, line, a);
            && (p.code == 0 <==> Grantable(t.m, line, a))
            && p.t.m.files == t.m.files && p.t.m.wire == t.m.wire && p.t.m.records == t.m.records
  {
    match Commands.ParseDownload(line)
    case DownloadRequest(name) =>
      if a.found < |t.m.records| && t.m.records[a.found].name == name {
        Isolation.SavedFileOpens(t, line, a, ls, name);
      }
    case _ =>
  }

  /** What a refused download request leaves: brackets that hold no name make the session let go of its file; an unknown
      name leaves it without one; a file that cannot be opened stays in hand unopened. Nothing else changes. */
  lemma RefusedDownload(t: Turn, line: string, a: Answers, ls: nat)
    requires MachineOk(t.m, ls) && !Grantable(t.m, line, a)
    ensures var t', r := SendPrepare(t, line, a).t, Commands.ParseDownload(line);
            if r.NoOpeningBracket? || r.NoClosingBracket? || r.EmptyName? then LetsGo(t, t', t.s.file.Some?)
            else if r.Malformed? then t' == t
            else if a.found < |t.m.records| && t.m.records[a.found].name == r.name then
              t' == t.(s := t.s.(file := Some(FileOfRecord(t.m.records[a.found]))))
            else t' == t.(s := t.s.(file := None))
  {
    ClearLetsGo(t);
    GrantedIff(t, line, a, ls);
    NeverDamaged(t, line, a, ls);
  }

  /** Which state each command leads to: an upload request to the upload state exactly if it is acceptable, a download
      request to the download state exactly if it is grantable, the bare "exit" to the error state, and everything else
      leaves the session waiting. */
  lemma CommandLeadsTo(t: Turn, line: string, a: Answers, h: Hash, ls: nat)
    requires t.s.mode == Wait && MachineOk(t.m, ls)
    ensures var c, mode := Commands.ParseCommand(line, a.staleWords), ClientCommand(t, line, a, h).s.mode;
            && (mode == Upload <==> c == Commands.Command.Upload && Acceptable(t.m, line, a, h))
            && (mode == Download <==> c == Commands.Command.Download && Grantable(t.m, line, a))
            && (mode == Err <==> line == "exit")
            && mode in {Upload, Download, Err, Wait}
  {
    Commands.ExitNeedsBareLine(line, a.staleWords);
    RequestAcceptedIff(t, line, a, h);
    GrantedIff(t, line, a, ls);
  }

  /** What a download request does to a waiting session and its machine. */
  ghost predicate Answered(t: Turn, i: nat, line: string, a: Answers, t1: Turn) {
    if Grantable(t.m, line, a) then Downloads.Granting(t, line, a, t1, i)
    else t1.s.mode == Wait && t1.m.files == t.m.files && t1.m.wire == t.m.wire
  }

  lemma DownloadAnswered(t: Turn, i: nat, line: string, a: Answers, h: Hash, ls: nat)
    requires SlotOk(t.s, i, t.m) && t.s.mode == Wait && MachineOk(t.m, ls)
    requires Commands.ParseCommand(line, a.staleWords) == Commands.Command.Download
    ensures Answered(t, i, line, a, ClientCommand(t, line, a, h))
  {
    GrantedIff(t, line, a, ls);
    if Grantable(t.m, line, a) {
      Downloads.DownloadStarts(t, i, line, a, ls);
    }
  }

  /** A client that types a download request for a recorded name is served exactly if the file can be opened: then the
      session sends that file from its start with the first package as credit; otherwise it waits on. */
  lemma TypedDownload(t: Turn, i: nat, a: Answers, h: Hash, ls: nat, name: string)
    requires SlotOk(t.s, i, t.m) && Sound(t.s) && t.s.mode == Wait && MachineOk(t.m, ls)
    requires t.s.text == "" && a.text == Commands.PrintDownload(name, "\n") && |a.text| <= INBUFSIZE
    requires Requests.Speakable(name) && |name| <= Commands.NAME_LIMIT
    requires a.found < |t.m.records| && t.m.records[a.found].name == name
    ensures var after := RequestTurn(t, i, a, h);
            && after.s.Some? && Answered(t, i, a.text, a, Turn(after.s.value, after.m))
            && (Grantable(t.m, a.text, a) <==> t.m.atRoot && !a.openRefused && Usable(t.m, a.newHandle))
  {
    assert a.text + "" == a.text;
    Requests.DownloadRequestArrives(t.s, a, name, "");
    assert t.s.(text := "") == t.s;
    CommandTurn(t, i, a, h, a.text, "");
    DownloadAnswered(t, i, a.text, a, h, ls);
    assert a.text != "exit" by {
      Commands.ExitNeedsBareLine(a.text, a.staleWords);
    }
    CommandLeadsTo(t, a.text, a, h, ls);
  }

  lemma UploadAnswered(t: Turn, line: string, a: Answers, h: Hash)
    requires t.s.mode == Wait && Commands.ParseCommand(line, a.staleWords) == Commands.Command.Upload
    ensures var t1, r := ClientCommand(t, line, a, h), Commands.ParseUpload(line);
            if Acceptable(t.m, line, a, h) then
              t1.s.mode == Upload && r.UploadRequest? && Accepted(t, r.name, r.size, r.perm, a, t1)
            else
              t1.s.mode == Wait && t1.m.files == t.m.files && LetsGo(t, t1, t.s.file.Some? || r.UploadRequest?)
  {
    ReceiveResult(t, line, a, h);
    RequestAcceptedIff(t, line, a, h);
  }

  /** A client that types an upload request may send its file exactly if the name is short enough, there is space and
      the probing loop finds a free seed: then an empty file of that name, size and permissions is its own; otherwise
      the session waits on, with nothing new stored and nothing open. */
  lemma TypedUpload(t: Turn, i: int, a: Answers, h: Hash, name: string, size: nat, perm: nat)
    requires Sound(t.s) && t.s.mode == Wait && TypesUpload(t.s, a, name, size, perm)
    ensures var after := RequestTurn(t, i, a, h);
            && after.s.Some?
            && var t1 := Turn(after.s.value, after.m);
            if |name| <= a.nameMax && size <= a.space && FindsFree(t.m, h, name, a, FILE_HASH_SEED) then
              t1.s.mode == Upload && Accepted(t, name, size, Some(perm), a, t1)
            else
              t1.s.mode == Wait && t1.m.files == t.m.files && LetsGo(t, t1, true)
  {
    assert a.text + "" == a.text;
    Requests.UploadRequestArrives(t.s, a, name, size, perm, "");
    assert t.s.(text := "") == t.s;
    CommandTurn(t, i, a, h, a.text, "");
    UploadAnswered(t, a.text, a, h);
  }

  lemma ExitErrs(t: Turn, i: int, a: Answers, h: Hash, rest: string)
    requires Sound(t.s) && (t.s.mode == Wait || t.s.mode == LoginUser) && Reads(t.s, a, "exit", rest)
    ensures RequestTurn(t, i, a, h)
            == After(None, CloseSession(t.(s := t.s.(text := rest, mode := Err, leaving := true)), i))
  {
    Commands.ExitNeedsBareLine("exit", a.staleWords);
  }

  /** The bare "exit" closes the connection of a waiting session or one that has not said its name yet. */
  lemma ExitCloses(t: Turn, i: int, a: Answers, h: Hash, rest: string)
    requires Sound(t.s) && (t.s.mode == Wait || t.s.mode == LoginUser) && Reads(t.s, a, "exit", rest)
    ensures Closed(t, i, RequestTurn(t, i, a, h))
  {
    ExitErrs(t, i, a, h, rest);
    CloseCloses(t.(s := t.s.(text := rest, mode := Err, leaving := true)), i);
  }

  /** A line that is none of these commands changes nothing. */
  lemma OtherCommandsChangeNothing(t: Turn, i: int, a: Answers, h: Hash, line: string, rest: string)
    requires Sound(t.s) && t.s.mode == Wait && Reads(t.s, a, line, rest) && line != "exit"
    requires Commands.ParseCommand(line, a.staleWords) != Commands.Command.Upload
    requires Commands.ParseCommand(line, a.staleWords) != Commands.Command.Download
    ensures RequestTurn(t, i, a, h) == Going(t.(s := t.s.(text := rest)))
  {
    Commands.ExitNeedsBareLine(line, a.staleWords);
    CommandTurn(t, i, a, h, line, rest);
  }

  // ----- confirmations -----

  /** What the line of a client that has to confirm does: "continue" grants the number behind it, or PACKAGE_SIZE if
      there is none, and the download goes on; "cancel" gives it up and closes its file; anything else changes nothing.
      */
  ghost predicate Confirmed(t: Turn, line: string, t': Turn)
    requires t.s.file.Some?
  {
    if |line| >= 8 && line[..8] == "continue" then
      var n, f := Commands.ScanInt(line[8..]), t.s.file.value;
      t' == Turn(t.s.(mode := Download,
                      file := Some(f.(packageRest := if n.Scanned? then ToSize(ToInt32(n.value)) else PACKAGE_SIZE))),
                 t.m)
    else if |line| >= 6 && line[..6] == "cancel" then
      && t'.s == t.s.(mode := Wait, file := None, fd := -1)
      && t'.m == t.m.(handles := t.m.handles - {t.s.fd})
    else t' == t
  }

  lemma ConfirmationRead(t: Turn, line: string)
    requires t.s.file.Some? && t.s.fd >= 0
    ensures Confirmed(t, line, DownloadConfirm(t, line))
  {
    assert CloseHandle(t.m, t.s.fd).handles == t.m.handles - {t.s.fd};
  }

  /** So does the turn of a paused download, in which nothing else happens. */
  lemma ConfirmationTurn(t: Turn, i: int, readable: set<int>, a: Answers, h: Hash, line: string, rest: string)
    requires SlotOk(t.s, i, t.m) && Sound(t.s) && t.s.mode == Confirm && i in readable && Reads(t.s, a, line, rest)
    ensures var after := SlotTurn(t, i, readable, a, h);
            after.s.Some? && Confirmed(t.(s := t.s.(text := rest)), line, Turn(after.s.value, after.m))
  {
    ConfirmationRead(t.(s := t.s.(text := rest)), line);
  }
}
