/** The life of a file: from the request that a client types to the copy that another client gets. */
module Lifecycles {
  import opened Prelude
  import opened Naming
  import opened Environment
  import opened SessionSpec
  import opened ServerSpec
  import opened Invariant
  import opened Confinement
  import opened Framing
  import opened Deframing
  import opened Aborts
  import opened Uploads
  import Commands
  import Descriptions
  import Downloads
  import Requests

  /** A client types an upload request into an empty buffer. */
  predicate TypesUpload(s: Session, a: Answers, name: string, size: nat, perm: nat) {
    && s.text == "" && a.text == Commands.PrintUpload(name, size, perm, "\n") && |a.text| <= INBUFSIZE
    && Requests.Speakable(name) && size < OFF_SPAN && perm <= 127
  }

  lemma UploadMeansAccepted(t: Turn, line: string, a: Answers, h: Hash)
    requires t.s.mode == Wait && Commands.ParseCommand(line, a.staleWords) == Commands.Command.Upload
    requires ClientCommand(t, line, a, h).s.mode == Upload
    ensures var p := ReceivePrepare(t, line, a, h);
            p.code == 0 && ClientCommand(t, line, a, h) == WithMode(p.t, Upload)
  {
  }

  lemma RequestIsCommand(t: Turn, i: int, a: Answers, h: Hash, line: string)
    requires Sound(t.s) && t.s.mode == Wait && ReadLine(t.s, a) == (t.s, Some(line))
    ensures var t1 := ClientCommand(t, line, a, h);
            t1.s.mode != Err ==> RequestTurn(t, i, a, h) == Going(t1)
    ensures ClientCommand(t, line, a, h).s.mode == Err ==> RequestTurn(t, i, a, h).s == None
  {
  }

  /** A typed request that is accepted is the preparation with exactly its name, size and permissions. */
  lemma TypedRequest(t: Turn, i: int, a: Answers, h: Hash, name: string, size: nat, perm: nat, t1: Turn)
    requires Sound(t.s) && t.s.mode == Wait && TypesUpload(t.s, a, name, size, perm)
    requires RequestTurn(t, i, a, h) == Going(t1) && t1.s.mode == Upload
    ensures var line := Commands.PrintUpload(name, size, perm, "\n");
            && Commands.ParseUpload(line) == Commands.UploadRequest(name, size, Some(perm))
            && ReceivePrepare(t, line, a, h).code == 0
            && t1 == WithMode(ReceivePrepare(t, line, a, h).t, Upload)
  {
    var line := Commands.PrintUpload(name, size, perm, "\n");
    assert line + "" == line;
    Requests.UploadRequestArrives(t.s, a, name, size, perm, "");
    assert t.s.(text := "") == t.s;
    RequestIsCommand(t, i, a, h, line);
    UploadMeansAccepted(t, line, a, h);
  }

  /** The file is stored, and its record is the last one: it has the name, the size and the permissions that were asked
      for, the description that was given, and the number of the user. */
  ghost predicate Archived(m: Machine, m': Machine, hash: Int32, name: string, perm: nat, file: Bytes, text: string,
                           uid: Int32) {
    && |file| < SIZE_SPAN
    && m'.records == m.records + [Record(name, |file|, hash, text, perm, uid)]
    && PathOf(hash) in m'.files && m'.files[PathOf(hash)] == file
  }

  /** Permissions are kept in one signed byte. */
  lemma PermissionsKept(perm: Int32, a: Answers)
    ensures -128 <= PermissionsOf(Some(perm), a) <= 127 && (PermissionsOf(Some(perm), a) - perm) % 256 == 0
    ensures -128 <= perm <= 127 ==> PermissionsOf(Some(perm), a) == perm
  {
  }

  /** A stored upload whose description is recorded has been archived. */
  lemma DescribedIsArchived(t: Turn, a: Answers, t2: Turn, name: string, perm: nat, file: Bytes,
                            d: Descriptions.Described, lines: seq<Answers>, text: string)
    requires perm <= 127 && |file| < SIZE_SPAN && Stored(t, name, Some(perm), a, file, t2)
    requires Descriptions.RecordsText(d, t2, lines, text) && forall b <- lines :: b.saved.Inserted?
    ensures Archived(t.m, d.t.m, t2.s.file.value.hash, name, perm, file, text, t.s.uid) && d.t.s.mode == Wait
    ensures d.t.m.handles == t.m.handles
  {
    PermissionsKept(perm, a);
  }

  /** From the typed request to the last read. */
  lemma TypedUploadStored(t: Turn, i: nat, ls: nat, h: Hash, name: string, perm: nat, file: Bytes,
                          a: Answers, t1: Turn, arriving: seq<Answers>)
    requires SlotOk(t.s, i, t.m) && Sound(t.s) && t.s.mode == Wait && MachineOk(t.m, ls)
    requires TypesUpload(t.s, a, name, |file|, perm) && file != []
    requires RequestTurn(t, i, a, h) == Going(t1) && t1.s.mode == Upload && FileHeld(t1.s)
    requires FullReads(Frame(Packaged(file)), Reads(arriving)) && AllWrites(arriving)
    ensures Stored(t, name, Some(perm), a, file, UploadTurns(t1, arriving))
  {
    TypedRequest(t, i, a, h, name, |file|, perm, t1);
    var line := Commands.PrintUpload(name, |file|, perm, "\n");
    PackagedUploadStored(t, i, line, a, h, ls, name, Some(perm), file, arriving);
  }

  /** From the request to the record: a client types a request for a non-empty file, sends the file in full packages
      that arrive in full reads, and then whole lines of description through one with the end marker. If the request is
      accepted, the writes succeed and the database takes the record, then exactly that has been archived, and what is
      open is what was open before. */
  lemma FromRequestToRecord(t: Turn, i: nat, ls: nat, h: Hash, name: string, perm: nat, file: Bytes,
                            a: Answers, t1: Turn, arriving: seq<Answers>, lines: seq<Answers>, groups: seq<seq<string>>)
    requires SlotOk(t.s, i, t.m) && Sound(t.s) && t.s.mode == Wait && MachineOk(t.m, ls)
    requires TypesUpload(t.s, a, name, |file|, perm) && file != []
    requires RequestTurn(t, i, a, h) == Going(t1) && t1.s.mode == Upload && FileHeld(t1.s)
    requires FullReads(Frame(Packaged(file)), Reads(arriving)) && AllWrites(arriving)
    requires Descriptions.BringLines(lines, groups) && Descriptions.HasFinal(Flatten(groups))
    requires forall b <- lines :: b.saved.Inserted?
    ensures var t2 := UploadTurns(t1, arriving);
            && Sound(t2.s) && t2.s.mode == Description
            && var d := Descriptions.Describe(t2, i, lines, h);
            && Archived(t.m, d.t.m, t2.s.file.value.hash, name, perm, file,
                        CutEnd(Descriptions.Told(Flatten(groups))), t.s.uid)
            && d.t.s.mode == Wait && d.t.m.handles == t.m.handles
  {
    TypedUploadStored(t, i, ls, h, name, perm, file, a, t1, arriving);
    var t2, told := UploadTurns(t1, arriving), Descriptions.Told(Flatten(groups));
    assert "" + told == told;
    Descriptions.DescriptionRecorded(t2, i, lines, groups, h);
    DescribedIsArchived(t, a, t2, name, perm, file, Descriptions.Describe(t2, i, lines, h), lines, CutEnd(told));
  }

  /** And from the record to the copy: whoever is granted a download of an archived file, and confirms every package,
      gets its bytes, whatever has happened to records and files behind it. */
  lemma ArchivedIsDelivered(m: Machine, m': Machine, hash: Int32, name: string, perm: nat, file: Bytes, text: string,
                            uid: Int32, t: Turn, j: nat, line: string, a: Answers, ls: nat, b: Answers, p: nat)
    requires Archived(m, m', hash, name, perm, file, text, uid) && file != []
    requires m'.records <= t.m.records && PathOf(hash) in t.m.files && t.m.files[PathOf(hash)] == file
    requires SlotOk(t.s, j, t.m) && t.s.mode == Wait && MachineOk(t.m, ls)
    requires SendPrepare(t, line, a).code == 0 && a.found == |m.records| && Downloads.FullService(b) && 0 < p <= INT_MAX
    ensures Commands.ParseDownload(line) == Commands.DownloadRequest(name)
    ensures Downloads.Granting(t, line, a, WithMode(SendPrepare(t, line, a).t, Download), j)
    ensures t.m.records[a.found].size > 0
    ensures var d := Downloads.Drive(WithMode(SendPrepare(t, line, a).t, Download), j, b, p);
            j in d.t.m.wire && d.t.m.wire[j] == t.m.wire[j] + file
  {
    assert t.m.records[a.found] == m'.records[|m.records|];
    Downloads.DownloadStarts(t, j, line, a, ls);
    Downloads.DownloadTakes(t, j, line, a, ls, b, p);
  }
}
