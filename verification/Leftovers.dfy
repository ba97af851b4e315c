/** What a transfer can leave behind: a file without a record, or an open descriptor. */
module Leftovers {
  import opened Prelude
  import opened Naming
  import opened Environment
  import opened SessionSpec
  import opened Invariant
  import opened Confinement
  import Framing
  import ServerSpec

  // ----- files and records -----

  lemma OwnFileUnsaved(s: Session, m: Machine, records: seq<Record>, r: Record, path: string)
    requires !IsSaved(m, path) && PathOf(r.hash) == path
    ensures IsSaved(m.(records := m.records + [r]), path)
  {
    assert r in m.records + [r];
  }

  /** After the save step of an upload its file is stored if and only if it is recorded, exactly when the database took
      the record, or refused it with 0 while the process stood in its own directory. A record is never without its
      file. */
  lemma SaveMatchesIff(t: Turn, i: int, a: Answers)
    requires SlotOk(t.s, i, t.m) && t.s.mode == Description
    ensures var m', path := Save(t, a).m, t.s.file.value.path;
            && (IsSaved(m', path) ==> path in m'.files)
            && ((path in m'.files <==> IsSaved(m', path))
                <==> a.saved.Inserted? || (a.saved.result == 0 && t.m.atRoot))
  {
    var r := RecordOf(t.s.file.value, t.s.uid);
    OwnFileUnsaved(t.s, t.m, t.m.records, r, t.s.file.value.path);
    assert a.saved.NotInserted? ==> Save(t, a).m.records == t.m.records;
  }

  /** The same of the turn that reads the last line of the description. */
  lemma DescriptionMatchesIff(t: Turn, i: int, line: string, a: Answers)
    requires SlotOk(t.s, i, t.m) && t.s.mode == Description
    requires Collect(t.s.file.value.description, line, t.s.text).ended
    ensures var m', path := DescriptionTurn(t, line, a).m, t.s.file.value.path;
            && (IsSaved(m', path) ==> path in m'.files)
            && ((path in m'.files <==> IsSaved(m', path))
                <==> a.saved.Inserted? || (a.saved.result == 0 && t.m.atRoot))
  {
    ServerSpec.CollectShrinks(t.s.file.value.description, line, t.s.text);
    var c := Collect(t.s.file.value.description, line, t.s.text);
    var s1 := t.s.(file := Some(t.s.file.value.(description := Some(c.description))), text := c.text);
    TextIrrelevant(t, s1, i, Going(t));
    SaveMatchesIff(Turn(s1, t.m), i, a);
  }

  /** For instance: an insertion that fails with -1 leaves a file that nobody can ask for. */
  lemma FailedInsertLeavesFile(t: Turn, i: int, a: Answers)
    requires SlotOk(t.s, i, t.m) && t.s.mode == Description && a.saved == NotInserted(-1)
    ensures t.s.file.value.path in Save(t, a).m.files && !IsSaved(Save(t, a).m, t.s.file.value.path)
  {
    SaveMatchesIff(t, i, a);
  }

  // ----- descriptors -----

  lemma ObeyClosesOrGoesOn(t: Turn, v: Framing.Verdict, a: Answers)
    requires t.s.file.Some? && t.s.mode == Upload
    ensures Obey(t, v, a).s.mode == Wait ==> Obey(t, v, a).s.fd < 0
  {
  }

  /** An upload goes back to waiting with an open descriptor exactly at the end of the stream of an empty file. */
  lemma UploadKeepsDescriptorIff(t: Turn, i: int, a: Answers)
    requires SlotOk(t.s, i, t.m) && t.s.mode == Upload
    ensures var s' := FileUpload(t, a).s;
            s'.mode == Wait && s'.fd >= 0 <==> a.data == [] && t.s.file.value.rest == 0
  {
    var f, r := t.s.file.value, UploadRead(a);
    if r.chunk != [] {
      UploadObeysVerdict(t, a);
      ObeyClosesOrGoesOn(t, Framing.Deframe(f.rest, f.packageRest, r), a);
    }
  }

  /** A download does so exactly if its file is empty. */
  lemma DownloadKeepsDescriptorIff(t: Turn, i: int, a: Answers)
    requires SlotOk(t.s, i, t.m) && t.s.mode == Download
    ensures var s' := FileDownload(t, a).s;
            s'.mode == Wait && s'.fd >= 0 <==> t.s.file.value.rest == 0
  {
    DataWithinCounters(t.s, t.m, a.short);
  }

  /** For instance: an upload of size 0 whose client then closes its stream. */
  lemma EmptyUploadKeepsDescriptor(t: Turn, i: int, line: string, a: Answers, h: Hash, ls: nat, b: Answers)
    requires SlotOk(t.s, i, t.m) && t.s.mode == Wait && MachineOk(t.m, ls)
    requires ReceivePrepare(t, line, a, h).code == 0 && ReceivePrepare(t, line, a, h).t.s.file.value.size == 0
    requires b.data == []
    ensures var s' := FileUpload(WithMode(ReceivePrepare(t, line, a, h).t, Upload), b).s;
            s'.mode == Wait && s'.fd >= 0
  {
    ReceivePrepareConfined(t, i, line, a, h, ls);
    var t1 := WithMode(ReceivePrepare(t, line, a, h).t, Upload);
    assert t1.s.file.value.rest == 0;
    UploadKeepsDescriptorIff(t1, i, b);
  }

  /** For instance: the download of a stored file of size 0. */
  lemma EmptyDownloadKeepsDescriptor(t: Turn, i: int, line: string, a: Answers, ls: nat, b: Answers)
    requires SlotOk(t.s, i, t.m) && t.s.mode == Wait && MachineOk(t.m, ls)
    requires SendPrepare(t, line, a).code == 0 && SendPrepare(t, line, a).t.s.file.value.size == 0
    ensures var s' := FileDownload(WithMode(SendPrepare(t, line, a).t, Download), b).s;
            s'.mode == Wait && s'.fd >= 0
  {
    SendPrepareConfined(t, i, line, a, ls);
    DownloadKeepsDescriptorIff(WithMode(SendPrepare(t, line, a).t, Download), i, b);
  }
}
