/** No turn of any session makes the observer wrong. */
module ObservedTurns {
  import opened Prelude
  import opened Naming
  import opened Environment
  import opened SessionSpec
  import opened ServerSpec
  import opened Invariant
  import opened Confinement
  import opened Framing
  import opened Uploads
  import opened Observer
  import Commands
  import Downloads

  // ----- uploads -----

  /** A line turn that leaves the session uploading either has just created the empty file that the line asks for, or
      has changed nothing. */
  ghost predicate KeepsUploads(t: Turn, line: string, t': Turn) {
    Uploading(t'.s) && t'.s.file.Some? ==>
      var f' := t'.s.file.value;
      if Uploading(t.s) then
        && t'.m == t.m && t'.s.mode == t.s.mode && t.s.file.Some?
        && var f := t.s.file.value;
        && f'.path == f.path && f'.rest == f.rest && f'.name == f.name && f'.size == f.size
      else
        && t'.s.mode == Upload && f'.path in t'.m.files && t'.m.files[f'.path] == []
        && f'.rest == f'.size && f'.packageRest == 0
        && var r := Commands.ParseUpload(line);
        r.UploadRequest? && f'.name == r.name && f'.size == r.size
  }

  lemma CommandKeepsUploads(t: Turn, line: string, a: Answers, h: Hash)
    requires t.s.mode == Wait
    ensures KeepsUploads(t, line, ClientCommand(t, line, a, h))
  {
    match Commands.ParseCommand(line, a.staleWords)
    case Upload => ReceiveResult(t, line, a, h);
    case _ =>
  }

  lemma DescriptionKeepsUploads(t: Turn, line: string, a: Answers)
    requires t.s.file.Some? && t.s.mode == Description
    ensures KeepsUploads(t, line, DescriptionTurn(t, line, a))
  {
    var f := t.s.file.value;
    var c := Collect(f.description, line, t.s.text);
    SaveInserts(t.(s := t.s.(file := Some(f.(description := Some(c.description))), text := c.text)), a);
  }

  lemma ConfirmKeepsUploads(t: Turn, line: string)
    requires t.s.file.Some? && t.s.mode == Confirm
    ensures !Uploading(DownloadConfirm(t, line).s)
  {
  }

  lemma LineKeepsUploads(t: Turn, line: string, a: Answers, h: Hash)
    requires Sound(t.s) && t.s.mode != Upload && t.s.mode != Download
    ensures KeepsUploads(t, line, LineTurn(t, line, a, h))
  {
    match t.s.mode
    case Wait => CommandKeepsUploads(t, line, a, h);
    case Description => DescriptionKeepsUploads(t, line, a);
    case Confirm => ConfirmKeepsUploads(t, line);
    case _ =>
  }

  lemma RequestKeepsUploads(t: Turn, i: nat, a: Answers, h: Hash)
    requires Sound(t.s) && t.s.mode != Upload && t.s.mode != Download
    ensures var after := RequestTurn(t, i, a, h);
            after.s.Some? ==> KeepsUploads(t, LineRead(t.s, a), Turn(after.s.value, after.m))
  {
    var (s1, line) := ReadLine(t.s, a);
    ReadLeavesRoom(t.s, a);
    if line.Some? {
      LineKeepsUploads(Turn(s1, t.m), line.value, a, h);
    }
  }

  /** What a line turn may do to downloads: nothing is sent, and one that it leaves is the same as before, or new and
      of a record with the name that the line asks for. */
  ghost predicate KeepsDownloads(t: Turn, line: string, t': Turn) {
    && t'.m.wire == t.m.wire
    && (Downloading(t'.s) && t'.s.file.Some? ==>
         var f' := t'.s.file.value;
         if Downloading(t.s) then
           && t.s.file.Some?
           && var f := t.s.file.value;
           f'.path == f.path && f'.rest == f.rest && f'.size == f.size
         else f'.rest == f'.size && Recorded(t.m, f'.path, AskedFor(line)))
  }

  lemma SendResult(t: Turn, line: string, a: Answers)
    ensures var p := SendPrepare(t, line, a);
            && p.t.m.wire == t.m.wire && p.t.m.records == t.m.records && p.t.m.files == t.m.files
            && (p.code == 0 ==>
                 && p.t.s.file.value.rest == p.t.s.file.value.size
                 && Recorded(t.m, p.t.s.file.value.path, AskedFor(line)))
  {
    if SendPrepare(t, line, a).code == 0 {
      Downloads.GrantedDownload(t, line, a);
      assert t.m.records[a.found] in t.m.records;
    }
  }

  lemma CommandKeepsDownloads(t: Turn, line: string, a: Answers, h: Hash)
    requires t.s.mode == Wait
    ensures KeepsDownloads(t, line, ClientCommand(t, line, a, h))
  {
    match Commands.ParseCommand(line, a.staleWords)
    case Upload => ReceiveResult(t, line, a, h);
    case Download => SendResult(t, line, a);
    case _ =>
  }

  lemma LineKeepsDownloads(t: Turn, line: string, a: Answers, h: Hash)
    requires Sound(t.s) && t.s.mode != Upload && t.s.mode != Download
    ensures KeepsDownloads(t, line, LineTurn(t, line, a, h))
  {
    if t.s.mode == Wait {
      CommandKeepsDownloads(t, line, a, h);
    }
  }

  lemma RequestKeepsDownloads(t: Turn, i: nat, a: Answers, h: Hash)
    requires Sound(t.s) && t.s.mode != Upload && t.s.mode != Download
    ensures var after := RequestTurn(t, i, a, h);
            after.s.Some? ==> KeepsDownloads(t, LineRead(t.s, a), Turn(after.s.value, after.m))
  {
    var (s1, line) := ReadLine(t.s, a);
    ReadLeavesRoom(t.s, a);
    if line.Some? {
      LineKeepsDownloads(Turn(s1, t.m), line.value, a, h);
    }
  }

  // ----- records -----

  /** At most one record is new: that of the file at hand, for the user of the session; the files are then as before. */
  ghost predicate Inserts(t: Turn, m': Machine) {
    |m'.records| > |t.m.records| ==>
      && t.s.file.Some? && m'.files == t.m.files
      && exists r :: m'.records == t.m.records + [r] && r.name == t.s.file.value.name && r.size == t.s.file.value.size
                     && r.hash == t.s.file.value.hash && r.owner == t.s.uid
  }

  lemma SaveInserts(t: Turn, a: Answers)
    requires t.s.file.Some?
    ensures Inserts(t, Save(t, a).m)
    ensures Save(t, a).s.mode == Wait
  {
    var r := RecordOf(t.s.file.value, t.s.uid);
    assert a.saved.Inserted? ==> Save(t, a).m.records == t.m.records + [r];
  }

  lemma DescriptionInserts(t: Turn, line: string, a: Answers)
    requires t.s.file.Some? && t.s.mode == Description
    ensures Inserts(t, DescriptionTurn(t, line, a).m)
  {
    var f := t.s.file.value;
    var c := Collect(f.description, line, t.s.text);
    SaveInserts(t.(s := t.s.(file := Some(f.(description := Some(c.description))), text := c.text)), a);
  }

  /** A record that appears in a request turn is that of the file as it was stored. */
  lemma RequestInserts(t: Turn, i: nat, a: Answers, h: Hash)
    requires Sound(t.s) && t.s.mode == Description
    ensures Inserts(t, RequestTurn(t, i, a, h).m)
  {
    var (s1, line) := ReadLine(t.s, a);
    if line.Some? {
      DescriptionInserts(Turn(s1, t.m), line.value, a);
    }
  }

  // ----- one event -----

  /** The slot exists, its session is `s`, and its turn ends in `after`. */
  ghost predicate Turns(o: History, e: Event, h: Hash, s: Session, after: After) {
    && Consistent(o) && e.SlotEvent? && e.i < MAX_CONNECTIONS && o.w.slots[e.i] == Some(s) && Sound(s)
    && after == SlotTurn(Turn(s, o.w.m), e.i, e.readable, e.answers, h)
    && Local(s, e.i, o.w.m, after)
  }

  /** What the observer notes of an upload is right if the read, or its absence, has kept to the announcement. */
  lemma PlanNotedInUpload(o: History, e: Event, s: Session, t': Turn)
    requires e.SlotEvent? && e.i in o.plans && s.mode == Upload && Sound(s)
    requires var p, c := o.plans[e.i], UploadRead(e.answers).chunk;
             if s.fd in e.readable then
               Admissible(p.plan, c) && Uploading(t'.s) ==> PlanOk(p.(plan := Advance(p.plan, c)), t'.s, t'.m)
             else PlanOk(p, t'.s, t'.m)
    ensures var p := NextPlan(o, e, s, Some(t'.s));
            p.Some? ==> PlanOk(p.value, t'.s, t'.m)
  {
  }

  lemma PlanFollowedInUpload(o: History, e: Event, t: Turn, t': Turn)
    requires e.SlotEvent? && e.i in o.plans && SlotOk(t.s, e.i, t.m) && t.s.mode == Upload && Bounded(t.m) && Sound(t.s)
    requires PlanOk(o.plans[e.i], t.s, t.m)
    requires t' == if t.s.fd in e.readable then FileUpload(t, e.answers) else t
    ensures var p := NextPlan(o, e, t.s, Some(t'.s));
            p.Some? ==> PlanOk(p.value, t'.s, t'.m)
  {
    if t.s.fd in e.readable && Admissible(o.plans[e.i].plan, UploadRead(e.answers).chunk) {
      UploadFollowsPlan(t, e.i, e.answers, o.plans[e.i]);
    }
    PlanNotedInUpload(o, e, t.s, t');
  }

  lemma PlanNotedInRequest(o: History, e: Event, t: Turn, t': Turn)
    requires e.SlotEvent? && t.s.mode != Upload && t.s.mode != Download && Sound(t.s)
    requires KeepsUploads(t, LineRead(t.s, e.answers), t') && FileHeld(t'.s)
    requires e.i in o.plans ==> PlanOk(o.plans[e.i], t.s, t.m)
    ensures var p := NextPlan(o, e, t.s, Some(t'.s));
            p.Some? ==> PlanOk(p.value, t'.s, t'.m)
  {
  }

  lemma PlanFollowedInRequest(o: History, e: Event, h: Hash, t: Turn, after: After)
    requires e.SlotEvent? && t.s.mode != Upload && t.s.mode != Download && Sound(t.s) && after.s.Some?
    requires e.i in o.plans ==> PlanOk(o.plans[e.i], t.s, t.m)
    requires after == if e.i in e.readable then RequestTurn(t, e.i, e.answers, h) else Going(t)
    ensures var p := NextPlan(o, e, t.s, after.s);
            p.Some? ==> PlanOk(p.value, after.s.value, after.m)
  {
    if e.i in e.readable {
      RequestKeepsUploads(t, e.i, e.answers, h);
      SlotTurnSound(t, e.i, e.readable, e.answers, h);
      PlanNotedInRequest(o, e, t, Turn(after.s.value, after.m));
    }
  }

  lemma DownloadNeverUploads(t: Turn, a: Answers)
    requires t.s.file.Some? && t.s.mode == Download
    ensures !Uploading(FileDownload(t, a).s)
  {
  }

  lemma UploadTurnFollowsPlan(o: History, e: Event, h: Hash, t: Turn, after: After)
    requires e.SlotEvent? && Sound(t.s) && SlotOk(t.s, e.i, t.m) && Bounded(t.m) && t.s.mode == Upload
    requires e.i in o.plans ==> PlanOk(o.plans[e.i], t.s, t.m)
    requires after == SlotTurn(t, e.i, e.readable, e.answers, h) && NextPlan(o, e, t.s, after.s).Some?
    ensures after.s.Some? && PlanOk(NextPlan(o, e, t.s, after.s).value, after.s.value, after.m)
  {
    PlanFollowedInUpload(o, e, t, Turn(after.s.value, after.m));
  }

  lemma DownloadTurnHasNoPlan(o: History, e: Event, h: Hash, t: Turn, after: After)
    requires e.SlotEvent? && Sound(t.s) && t.s.mode == Download
    requires after == SlotTurn(t, e.i, e.readable, e.answers, h)
    ensures NextPlan(o, e, t.s, after.s).None?
  {
    DownloadNeverUploads(t, e.answers);
  }

  lemma OtherTurnFollowsPlan(o: History, e: Event, h: Hash, t: Turn, after: After)
    requires e.SlotEvent? && Sound(t.s) && t.s.mode != Upload && t.s.mode != Download
    requires e.i in o.plans ==> PlanOk(o.plans[e.i], t.s, t.m)
    requires after == SlotTurn(t, e.i, e.readable, e.answers, h) && NextPlan(o, e, t.s, after.s).Some?
    ensures after.s.Some? && PlanOk(NextPlan(o, e, t.s, after.s).value, after.s.value, after.m)
  {
    PlanFollowedInRequest(o, e, h, t, after);
  }

  lemma PlanFollowed(o: History, e: Event, h: Hash, t: Turn, after: After)
    requires e.SlotEvent? && Sound(t.s) && SlotOk(t.s, e.i, t.m) && Bounded(t.m)
    requires e.i in o.plans ==> PlanOk(o.plans[e.i], t.s, t.m)
    requires after == SlotTurn(t, e.i, e.readable, e.answers, h)
    ensures var p := NextPlan(o, e, t.s, after.s);
            p.Some? ==> after.s.Some? && PlanOk(p.value, after.s.value, after.m)
  {
    if NextPlan(o, e, t.s, after.s).Some? {
      if t.s.mode == Upload {
        UploadTurnFollowsPlan(o, e, h, t, after);
      } else if t.s.mode == Download {
        DownloadTurnHasNoPlan(o, e, h, t, after);
      } else {
        OtherTurnFollowsPlan(o, e, h, t, after);
      }
    }
  }

  lemma StoredStays(s: Session, i: nat, m: Machine, m': Machine, path: string, bytes: Bytes)
    requires SlotOk(s, i, m) && Touches(s, i, m, m') && StoredAs(m, path, bytes)
    ensures StoredAs(m', path, bytes)
  {
    SavedGrows(s, i, m, m', path);
    assert !Owns(s, path);
  }

  lemma RecordedStays(m: Machine, m': Machine, path: string, name: string)
    requires Recorded(m, path, name) && m.records <= m'.records
    ensures Recorded(m', path, name)
  {
    var r :| r in m.records && PathOf(r.hash) == path && r.name == name;
    assert r in m'.records;
  }

  lemma PaidOkStays(s: Session, i: nat, m: Machine, m': Machine, path: string, p: Paid)
    requires SlotOk(s, i, m) && Touches(s, i, m, m') && PaidOk(m, path, p)
    ensures PaidOk(m', path, p)
  {
    StoredStays(s, i, m, m', path, p.bytes);
    assert !Owns(s, path);
    forall r <- m'.records | PathOf(r.hash) == path
      ensures r.name == p.name && r.size == |p.bytes|
    {
      var k :| 0 <= k < |m'.records| && m'.records[k] == r;
      if k < |m.records| {
        assert r == m.records[k];
      }
    }
  }

  /** A new record of a conforming upload is that of what was announced. */
  lemma PaidStored(t: Turn, i: nat, after: After, p: Announced)
    requires SlotOk(t.s, i, t.m) && t.s.mode == Description && PlanOk(p, t.s, t.m)
    requires Inserts(t, after.m) && |after.m.records| > |t.m.records|
    ensures PaidOk(after.m, t.s.file.value.path, Paid(p.name, p.whole))
  {
    var path := t.s.file.value.path;
    assert Payload(p.plan) == [];
    assert p.whole == t.m.files[path];
    var r :| after.m.records == t.m.records + [r] && r.name == p.name && r.size == |p.whole| && PathOf(r.hash) == path;
    assert r in after.m.records;
    forall q <- after.m.records | PathOf(q.hash) == path
      ensures q == r
    {
      assert q in t.m.records ==> IsSaved(t.m, path);
    }
  }

  /** A client that holds the first `n` bytes of `c` behind its first `b` bytes, and gets the next ones. */
  lemma PrefixGrows(wire: Bytes, b: nat, c: Bytes, n: nat, data: Bytes)
    requires b <= |wire| && n + |data| <= |c| && wire[b..] == c[..n] && data == c[n..n + |data|]
    ensures (wire + data)[b..] == c[..n + |data|]
  {
    assert (wire + data)[b..] == wire[b..] + data;
  }

  lemma ServiceKeepsBase(t: Turn, i: nat, a: Answers, base: map<nat, Start>)
    requires SlotOk(t.s, i, t.m) && t.s.mode == Download && BaseOk(base, t.s, i, t.m)
    requires t.m.records <= FileDownload(t, a).m.records
    ensures BaseOk(base, FileDownload(t, a).s, i, FileDownload(t, a).m)
  {
    RecordedStays(t.m, FileDownload(t, a).m, t.s.file.value.path, base[i].name);
    Downloads.ServeResult(t, i, a);
    PrefixGrows(t.m.wire[i], base[i].from, t.m.files[t.s.file.value.path], Downloads.Sent(t.s), Downloads.Piece(t, a));
  }

  lemma RequestKeepsBase(t: Turn, i: nat, line: string, after: After, base: map<nat, Start>)
    requires SlotOk(t.s, i, t.m) && BaseOk(base, t.s, i, t.m) && Local(t.s, i, t.m, after) && after.s.Some?
    requires KeepsDownloads(t, line, Turn(after.s.value, after.m))
    ensures BaseOk(NextBase(base, i, t.s, line, after), after.s.value, i, after.m)
  {
    var s' := after.s.value;
    if Downloading(s') {
      assert SlotOk(s', i, after.m);
      if Downloading(t.s) {
        assert !Owns(t.s, t.s.file.value.path);
        RecordedStays(t.m, after.m, t.s.file.value.path, base[i].name);
      } else {
        RecordedStays(t.m, after.m, s'.file.value.path, AskedFor(line));
        var wire := after.m.wire[i];
        assert wire[|wire|..] == [];
      }
    }
  }

  lemma UploadNeverDownloads(t: Turn, a: Answers)
    requires t.s.file.Some? && t.s.mode == Upload
    ensures !Downloading(FileUpload(t, a).s)
  {
  }

  lemma BaseFollowedInRequest(o: History, i: nat, t: Turn, a: Answers, h: Hash, after: After)
    requires SlotOk(t.s, i, t.m) && t.s.mode != Upload && t.s.mode != Download && BaseOk(o.base, t.s, i, t.m)
    requires Sound(t.s) && after == RequestTurn(t, i, a, h) && Local(t.s, i, t.m, after) && after.s.Some?
    ensures BaseOk(NextBase(o.base, i, t.s, LineRead(t.s, a), after), after.s.value, i, after.m)
  {
    RequestKeepsDownloads(t, i, a, h);
    RequestKeepsBase(t, i, LineRead(t.s, a), after, o.base);
  }

  lemma BaseFollowedInUpload(o: History, e: Event, h: Hash, t: Turn, after: After)
    requires e.SlotEvent? && Sound(t.s) && t.s.mode == Upload && after.s.Some?
    requires after == SlotTurn(t, e.i, e.readable, e.answers, h)
    ensures BaseOk(NextBase(o.base, e.i, t.s, LineRead(t.s, e.answers), after), after.s.value, e.i, after.m)
  {
    UploadNeverDownloads(t, e.answers);
  }

  lemma DownloadKeepsBase(t: Turn, i: nat, a: Answers, base: map<nat, Start>, line: string, after: After)
    requires SlotOk(t.s, i, t.m) && t.s.mode == Download && BaseOk(base, t.s, i, t.m) && t.m.records <= after.m.records
    requires after == Going(FileDownload(t, a))
    ensures BaseOk(NextBase(base, i, t.s, line, after), after.s.value, i, after.m)
  {
    ServiceKeepsBase(t, i, a, base);
    assert NextBase(base, i, t.s, line, after) == base;
  }

  lemma BaseFollowedInDownload(o: History, e: Event, h: Hash, t: Turn, after: After)
    requires e.SlotEvent? && Sound(t.s) && t.s.mode == Download && after.s.Some?
    requires SlotOk(t.s, e.i, t.m) && BaseOk(o.base, t.s, e.i, t.m) && t.m.records <= after.m.records
    requires after == SlotTurn(t, e.i, e.readable, e.answers, h)
    ensures BaseOk(NextBase(o.base, e.i, t.s, LineRead(t.s, e.answers), after), after.s.value, e.i, after.m)
  {
    if t.s.fd in e.readable {
      DownloadKeepsBase(t, e.i, e.answers, o.base, LineRead(t.s, e.answers), after);
    }
  }

  lemma BaseFollowedAtRest(o: History, e: Event, h: Hash, t: Turn, after: After)
    requires e.SlotEvent? && Sound(t.s) && t.s.mode != Upload && t.s.mode != Download && after.s.Some?
    requires SlotOk(t.s, e.i, t.m) && BaseOk(o.base, t.s, e.i, t.m) && Local(t.s, e.i, t.m, after)
    requires after == SlotTurn(t, e.i, e.readable, e.answers, h)
    ensures BaseOk(NextBase(o.base, e.i, t.s, LineRead(t.s, e.answers), after), after.s.value, e.i, after.m)
  {
    if e.i in e.readable {
      BaseFollowedInRequest(o, e.i, t, e.answers, h, after);
    }
  }

  /** After its own turn, too, the client of a download holds the first part of the file. */
  lemma BaseFollowed(o: History, e: Event, h: Hash, t: Turn, after: After)
    requires e.SlotEvent? && Sound(t.s) && SlotOk(t.s, e.i, t.m) && BaseOk(o.base, t.s, e.i, t.m)
    requires after == SlotTurn(t, e.i, e.readable, e.answers, h) && Local(t.s, e.i, t.m, after) && after.s.Some?
    ensures BaseOk(NextBase(o.base, e.i, t.s, LineRead(t.s, e.answers), after), after.s.value, e.i, after.m)
  {
    if t.s.mode == Download {
      BaseFollowedInDownload(o, e, h, t, after);
    } else if t.s.mode == Upload {
      BaseFollowedInUpload(o, e, h, t, after);
    } else {
      BaseFollowedAtRest(o, e, h, t, after);
    }
  }

  /** What a client holds that has received the whole length of the file. */
  lemma WholeDelivered(t: Turn, i: nat, a: Answers, base: map<nat, Start>)
    requires SlotOk(t.s, i, t.m) && t.s.mode == Download && BaseOk(base, t.s, i, t.m)
    requires i in base && i in FileDownload(t, a).m.wire
    requires |FileDownload(t, a).m.wire[i]| == base[i].from + t.s.file.value.size
    ensures t.s.file.value.path in t.m.files
    ensures FileDownload(t, a).m.wire[i][base[i].from..] == t.m.files[t.s.file.value.path]
  {
    Downloads.ServeResult(t, i, a);
    var c := t.m.files[t.s.file.value.path];
    PrefixGrows(t.m.wire[i], base[i].from, c, Downloads.Sent(t.s), Downloads.Piece(t, a));
    assert c[..|c|] == c;
  }

  lemma DeliveryStored(t: Turn, i: nat, a: Answers, base: map<nat, Start>, m': Machine)
    requires SlotOk(t.s, i, t.m) && t.s.mode == Download && BaseOk(base, t.s, i, t.m)
    requires m' == FileDownload(t, a).m && Touches(t.s, i, t.m, m')
    requires i in base && i in m'.wire && |m'.wire[i]| == base[i].from + t.s.file.value.size
    ensures DeliveredOk(m', Delivery(base[i].name, t.s.file.value.path, m'.wire[i][base[i].from..]))
  {
    var path := t.s.file.value.path;
    WholeDelivered(t, i, a, base);
    StoredStays(t.s, i, t.m, m', path, t.m.files[path]);
    RecordedStays(t.m, m', path, base[i].name);
  }

  /** A bystander's announcement and received prefix are untouched. */
  lemma BystanderObserved(o: History, i: nat, s: Session, after: After, j: nat, base: map<nat, Start>)
    requires Consistent(o) && i < MAX_CONNECTIONS && o.w.slots[i] == Some(s) && Local(s, i, o.w.m, after)
    requires j < MAX_CONNECTIONS && j != i && o.w.slots[j].Some?
    requires (j in base <==> j in o.base) && (j in base ==> base[j] == o.base[j])
    ensures j in o.plans ==> PlanOk(o.plans[j], o.w.slots[j].value, after.m)
    ensures BaseOk(base, o.w.slots[j].value, j, after.m)
  {
    var t := o.w.slots[j].value;
    assert SlotOk(s, i, o.w.m) && SlotOk(t, j, o.w.m) && Apart(s, t, o.w.m) && Apart(t, s, o.w.m);
    BystanderKept(s, i, o.w.m, after.m, t, j);
    assert BaseOk(o.base, t, j, o.w.m);
    if Downloading(t) {
      RecordedStays(o.w.m, after.m, t.file.value.path, o.base[j].name);
    }
  }

  lemma PlanStays(o: History, i: nat, s: Session, after: After, j: nat)
    requires Consistent(o) && i < MAX_CONNECTIONS && o.w.slots[i] == Some(s) && Local(s, i, o.w.m, after)
    requires j in o.plans && j != i
    ensures var slots := o.w.slots[i := after.s];
            j < MAX_CONNECTIONS && slots[j].Some? && PlanOk(o.plans[j], slots[j].value, after.m)
  {
    BystanderObserved(o, i, s, after, j, o.base);
  }

  lemma PlansConsistent(o: History, i: nat, s: Session, after: After, next: Option<Announced>)
    requires Consistent(o) && i < MAX_CONNECTIONS && o.w.slots[i] == Some(s) && Local(s, i, o.w.m, after)
    requires next.Some? ==> after.s.Some? && PlanOk(next.value, after.s.value, after.m)
    ensures PlansOk(Put(o.plans, i, next), Replace(o.w, i, after))
  {
    forall j | j in o.plans && j != i
      ensures var slots := o.w.slots[i := after.s];
              j < MAX_CONNECTIONS && slots[j].Some? && PlanOk(o.plans[j], slots[j].value, after.m)
    {
      PlanStays(o, i, s, after, j);
    }
  }

  lemma BasesConsistent(o: History, i: nat, s: Session, line: string, after: After)
    requires Consistent(o) && i < MAX_CONNECTIONS && o.w.slots[i] == Some(s) && Local(s, i, o.w.m, after)
    requires after.s.Some? ==> BaseOk(NextBase(o.base, i, s, line, after), after.s.value, i, after.m)
    ensures var base, w' := NextBase(o.base, i, s, line, after), Replace(o.w, i, after);
            forall j: nat | j < MAX_CONNECTIONS && w'.slots[j].Some? :: BaseOk(base, w'.slots[j].value, j, w'.m)
  {
    var w', base := Replace(o.w, i, after), NextBase(o.base, i, s, line, after);
    forall j: nat | j < MAX_CONNECTIONS && w'.slots[j].Some?
      ensures BaseOk(base, w'.slots[j].value, j, w'.m)
    {
      if j != i {
        BystanderObserved(o, i, s, after, j, base);
      }
    }
  }

  lemma PaidStays(s: Session, i: nat, m: Machine, m': Machine, paid: map<string, Paid>)
    requires SlotOk(s, i, m) && Touches(s, i, m, m') && forall p <- paid :: PaidOk(m, p, paid[p])
    ensures forall p <- paid :: PaidOk(m', p, paid[p])
  {
    forall p <- paid
      ensures PaidOk(m', p, paid[p])
    {
      PaidOkStays(s, i, m, m', p, paid[p]);
    }
  }

  lemma NewlyPaid(o: History, e: Event, h: Hash, t: Turn, after: After)
    requires e.SlotEvent? && Sound(t.s) && SlotOk(t.s, e.i, t.m) && t.s.mode == Description
    requires e.i in o.plans && PlanOk(o.plans[e.i], t.s, t.m)
    requires after == SlotTurn(t, e.i, e.readable, e.answers, h) && |after.m.records| > |t.m.records|
    ensures PaidOk(after.m, t.s.file.value.path, Paid(o.plans[e.i].name, o.plans[e.i].whole))
  {
    RequestInserts(t, e.i, e.answers, h);
    PaidStored(t, e.i, after, o.plans[e.i]);
  }

  lemma PaidConsistent(o: History, i: nat, s: Session, m': Machine)
    requires SlotOk(s, i, o.w.m) && Touches(s, i, o.w.m, m') && forall p <- o.paid :: PaidOk(o.w.m, p, o.paid[p])
    requires s.mode == Description && i in o.plans && |m'.records| > |o.w.m.records| ==>
               PaidOk(m', s.file.value.path, Paid(o.plans[i].name, o.plans[i].whole))
    ensures forall p <- NextPaid(o, i, s, m') :: PaidOk(m', p, NextPaid(o, i, s, m')[p])
  {
    PaidStays(s, i, o.w.m, m', o.paid);
  }

  lemma DeliveredConsistent(o: History, e: Event, s: Session, w': World)
    requires e.SlotEvent? && |w'.slots| == MAX_CONNECTIONS && e.i < MAX_CONNECTIONS
    requires SlotOk(s, e.i, o.w.m) && Touches(s, e.i, o.w.m, w'.m)
    requires forall d <- o.delivered :: DeliveredOk(o.w.m, d)
    requires Completes(o, e, s, w') ==>
               DeliveredOk(w'.m, Delivery(o.base[e.i].name, s.file.value.path, w'.m.wire[e.i][o.base[e.i].from..]))
    ensures forall d <- NextDelivered(o, e, s, w') :: DeliveredOk(w'.m, d)
  {
    forall d <- NextDelivered(o, e, s, w')
      ensures DeliveredOk(w'.m, d)
    {
      if d in o.delivered {
        StoredStays(s, e.i, o.w.m, w'.m, d.path, d.bytes);
        RecordedStays(o.w.m, w'.m, d.path, d.name);
      }
    }
  }

  lemma DownloadTurn(t: Turn, i: nat, readable: set<int>, a: Answers, h: Hash)
    requires Sound(t.s) && t.s.mode == Download && t.s.fd >= 0 && t.s.fd in readable
    ensures SlotTurn(t, i, readable, a, h) == Going(FileDownload(t, a))
  {
  }

  /** A completed download delivered what is stored. */
  lemma NewlyDelivered(o: History, e: Event, t: Turn, w': World)
    requires e.SlotEvent? && SlotOk(t.s, e.i, t.m) && BaseOk(o.base, t.s, e.i, t.m)
    requires |w'.slots| == MAX_CONNECTIONS && e.i < MAX_CONNECTIONS && Completes(o, e, t.s, w')
    requires w'.m == FileDownload(t, e.answers).m && Touches(t.s, e.i, t.m, w'.m)
    ensures DeliveredOk(w'.m, Delivery(o.base[e.i].name, t.s.file.value.path, w'.m.wire[e.i][o.base[e.i].from..]))
  {
    DeliveryStored(t, e.i, e.answers, o.base, w'.m);
  }

  lemma StoresConsistent(o: History, e: Event, h: Hash, s: Session, after: After, w': World)
    requires Turns(o, e, h, s, after) && w' == Replace(o.w, e.i, after)
    ensures forall p <- NextPaid(o, e.i, s, w'.m) :: PaidOk(w'.m, p, NextPaid(o, e.i, s, w'.m)[p])
    ensures forall d <- NextDelivered(o, e, s, w') :: DeliveredOk(w'.m, d)
  {
    assert SlotOk(s, e.i, o.w.m) && BaseOk(o.base, s, e.i, o.w.m);
    if s.mode == Description && e.i in o.plans && |after.m.records| > |o.w.m.records| {
      NewlyPaid(o, e, h, Turn(s, o.w.m), after);
    }
    PaidConsistent(o, e.i, s, w'.m);
    if Completes(o, e, s, w') {
      DownloadTurn(Turn(s, o.w.m), e.i, e.readable, e.answers, h);
      NewlyDelivered(o, e, Turn(s, o.w.m), w');
    }
    DeliveredConsistent(o, e, s, w');
  }

  lemma Assembled(o: History, i: nat, s: Session, line: string, after: After, next: Option<Announced>, o': History)
    requires Consistent(o) && i < MAX_CONNECTIONS && o.w.slots[i] == Some(s) && Local(s, i, o.w.m, after)
    requires o'.w == Replace(o.w, i, after) && Inv(o'.w)
    requires o'.plans == Put(o.plans, i, next) && o'.base == NextBase(o.base, i, s, line, after)
    requires next.Some? ==> after.s.Some? && PlanOk(next.value, after.s.value, after.m)
    requires after.s.Some? ==> BaseOk(o'.base, after.s.value, i, after.m)
    requires forall p <- o'.paid :: PaidOk(after.m, p, o'.paid[p])
    requires forall d <- o'.delivered :: DeliveredOk(after.m, d)
    ensures Consistent(o')
  {
    PlansConsistent(o, i, s, after, next);
    BasesConsistent(o, i, s, line, after);
  }

  lemma ObservedConsistent(o: History, e: Event, h: Hash, s: Session, after: After)
    requires Turns(o, e, h, s, after) && Inv(Replace(o.w, e.i, after))
    ensures Consistent(Observe(o, e, s, Replace(o.w, e.i, after)))
  {
    var t, w' := Turn(s, o.w.m), Replace(o.w, e.i, after);
    assert SlotOk(s, e.i, o.w.m) && BaseOk(o.base, s, e.i, o.w.m);
    PlanFollowed(o, e, h, t, after);
    if after.s.Some? {
      BaseFollowed(o, e, h, t, after);
    }
    StoresConsistent(o, e, h, s, after, w');
    Assembled(o, e.i, s, LineRead(s, e.answers), after, NextPlan(o, e, s, after.s), Observe(o, e, s, w'));
  }

  lemma SlotEventConsistent(o: History, e: Event, h: Hash)
    requires Consistent(o) && e.SlotEvent? && e.i < MAX_CONNECTIONS && o.w.slots[e.i].Some?
    ensures Shaped(o.w) && Consistent(Happen(o, e, h))
  {
    InvShaped(o.w);
    var s := o.w.slots[e.i].value;
    assert SlotOk(s, e.i, o.w.m);
    var after := SlotTurn(Turn(s, o.w.m), e.i, e.readable, e.answers, h);
    SlotTurnConfined(Turn(s, o.w.m), e.i, e.readable, e.answers, h, o.w.ls);
    LocalKeepsInv(o.w, e.i, after);
    ObservedConsistent(o, e, h, s, after);
  }

  lemma ArrivalBases(o: History, n: nat, w': World)
    requires Consistent(o) && n < MAX_CONNECTIONS && |w'.slots| == MAX_CONNECTIONS
    requires w'.m.files == o.w.m.files && w'.m.records == o.w.m.records
    requires w'.slots[n].Some? && !Downloading(w'.slots[n].value)
    requires forall j: nat | j < MAX_CONNECTIONS && j != n :: w'.slots[j] == o.w.slots[j]
    requires forall j: nat | j != n ::
        (j in w'.m.wire <==> j in o.w.m.wire) && (j in w'.m.wire ==> w'.m.wire[j] == o.w.m.wire[j])
    ensures forall j: nat | j < MAX_CONNECTIONS && w'.slots[j].Some? :: BaseOk(o.base, w'.slots[j].value, j, w'.m)
  {
    forall j: nat | j < MAX_CONNECTIONS && w'.slots[j].Some?
      ensures BaseOk(o.base, w'.slots[j].value, j, w'.m)
    {
      if j != n {
        assert BaseOk(o.base, o.w.slots[j].value, j, o.w.m);
      }
    }
  }

  lemma ArrivalPlans(o: History, n: nat, w': World)
    requires Consistent(o) && n < MAX_CONNECTIONS && |w'.slots| == MAX_CONNECTIONS && w'.m.files == o.w.m.files
    requires o.w.slots[n].None?
    requires forall j: nat | j < MAX_CONNECTIONS && j != n :: w'.slots[j] == o.w.slots[j]
    ensures PlansOk(o.plans, w')
  {
    forall j <- o.plans
      ensures j < MAX_CONNECTIONS && w'.slots[j].Some? && PlanOk(o.plans[j], w'.slots[j].value, w'.m)
    {
      assert PlanOk(o.plans[j], o.w.slots[j].value, o.w.m);
    }
  }

  lemma SameStores(m: Machine, m': Machine, paid: map<string, Paid>, delivered: seq<Delivery>)
    requires m'.files == m.files && m'.records == m.records
    requires (forall p <- paid :: PaidOk(m, p, paid[p])) && forall d <- delivered :: DeliveredOk(m, d)
    ensures (forall p <- paid :: PaidOk(m', p, paid[p])) && forall d <- delivered :: DeliveredOk(m', d)
  {
  }

  lemma ArrivedConsistent(o: History, n: nat, w': World)
    requires Consistent(o) && n < MAX_CONNECTIONS && Inv(w') && o.w.slots[n].None?
    requires w'.m.files == o.w.m.files && w'.m.records == o.w.m.records
    requires w'.slots[n].Some? && !Downloading(w'.slots[n].value)
    requires forall j: nat | j < MAX_CONNECTIONS && j != n :: w'.slots[j] == o.w.slots[j]
    requires forall j: nat | j != n ::
        (j in w'.m.wire <==> j in o.w.m.wire) && (j in w'.m.wire ==> w'.m.wire[j] == o.w.m.wire[j])
    ensures Consistent(o.(w := w'))
  {
    ArrivalBases(o, n, w');
    ArrivalPlans(o, n, w');
    SameStores(o.w.m, w'.m, o.paid, o.delivered);
  }

  lemma ArrivalConsistent(o: History, a: Answers, h: Hash)
    requires Consistent(o)
    ensures Shaped(o.w) && Consistent(Happen(o, Arrival(a), h))
  {
    InvShaped(o.w);
    AcceptKeepsInv(o.w, a);
    if Usable(o.w.m, a.newHandle) {
      AcceptFillsEmptySlot(o.w, a.newHandle);
      ArrivedConsistent(o, a.newHandle, Accept(o.w, a));
    }
  }

  lemma EventConsistent(o: History, e: Event, h: Hash)
    requires Consistent(o)
    ensures Shaped(o.w) && Consistent(Happen(o, e, h))
  {
    InvShaped(o.w);
    if e.Arrival? {
      ArrivalConsistent(o, e.answers, h);
    } else if e.i < MAX_CONNECTIONS && o.w.slots[e.i].Some? {
      SlotEventConsistent(o, e, h);
    }
  }

  lemma {:induction false} HappensConsistent(o: History, events: seq<Event>, h: Hash)
    requires Consistent(o)
    ensures Shaped(o.w) && Consistent(Happens(o, events, h))
    decreases |events|
  {
    InvShaped(o.w);
    if events != [] {
      EventConsistent(o, events[0], h);
      HappensConsistent(Happen(o, events[0], h), events[1..], h);
    }
  }
}
