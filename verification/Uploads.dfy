/** Whole uploads on the machine: from the first read to the stored file. */
module Uploads {
  import opened Prelude
  import opened Naming
  import opened Environment
  import opened SessionSpec
  import opened Invariant
  import opened Confinement
  import opened Framing
  import opened Deframing
  import opened Aborts
  import Commands

  /** The client of an upload has announced `whole` and has kept to its framed stream; `plan` is still to come. */
  datatype Announced = Announced(plan: Plan, whole: Bytes, name: string)

  /** Stored bytes and bytes to come make up what was announced, and the counters agree. */
  ghost predicate PlanOk(p: Announced, s: Session, m: Machine) {
    && Uploading(s) && s.file.Some? && s.file.value.path in m.files
    && Framed(p.plan.later)
    && s.file.value.name == p.name && s.file.value.size == |p.whole|
    && p.whole == m.files[s.file.value.path] + Payload(p.plan)
    && s.file.value.rest == |Payload(p.plan)|
    && (s.mode == Upload ==> s.file.value.packageRest == |p.plan.cur|)
  }

  // ----- one read -----

  /** An admissible read of a conforming upload, when the upload goes on. */
  lemma UploadFollowsPlan(t: Turn, i: nat, a: Answers, p: Announced)
    requires SlotOk(t.s, i, t.m) && t.s.mode == Upload && Bounded(t.m)
    requires PlanOk(p, t.s, t.m) && Admissible(p.plan, UploadRead(a).chunk)
    ensures var t' := FileUpload(t, a);
            Uploading(t'.s) ==> PlanOk(p.(plan := Advance(p.plan, UploadRead(a).chunk)), t'.s, t'.m)
  {
    var f, r, path := t.s.file.value, UploadRead(a), t.s.file.value.path;
    DeframeFollowsPlan(p.plan, r);
    AdvanceStream(p.plan, r.chunk);
    UploadObeysVerdict(t, a);
    var v := Deframe(f.rest, f.packageRest, r);
    WriteAllAppends(t.s, t.m, v, a);
    var m2 := WriteAll(t.m, t.s.fd, v, a);
    var q := Advance(p.plan, r.chunk);
    if m2.Some? {
      assert (t.m.files[path] + Written(v)) + Payload(q) == t.m.files[path] + (Written(v) + Payload(q));
    }
  }

  /** Both writes go through, and the file stays below the largest length. */
  lemma WritesSucceed(s: Session, m: Machine, v: Verdict, a: Answers)
    requires UploadOk(s, m) && a.firstWrite && a.secondWrite
    requires |m.files[s.file.value.path]| + |Written(v)| < OFF_SPAN
    ensures WriteAll(m, s.fd, v, a).Some?
  {
  }

  /** The same upload of the same file by the same client: only the state and the two counters may differ. */
  predicate SameUpload(s: Session, s': Session) {
    && s.file.Some? && s'.file.Some?
    && s' == s.(mode := s'.mode, file := s'.file)
    && s'.file.value == s.file.value.(rest := s'.file.value.rest, packageRest := s'.file.value.packageRest)
  }

  lemma ObeyKeepsUpload(t: Turn, v: Verdict, a: Answers)
    requires t.s.file.Some? && t.s.mode == Upload && !v.cancelled && WriteAll(t.m, t.s.fd, v, a).Some?
    ensures SameUpload(t.s, Obey(t, v, a).s) && Obey(t, v, a).m.records == t.m.records
    ensures Obey(t, v, a).s.mode == if v.rest == 0 then Description else Upload
  {
  }

  /** With successful writes an admissible read keeps the upload going, or completes it. */
  lemma UploadGoesOn(t: Turn, i: nat, a: Answers, p: Announced)
    requires SlotOk(t.s, i, t.m) && t.s.mode == Upload && Bounded(t.m)
    requires PlanOk(p, t.s, t.m) && Admissible(p.plan, UploadRead(a).chunk)
    requires a.firstWrite && a.secondWrite && |p.whole| < OFF_SPAN
    ensures var t', q := FileUpload(t, a), Advance(p.plan, UploadRead(a).chunk);
            && SameUpload(t.s, t'.s) && t'.m.records == t.m.records
            && t'.s.mode == (if Payload(q) == [] then Description else Upload)
  {
    var f, r := t.s.file.value, UploadRead(a);
    var v := Deframe(f.rest, f.packageRest, r);
    DeframeFollowsPlan(p.plan, r);
    UploadObeysVerdict(t, a);
    WritesSucceed(t.s, t.m, v, a);
    ObeyKeepsUpload(t, v, a);
  }

  // ----- all reads -----

  function Reads(answers: seq<Answers>): (rs: seq<Read>)
    ensures |rs| == |answers| && forall k | 0 <= k < |rs| :: rs[k] == UploadRead(answers[k])
  {
    seq(|answers|, k requires 0 <= k < |answers| => UploadRead(answers[k]))
  }

  predicate AllWrites(answers: seq<Answers>) {
    forall a <- answers :: a.firstWrite && a.secondWrite
  }

  /** Calls of the handler follow the client's stream: the file holds what has come of it, and the session collects the
      description exactly when all of it has. */
  lemma {:induction false} UploadTurnsFollowPlan(t: Turn, i: nat, answers: seq<Answers>, p: Announced)
    requires SlotOk(t.s, i, t.m) && t.s.mode == Upload && Bounded(t.m) && PlanOk(p, t.s, t.m)
    requires AdmissibleRun(p.plan, Reads(answers)) && AllWrites(answers)
    requires Payload(p.plan) != [] && |p.whole| < OFF_SPAN
    ensures var t', q, path := UploadTurns(t, answers), PlanAfter(p.plan, Reads(answers)), t.s.file.value.path;
            && SameUpload(t.s, t'.s) && t'.m.records == t.m.records
            && t'.s.mode == (if Payload(q) == [] then Description else Upload)
            && path in t'.m.files && p.whole == t'.m.files[path] + Payload(q)
            && t'.s.file.value.rest == |Payload(q)|
            && t'.m.handles - {t.s.fd} == t.m.handles - {t.s.fd}
    decreases |answers|
  {
    if answers != [] {
      var t1, c := FileUpload(t, answers[0]), UploadRead(answers[0]).chunk;
      var q := p.(plan := Advance(p.plan, c));
      assert Reads(answers)[1..] == Reads(answers[1..]);
      UploadFollowsPlan(t, i, answers[0], p);
      UploadGoesOn(t, i, answers[0], p);
      UploadReleases(t, i, answers[0]);
      UploadConfined(t, i, answers[0]);
      AdvanceStream(p.plan, c);
      if Payload(q.plan) == [] {
        NothingLeft(q.plan, Reads(answers[1..]));
      } else {
        UploadTurnsFollowPlan(t1, i, answers[1..], q);
      }
    }
  }

  // ----- from the request -----

  /** An accepted upload owns an empty file with everything still to come. */
  ghost predicate Accepted(t: Turn, name: string, size: Size, perm: Option<Int32>, a: Answers, t1: Turn) {
    && t1.s.file.Some? && t1.s.fd >= 0 && t1.m.wire == t.m.wire && t1.m.records == t.m.records
    && SameClient(t.s, t1.s)
    && var f := t1.s.file.value;
    && f == File(name, PathOf(f.hash), size, size, 0, f.hash, None, PermissionsOf(perm, a))
    && f.path !in t.m.files && t1.m.files == t.m.files[f.path := []]
    && t1.s.fd !in t.m.handles && t1.m.handles == t.m.handles[t1.s.fd := OpenFile(f.path, 0)]
  }

  lemma AcceptResult(t: Turn, size: Size, a: Answers, h: Hash)
    requires t.s.file.Some?
    ensures var p := AcceptUpload(t, size, a, h);
            && p.t.m.wire == t.m.wire && p.t.m.records == t.m.records
            && (p.code == 0 ==>
                 && var f := p.t.s.file.value;
                 && f == t.s.file.value.(path := PathOf(f.hash), hash := f.hash, size := size, rest := size)
                 && f.path !in t.m.files && p.t.m.files == t.m.files[f.path := []]
                 && p.t.s.fd >= 0 && p.t.s.fd !in t.m.handles
                 && p.t.m.handles == t.m.handles[p.t.s.fd := OpenFile(f.path, 0)])
  {
    ProbeResult(t.m, h, t.s.file.value.name, a, FILE_HASH_SEED);
  }

  /** What the preparation makes of a request: a refused one sends and records nothing, and an accepted one gives a file
      of the name, size and permissions that the request names. */
  lemma ReceiveResult(t: Turn, line: string, a: Answers, h: Hash)
    ensures var p := ReceivePrepare(t, line, a, h);
            && p.t.m.wire == t.m.wire && p.t.m.records == t.m.records
            && (p.code == 0 ==>
                 && var r := Commands.ParseUpload(line);
                 r.UploadRequest? && Accepted(t, r.name, r.size, r.perm, a, p.t))
  {
    match Commands.ParseUpload(line)
    case UploadRequest(name, size, perm) =>
      AcceptResult(t.(s := t.s.(file := Some(NewFile(name, perm, a)))), size, a, h);
    case _ =>
  }

  /** What is stored at the end of a conforming upload: what was announced, under the name and with the permissions that
      were asked for. */
  ghost predicate Stored(t: Turn, name: string, perm: Option<Int32>, a: Answers, bytes: Bytes, t': Turn) {
    && t'.s.mode == Description && t'.s.file.Some? && SameClient(t.s, t'.s) && t'.m.records == t.m.records
    && var f := t'.s.file.value;
    && f.name == name && f.size == |bytes| && f.path == PathOf(f.hash) && f.permissions == PermissionsOf(perm, a)
    && f.description == None
    && f.path in t'.m.files && t'.m.files[f.path] == bytes
    && t'.s.fd >= 0 && t'.m.handles - {t'.s.fd} == t.m.handles
  }

  /** Deframing undoes framing on the machine: from the request that declares its size, any admissible cut of a framed
      file leaves the file stored under the name asked for, and the session waits for its description. */
  lemma UploadStored(t: Turn, i: nat, line: string, a: Answers, h: Hash, ls: nat, name: string, perm: Option<Int32>,
                     packages: seq<Package>, answers: seq<Answers>)
    requires SlotOk(t.s, i, t.m) && t.s.mode == Wait && MachineOk(t.m, ls)
    requires 0 < |Payloads(packages)| < OFF_SPAN && Framed(packages)
    requires Commands.ParseUpload(line) == Commands.UploadRequest(name, |Payloads(packages)|, perm)
    requires ReceivePrepare(t, line, a, h).code == 0
    requires AdmissibleRun(Plan([], packages), Reads(answers)) && AllWrites(answers)
    requires Received(Reads(answers)) == Frame(packages)
    ensures var t1 := WithMode(ReceivePrepare(t, line, a, h).t, Upload);
            Stored(t, name, perm, a, Payloads(packages), UploadTurns(t1, answers))
  {
    var t1, p := WithMode(ReceivePrepare(t, line, a, h).t, Upload), Plan([], packages);
    ReceivePrepareConfined(t, i, line, a, h, ls);
    ReceiveResult(t, line, a, h);
    assert Payload(p) == Payloads(packages);
    assert [] + Payloads(packages) == Payloads(packages);
    assert t1.m.handles - {t1.s.fd} == t.m.handles;
    UploadTurnsFollowPlan(t1, i, answers, Announced(p, Payloads(packages), name));
    NothingToCome(p, Reads(answers));
  }

  /** A file whose client packages it full and whose reads are full needs no framing assumption. */
  lemma PackagedUploadStored(t: Turn, i: nat, line: string, a: Answers, h: Hash, ls: nat,
                             name: string, perm: Option<Int32>, file: Bytes, answers: seq<Answers>)
    requires SlotOk(t.s, i, t.m) && t.s.mode == Wait && MachineOk(t.m, ls)
    requires 0 < |file| < OFF_SPAN && Commands.ParseUpload(line) == Commands.UploadRequest(name, |file|, perm)
    requires ReceivePrepare(t, line, a, h).code == 0
    requires FullReads(Frame(Packaged(file)), Reads(answers)) && AllWrites(answers)
    ensures var t1 := WithMode(ReceivePrepare(t, line, a, h).t, Upload);
            Stored(t, name, perm, a, file, UploadTurns(t1, answers))
  {
    PackagedFrames(file);
    var p := Plan([], Packaged(file));
    assert Stream(p) == Frame(Packaged(file));
    AlignedReads(p, Reads(answers));
    UploadStored(t, i, line, a, h, ls, name, perm, Packaged(file), answers);
  }
}
