/** Whole uploads and downloads in the main loop, among any other sessions. */
module LoopTransfers {
  import opened Prelude
  import opened Naming
  import opened Environment
  import opened SessionSpec
  import opened ServerSpec
  import opened Invariant
  import opened Confinement
  import opened Framing
  import opened Deframing
  import opened Aborts
  import opened Uploads
  import opened Alone
  import Commands
  import CommandTurns
  import Descriptions
  import Downloads
  import LineBuffer
  import Overruns
  import Requests
  import Serving

  // ----- uploads -----

  /** What the reads of an upload with descriptor `fd` find, in the iterations in which it is served. */
  function OwnReads(fd: int, i: nat, rounds: seq<Round>): seq<Answers> {
    if rounds == [] then []
    else (if fd in rounds[0].ready then [rounds[0].turns(i)] else []) + OwnReads(fd, i, rounds[1..])
  }

  /** Every read finds a part of the file still to come. */
  predicate Needed(p: Plan, rs: seq<Read>)
    requires AdmissibleRun(p, rs)
    decreases |rs|
  {
    rs == [] || (Payload(p) != [] && Needed(Advance(p, rs[0].chunk), rs[1..]))
  }

  lemma {:induction false} PayloadsCome(later: seq<Package>)
    requires Overruns.NonEmptyPackages(later) && later != []
    ensures Payloads(later) != []
  {
    assert later[0].payload != [];
  }

  /** Without empty packages no read comes too late. */
  lemma {:induction false} AllNeeded(p: Plan, rs: seq<Read>)
    requires Overruns.NonEmptyPackages(p.later) && AdmissibleRun(p, rs)
    ensures Needed(p, rs)
    decreases |rs|
  {
    if rs != [] {
      if p.later != [] {
        PayloadsCome(p.later);
      } else {
        assert Frame(p.later) == [] && Stream(p) == p.cur;
      }
      AllNeeded(Advance(p, rs[0].chunk), rs[1..]);
    }
  }

  /** An upload in progress that keeps to its announcement. */
  ghost predicate Conforms(t: Turn, i: nat, p: Announced) {
    && SlotOk(t.s, i, t.m) && t.s.mode == Upload && Bounded(t.m) && Sound(t.s)
    && PlanOk(p, t.s, t.m) && |p.whole| < OFF_SPAN
  }

  /** The reads of the upload of slot `i` in these iterations keep to the announcement, and the last iteration brings
      the last of them. */
  predicate Arriving(s: Session, i: nat, rounds: seq<Round>, p: Announced) {
    var own := OwnReads(s.fd, i, rounds);
    && rounds != [] && s.fd in rounds[|rounds| - 1].ready
    && AdmissibleRun(p.plan, Reads(own)) && AllWrites(own) && Needed(p.plan, Reads(own))
  }

  lemma IdleRound(s: Session, i: nat, rounds: seq<Round>, p: Announced)
    requires Arriving(s, i, rounds, p) && s.fd !in rounds[0].ready
    ensures OwnReads(s.fd, i, rounds) == OwnReads(s.fd, i, rounds[1..]) && Arriving(s, i, rounds[1..], p)
  {
    assert [] + OwnReads(s.fd, i, rounds[1..]) == OwnReads(s.fd, i, rounds[1..]);
    assert rounds[1..][|rounds| - 2] == rounds[|rounds| - 1];
  }

  lemma {:induction false} LastIsRead(fd: int, i: nat, rounds: seq<Round>)
    requires rounds != [] && fd in rounds[|rounds| - 1].ready
    ensures OwnReads(fd, i, rounds) != []
  {
    if |rounds| > 1 {
      LastIsRead(fd, i, rounds[1..]);
    }
  }

  /** An admissible read that is not the last keeps the upload going, as announced. */
  lemma ReadConforms(t: Turn, i: nat, a: Answers, p: Announced)
    requires Conforms(t, i, p) && Admissible(p.plan, UploadRead(a).chunk) && a.firstWrite && a.secondWrite
    requires Payload(Advance(p.plan, UploadRead(a).chunk)) != []
    ensures FileUpload(t, a).s.fd == t.s.fd
    ensures Conforms(FileUpload(t, a), i, p.(plan := Advance(p.plan, UploadRead(a).chunk)))
  {
    UploadFollowsPlan(t, i, a, p);
    UploadGoesOn(t, i, a, p);
    UploadConfined(t, i, a);
  }

  lemma ReadingRound(s: Session, i: nat, rounds: seq<Round>, p: Announced)
    requires Arriving(s, i, rounds, p) && s.fd in rounds[0].ready
    ensures var a, own, rest := rounds[0].turns(i), OwnReads(s.fd, i, rounds), OwnReads(s.fd, i, rounds[1..]);
            && own == [a] + rest && Reads(own)[1..] == Reads(rest)
            && Admissible(p.plan, UploadRead(a).chunk) && a.firstWrite && a.secondWrite
            && var q := Advance(p.plan, UploadRead(a).chunk);
            |rounds| > 1 ==> Payload(q) != [] && Arriving(s, i, rounds[1..], p.(plan := q))
  {
    var a, own, rest := rounds[0].turns(i), OwnReads(s.fd, i, rounds), OwnReads(s.fd, i, rounds[1..]);
    assert own[1..] == rest && own[0] == a;
    assert Reads(own)[1..] == Reads(rest);
    if |rounds| > 1 {
      LastIsRead(s.fd, i, rounds[1..]);
      var q := Advance(p.plan, UploadRead(a).chunk);
      assert AdmissibleRun(q, Reads(rest)) && Needed(q, Reads(rest));
      assert Reads(rest) != [];
      assert rounds[1..][|rounds| - 2] == rounds[|rounds| - 1];
    }
  }

  /** Served by the loop, an upload is the sequence of its own reads. */
  ghost predicate LikeOwnReads(t: Turn, i: nat, rounds: seq<Round>, h: Hash) {
    && Sound(t.s) && Busy(t, i, rounds, h)
    && Lone(t, i, rounds, h) == Going(UploadTurns(t, OwnReads(t.s.fd, i, rounds)))
  }

  lemma AfterIdleRound(t: Turn, i: nat, rounds: seq<Round>, h: Hash)
    requires rounds != [] && t.s.mode == Upload && t.s.fd !in rounds[0].ready && LikeOwnReads(t, i, rounds[1..], h)
    ensures LikeOwnReads(t, i, rounds, h)
  {
    assert [] + OwnReads(t.s.fd, i, rounds[1..]) == OwnReads(t.s.fd, i, rounds[1..]);
    FirstRound(t, i, rounds, h, t);
  }

  lemma AfterReadingRound(t: Turn, i: nat, rounds: seq<Round>, h: Hash)
    requires Sound(t.s) && rounds != [] && t.s.mode == Upload && t.s.fd >= 0 && t.s.fd in rounds[0].ready
    requires var t1 := FileUpload(t, rounds[0].turns(i));
             |rounds| == 1 || (t1.s.fd == t.s.fd && LikeOwnReads(t1, i, rounds[1..], h))
    ensures LikeOwnReads(t, i, rounds, h)
  {
    var own, rest := OwnReads(t.s.fd, i, rounds), OwnReads(t.s.fd, i, rounds[1..]);
    assert own == [rounds[0].turns(i)] + rest && own[1..] == rest;
    FirstRound(t, i, rounds, h, FileUpload(t, rounds[0].turns(i)));
  }

  lemma {:induction false} AloneUploads(t: Turn, i: nat, rounds: seq<Round>, h: Hash, p: Announced)
    requires Conforms(t, i, p) && Arriving(t.s, i, rounds, p)
    ensures LikeOwnReads(t, i, rounds, h)
    decreases |rounds|
  {
    if t.s.fd !in rounds[0].ready {
      IdleRound(t.s, i, rounds, p);
      AloneUploads(t, i, rounds[1..], h, p);
      AfterIdleRound(t, i, rounds, h);
    } else {
      var a := rounds[0].turns(i);
      ReadingRound(t.s, i, rounds, p);
      if |rounds| > 1 {
        ReadConforms(t, i, a, p);
        AloneUploads(FileUpload(t, a), i, rounds[1..], h, p.(plan := Advance(p.plan, UploadRead(a).chunk)));
      }
      AfterReadingRound(t, i, rounds, h);
    }
  }

  /** An upload that its client has just been allowed: nothing stored, everything to come. */
  predicate JustAllowed(s: Session, m: Machine, size: Size) {
    && s.mode == Upload && s.file.Some? && s.file.value.path in m.files && m.files[s.file.value.path] == []
    && s.file.value.size == s.file.value.rest == size && s.file.value.packageRest == 0
  }

  /** The iterations serve the upload of slot `i` reads that cut the framed packages admissibly, the last of them in the
      last iteration, and its writes succeed. */
  ghost predicate Brings(s: Session, i: nat, rounds: seq<Round>, packages: seq<Package>) {
    var own := OwnReads(s.fd, i, rounds);
    && Framed(packages) && Overruns.NonEmptyPackages(packages)
    && rounds != [] && s.fd in rounds[|rounds| - 1].ready && AllWrites(own)
    && AdmissibleRun(Plan([], packages), Reads(own)) && Received(Reads(own)) == Frame(packages)
  }

  /** The upload on its own: after the last of the iterations the file is complete. */
  lemma AloneStores(t: Turn, i: nat, rounds: seq<Round>, h: Hash, packages: seq<Package>)
    requires SlotOk(t.s, i, t.m) && Sound(t.s) && Bounded(t.m) && 0 < |Payloads(packages)| < OFF_SPAN
    requires JustAllowed(t.s, t.m, |Payloads(packages)|) && Brings(t.s, i, rounds, packages)
    ensures Busy(t, i, rounds, h)
    ensures var x, path := Lone(t, i, rounds, h), t.s.file.value.path;
            && x.s.Some? && x.s.value.mode == Description && SameUpload(t.s, x.s.value)
            && path in x.m.files && x.m.files[path] == Payloads(packages)
  {
    var own, p := OwnReads(t.s.fd, i, rounds), Announced(Plan([], packages), Payloads(packages), t.s.file.value.name);
    assert Payload(p.plan) == Payloads(packages) && [] + Payloads(packages) == Payloads(packages);
    assert Stream(p.plan) == Frame(packages);
    AllNeeded(p.plan, Reads(own));
    AloneUploads(t, i, rounds, h, p);
    UploadTurnsFollowPlan(t, i, own, p);
    NothingToCome(p.plan, Reads(own));
  }

  /** In the main loop, with any other sessions at work and any connections arriving: an upload that has been allowed
      stores exactly the payloads its client sends, and after the iteration with its last read, and not before, the
      session waits for the description. */
  lemma LoopStoresUpload(w: World, rounds: seq<Round>, h: Hash, i: nat, packages: seq<Package>)
    requires Inv(w) && i < MAX_CONNECTIONS && w.slots[i].Some? && Shaped(w)
    requires 0 < |Payloads(packages)| < OFF_SPAN && JustAllowed(w.slots[i].value, w.m, |Payloads(packages)|)
    requires Brings(w.slots[i].value, i, rounds, packages)
    ensures var s, w' := w.slots[i].value, Run(w, rounds, h);
            && w'.slots[i].Some? && w'.slots[i].value.mode == Description && SameUpload(s, w'.slots[i].value)
            && s.file.value.path in w'.m.files && w'.m.files[s.file.value.path] == Payloads(packages)
  {
    var t := Turn(w.slots[i].value, w.m);
    assert SlotOk(t.s, i, t.m);
    AloneStores(t, i, rounds, h, packages);
    AsIfAlone(w, rounds, h, i);
  }

  lemma {:induction false} PackagedNonEmpty(file: Bytes)
    ensures Overruns.NonEmptyPackages(Packaged(file))
  {
    if file != [] {
      PackagedNonEmpty(file[|Take(file, PACKAGE_SIZE)|..]);
    }
  }

  /** A file that its client sends in full packages and that arrives in full reads needs no assumption on the framing.
      */
  lemma LoopStoresFile(w: World, rounds: seq<Round>, h: Hash, i: nat, file: Bytes)
    requires Inv(w) && i < MAX_CONNECTIONS && w.slots[i].Some? && Shaped(w)
    requires 0 < |file| < OFF_SPAN && JustAllowed(w.slots[i].value, w.m, |file|)
    requires var s := w.slots[i].value;
             && rounds != [] && s.fd in rounds[|rounds| - 1].ready
             && FullReads(Frame(Packaged(file)), Reads(OwnReads(s.fd, i, rounds)))
             && AllWrites(OwnReads(s.fd, i, rounds))
    ensures var s, w' := w.slots[i].value, Run(w, rounds, h);
            && w'.slots[i].Some? && w'.slots[i].value.mode == Description && SameUpload(s, w'.slots[i].value)
            && s.file.value.path in w'.m.files && w'.m.files[s.file.value.path] == file
  {
    PackagedFrames(file);
    PackagedNonEmpty(file);
    var p := Plan([], Packaged(file));
    assert Stream(p) == Frame(Packaged(file));
    AlignedReads(p, Reads(OwnReads(w.slots[i].value.fd, i, rounds)));
    LoopStoresUpload(w, rounds, h, i, Packaged(file));
  }

  // ----- downloads -----

  /** In this iteration the file of slot `i` is ready and read in full, and its client, whenever it is asked, confirms
      with the same line. */
  predicate Obliges(r: Round, s: Session, i: nat, p: nat) {
    && s.fd in r.ready && i in r.ready
    && Downloads.FullService(r.turns(i)) && r.turns(i).text == Commands.PrintContinue(p)
  }

  /** Which full answers a call gets makes no difference. */
  lemma FullServiceAlike(t: Turn, a: Answers, b: Answers)
    requires t.s.file.Some? && Downloads.FullService(a) && Downloads.FullService(b)
    ensures FileDownload(t, a) == FileDownload(t, b)
  {
  }

  function Pow10(k: nat): nat {
    if k == 0 then 1 else 10 * Pow10(k - 1)
  }

  lemma {:induction false} DecimalLength(n: nat, k: nat)
    requires k > 0 && n < Pow10(k)
    ensures |Commands.Decimal(n)| <= k
  {
    if n >= 10 {
      assert k > 1;
      DecimalLength(n / 10, k - 1);
    }
  }

  lemma TenDigits()
    ensures INT_MAX < Pow10(10)
  {
    assert Pow10(5) == 100000;
    assert Pow10(10) == 100000 * Pow10(5);
  }

  lemma ContinueIsLine(p: nat)
    requires p <= INT_MAX
    ensures var line := Commands.PrintContinue(p);
            Descriptions.Whole(line) && LineBuffer.Chomp(line) == line && |line| <= INBUFSIZE
  {
    var line, digits := Commands.PrintContinue(p), Commands.Decimal(p);
    TenDigits();
    DecimalLength(p, 10);
    Commands.DigitsHoldNo('\n', p);
    Commands.DigitsHoldNo(LineBuffer.NUL, p);
    assert line == "continue" + (" " + digits) + "\n" && line[..|line| - 1] == "continue" + (" " + digits);
    assert digits[|digits| - 1] == line[|line| - 2] && Commands.IsDigit(digits[|digits| - 1]);
  }

  /** The confirmation of a client arrives as one line. */
  lemma ContinueArrives(s: Session, a: Answers, p: nat)
    requires s.text == "" && a.text == Commands.PrintContinue(p) && p <= INT_MAX
    ensures ReadLine(s, a) == (s, Some(a.text))
  {
    ContinueIsLine(p);
    assert a.text + "" == a.text;
    Requests.WholeLineArrives(s, a, a.text, "");
    assert s.(text := "") == s;
  }

  lemma ReplyTurn(t: Turn, i: nat, a: Answers, line: string, readable: set<int>, h: Hash)
    requires Sound(t.s) && t.s.mode == Confirm && i in readable && ReadLine(t.s, a) == (t.s, Some(line))
    requires DownloadConfirm(t, line).s.mode == Download
    ensures SlotTurn(t, i, readable, a, h) == Going(DownloadConfirm(t, line))
  {
  }

  /** One obliging iteration is one step of the download driven by full reads and prompt confirmations. */
  lemma DriveStep(t: Turn, i: nat, a: Answers, b: Answers, p: nat, readable: set<int>, h: Hash)
    requires SlotOk(t.s, i, t.m) && Sound(t.s) && Downloading(t.s) && t.s.text == "" && 0 < p <= INT_MAX
    requires t.s.fd in readable && i in readable && Downloads.FullService(a) && Downloads.FullService(b)
    requires b.text == Commands.PrintContinue(p)
    ensures SlotTurn(t, i, readable, b, h)
            == Going(if t.s.mode == Download then FileDownload(t, a) else DownloadConfirm(t, Commands.PrintContinue(p)))
  {
    if t.s.mode == Download {
      FullServiceAlike(t, a, b);
    } else {
      ContinueArrives(t.s, b, p);
      Downloads.ConfirmAlone(t, i, p, DownloadConfirm(t, b.text));
      ReplyTurn(t, i, b, b.text, readable, h);
    }
  }

  predicate AllOblige(rounds: seq<Round>, s: Session, i: nat, p: nat) {
    forall k | 0 <= k < |rounds| :: Obliges(rounds[k], s, i, p)
  }

  /** A download that can be driven. */
  ghost predicate Drivable(t: Turn, i: nat, a: Answers, p: nat) {
    && SlotOk(t.s, i, t.m) && Downloading(t.s) && Bounded(t.m) && Downloads.FullService(a) && 0 < p <= INT_MAX
    && t.s.file.value.rest > 0 && (t.s.mode == Download ==> t.s.file.value.packageRest > 0)
    && Sound(t.s) && t.s.text == ""
  }

  /** One step on, it still can, unless it is over. */
  lemma DrivenOn(t: Turn, i: nat, a: Answers, p: nat)
    requires Drivable(t, i, a, p)
    ensures var t1 := if t.s.mode == Download then FileDownload(t, a)
                      else DownloadConfirm(t, Commands.PrintContinue(p));
            var d := Downloads.Drive(t, i, a, p);
            if t.s.mode == Download && t1.s.mode == Wait then d == Downloads.Tally(1, 0, t1)
            else
              && Drivable(t1, i, a, p) && t1.s.fd == t.s.fd
              && var later := Downloads.Drive(t1, i, a, p);
              && d.t == later.t && d.calls + d.confirmations == later.calls + later.confirmations + 1
              && (t1.s.file.value.rest < t.s.file.value.rest
                  || (t1.s.file.value.rest == t.s.file.value.rest && t.s.mode == Confirm && t1.s.mode == Download))
  {
    if t.s.mode == Download {
      Downloads.FullCall(t, i, a);
      Downloads.FullPiece(t, i, a);
      Downloads.ServeResult(t, i, a);
    } else {
      var line := Commands.PrintContinue(p);
      ConfirmConfined(t, i, line);
      Downloads.ConfirmAlone(t, i, p, DownloadConfirm(t, line));
    }
  }

  /** Each iteration is one call or one confirmation. */
  lemma {:induction false} LoneDrives(t: Turn, i: nat, a: Answers, p: nat, rounds: seq<Round>, h: Hash)
    requires Drivable(t, i, a, p) && AllOblige(rounds, t.s, i, p)
    requires var d := Downloads.Drive(t, i, a, p); |rounds| == d.calls + d.confirmations
    ensures Busy(t, i, rounds, h) && Lone(t, i, rounds, h) == Going(Downloads.Drive(t, i, a, p).t)
    decreases t.s.file.value.rest, t.s.mode == Confirm
  {
    var t1 := if t.s.mode == Download then FileDownload(t, a) else DownloadConfirm(t, Commands.PrintContinue(p));
    DrivenOn(t, i, a, p);
    assert rounds != [] && Obliges(rounds[0], t.s, i, p);
    DriveStep(t, i, a, rounds[0].turns(i), p, rounds[0].ready, h);
    FirstRound(t, i, rounds, h, t1);
    if t.s.mode == Download && t1.s.mode == Wait {
      assert rounds[1..] == [];
    } else {
      LoneDrives(t1, i, a, p, rounds[1..], h);
    }
  }

  lemma {:induction false} CeilPositive(x: int, d: int)
    requires d > 0 && x > 0
    ensures Downloads.CeilDiv(x, d) >= 1
    decreases x
  {
    Downloads.CeilDivStep(x, d);
    if x > d {
      CeilPositive(x - d, d);
    }
  }

  /** A non-empty file needs at least one call. */
  lemma NoneNeeded(f: File, p: nat)
    requires f.rest > 0 && f.packageRest > 0 && p > 0
    ensures Downloads.CallsNeeded(f.rest, f.packageRest, p) > 0
    ensures Downloads.ConfirmationsNeeded(f.rest, f.packageRest, p) >= 0
  {
    Downloads.CountsStep(f.rest, f.packageRest, p);
    if f.rest > f.packageRest {
      CeilPositive(f.rest - f.packageRest, p);
    }
  }

  /** In the main loop, with any other sessions at work and any connections arriving: a download of a non-empty file
      that is always ready and whose client always confirms with the same N from 1 on is over after exactly as many
      iterations as its packages take calls and confirmations, and its client has got all the rest of the file. */
  lemma LoopDelivers(w: World, rounds: seq<Round>, h: Hash, i: nat, p: nat)
    requires Inv(w) && i < MAX_CONNECTIONS && w.slots[i].Some? && Shaped(w) && 0 < p <= INT_MAX
    requires var s := w.slots[i].value;
             && s.mode == Download && s.text == "" && s.file.value.rest > 0 && s.file.value.packageRest > 0
             && AllOblige(rounds, s, i, p)
             && var f := s.file.value;
             |rounds| == Downloads.CallsNeeded(f.rest, f.packageRest, p)
                         + Downloads.ConfirmationsNeeded(f.rest, f.packageRest, p)
    ensures i in w.m.wire && w.slots[i].value.file.value.path in w.m.files
    ensures var s, w' := w.slots[i].value, Run(w, rounds, h);
            && w'.slots[i].Some? && Forgotten(w'.slots[i].value) && i in w'.m.wire
            && 0 <= Downloads.Sent(s) <= |w.m.files[s.file.value.path]|
            && w'.m.wire[i] == w.m.wire[i] + w.m.files[s.file.value.path][Downloads.Sent(s)..]
  {
    var t := Turn(w.slots[i].value, w.m);
    assert SlotOk(t.s, i, t.m);
    if rounds == [] {
      NoneNeeded(t.s.file.value, p);
    } else {
      var a := rounds[0].turns(i);
      assert Obliges(rounds[0], t.s, i, p);
      Downloads.DriveCounts(t, i, a, p);
      LoneDrives(t, i, a, p, rounds, h);
      AsIfAlone(w, rounds, h, i);
    }
  }
}
