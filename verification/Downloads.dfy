/** The sending side: what a client has received at every moment, and how long a download takes. */
module Downloads {
  import opened Prelude
  import opened Naming
  import opened Environment
  import opened SessionSpec
  import opened Invariant
  import opened Confinement
  import Commands

  /** What can happen to a download: the loop serves it, or its client sends a line. */
  datatype Event = Serve(answers: Answers) | Reply(line: string)

  /** A download is served while it sends and listens while it waits for a confirmation. */
  function Happen(t: Turn, e: Event): Turn
    requires FileHeld(t.s)
  {
    if e.Serve? && t.s.mode == Download then FileDownload(t, e.answers)
    else if e.Reply? && t.s.mode == Confirm then DownloadConfirm(t, e.line)
    else t
  }

  /** The credit that this event adds. */
  function Granted(t: Turn, e: Event): nat {
    if e.Reply? && t.s.mode == Confirm then
      var answer := Commands.ParseConfirmation(e.line);
      if answer.Continue? then answer.credit else 0
    else 0
  }

  function Content(t: Turn): Bytes
    requires t.s.file.Some? && t.s.file.value.path in t.m.files
  {
    t.m.files[t.s.file.value.path]
  }

  /** How many bytes of the file have been sent. */
  function Sent(s: Session): int
    requires s.file.Some?
  {
    s.file.value.size - s.file.value.rest
  }

  /** Both sessions are in the same download of the same file. */
  ghost predicate SameDownload(t: Turn, t': Turn) {
    && t.s.file.Some? && t'.s.file.Some?
    && t'.s.file.value.path == t.s.file.value.path && t'.s.file.value.size == t.s.file.value.size
    && t'.m.files == t.m.files
  }

  /** What a sent piece means for the session and its client. */
  lemma SendingResult(t: Turn, data: Bytes)
    requires t.s.file.Some? && t.s.fd >= 0 && t.s.sd >= 0 && t.s.sd in t.m.wire
    requires 0 < |data| <= t.s.file.value.rest && |data| <= t.s.file.value.packageRest
    ensures var d, f, n := Deliver(t, data, true), t.s.file.value, |data|;
            && d.m.wire == t.m.wire[t.s.sd := t.m.wire[t.s.sd] + data]
            && d.m.files == t.m.files
            && d.s == if n == f.rest then t.s.(file := None, fd := -1, mode := Wait)
                      else WithCounters(t.s, f.rest - n, f.packageRest - n)
                           .(mode := if n == f.packageRest then Confirm else t.s.mode)
  {
    DeliverResult(t, data);
  }

  /** The piece of the file that a call of `file_download` gets from its read. */
  function Piece(t: Turn, a: Answers): Bytes
    requires t.s.file.Some?
  {
    var f := t.s.file.value;
    if f.packageRest == 0 then [] else FileData(t.m, t.s.fd, Wanted(f.rest, f.packageRest), a.short)
  }

  /** A call of `file_download` sends its piece, or nothing when the read or the write fails. */
  lemma ServeResult(t: Turn, i: nat, a: Answers)
    requires SlotOk(t.s, i, t.m) && t.s.mode == Download
    ensures var t', f, data := FileDownload(t, a), t.s.file.value, Piece(t, a);
            && t'.m.files == t.m.files && i in t'.m.wire
            && |data| <= f.rest && |data| <= f.packageRest
            && data == Content(t)[Sent(t.s)..Sent(t.s) + |data|]
            && (if data != [] && a.firstWrite then
                  && t'.m.wire[i] == t.m.wire[i] + data
                  && t'.s == if |data| == f.rest then t.s.(file := None, fd := -1, mode := Wait)
                             else WithCounters(t.s, f.rest - |data|, f.packageRest - |data|)
                                  .(mode := if |data| == f.packageRest then Confirm else Download)
                else
                  && t'.m.wire == t.m.wire
                  && (Downloading(t'.s) ==> t'.s == t.s.(mode := Confirm) && f.packageRest == 0))
  {
    DataWithinCounters(t.s, t.m, a.short);
    var data := Piece(t, a);
    if data != [] {
      if a.firstWrite {
        SendingResult(t.(m := SkipFile(t.m, t.s.fd, |data|)), data);
      }
    }
  }

  /** How a call ends that sends nothing: it pauses for want of credit; it gives the file up if nothing can be read of
      it, or if the write fails, and then its descriptor is closed; or there is nothing left of an empty file. */
  lemma NothingSent(t: Turn, i: nat, a: Answers)
    requires SlotOk(t.s, i, t.m) && t.s.mode == Download && (Piece(t, a) == [] || !a.firstWrite)
    ensures var t', f, s := FileDownload(t, a), t.s.file.value, t.s;
            var released := t.m.(handles := t.m.handles - {t.s.fd});
            t' == if f.packageRest == 0 then Turn(s.(mode := Confirm), t.m)
                  else if Piece(t, a) != [] then Turn(s.(mode := Err, file := None, fd := -1), released)
                  else if f.rest > 0 then Turn(s.(mode := Wait, file := None, fd := -1), released)
                  else Turn(s.(mode := Wait), t.m)
  {
    assert CloseHandle(t.m, t.s.fd).handles == t.m.handles - {t.s.fd};
    var data := Piece(t, a);
    assert CloseHandle(SkipFile(t.m, t.s.fd, |data|), t.s.fd).handles == t.m.handles - {t.s.fd};
  }

  lemma DeliverMoves(t: Turn, data: Bytes)
    requires DownloadOk(t.s, t.m) && t.s.mode == Download
    requires 0 < |data| <= t.s.file.value.rest && |data| <= t.s.file.value.packageRest
    ensures var f, n := t.s.file.value, |data|;
            Deliver(t.(m := SkipFile(t.m, t.s.fd, n)), data, true).m.handles
            == if n == f.rest then t.m.handles - {t.s.fd}
               else t.m.handles[t.s.fd := OpenFile(f.path, Sent(t.s) + n)]
  {
    var m1 := SkipFile(t.m, t.s.fd, |data|);
    DeliverResult(t.(m := m1), data);
    assert CloseHandle(Send(m1, t.s.sd, data), t.s.fd).handles == t.m.handles - {t.s.fd};
  }

  /** A call that sends a piece moves the descriptor on by as much, or closes it behind the last piece. */
  lemma SendingMoves(t: Turn, i: nat, a: Answers)
    requires SlotOk(t.s, i, t.m) && t.s.mode == Download && Piece(t, a) != [] && a.firstWrite
    ensures var t', f, n := FileDownload(t, a), t.s.file.value, |Piece(t, a)|;
            t'.m.handles == if n == f.rest then t.m.handles - {t.s.fd}
                            else t.m.handles[t.s.fd := OpenFile(f.path, Sent(t.s) + n)]
  {
    DataWithinCounters(t.s, t.m, a.short);
    DeliverMoves(t, Piece(t, a));
  }

  /** Within one download the client has got the next bytes of the file, no counter has wrapped, and bytes sent plus
      credit left have grown by exactly the credit granted. */
  ghost predicate Progress(t: Turn, i: nat, t': Turn, granted: int)
    requires t.s.file.Some? && t.s.file.value.path in t.m.files && 0 <= Sent(t.s) && i in t.m.wire
  {
    var from := Sent(t.s);
    && SameDownload(t, t') && from <= Sent(t'.s) <= |Content(t)|
    && i in t'.m.wire && t'.m.wire[i] == t.m.wire[i] + Content(t)[from..Sent(t'.s)]
    && Sent(t'.s) + t'.s.file.value.packageRest == from + t.s.file.value.packageRest + granted
  }

  lemma ServeProgress(t: Turn, i: nat, a: Answers)
    requires SlotOk(t.s, i, t.m) && t.s.mode == Download
    ensures var t', from := FileDownload(t, a), Sent(t.s);
            if Downloading(t'.s) then Progress(t, i, t', 0)
            else i in t'.m.wire && (t'.m.wire[i] == t.m.wire[i] || t'.m.wire[i] == t.m.wire[i] + Content(t)[from..])
  {
    ServeResult(t, i, a);
    var c, from := Content(t), Sent(t.s);
    assert c[from..from] == [];
    assert c[from..|c|] == c[from..];
  }

  lemma ReplyProgress(t: Turn, i: nat, line: string)
    requires SlotOk(t.s, i, t.m) && t.s.mode == Confirm
    ensures var t' := DownloadConfirm(t, line);
            t'.m.wire == t.m.wire && (Downloading(t'.s) ==> Progress(t, i, t', Granted(t, Reply(line))))
  {
    assert Content(t)[Sent(t.s)..Sent(t.s)] == [];
  }

  /** One event makes such progress. A download that is over either sent everything or sent nothing more. */
  lemma EventSendsNext(t: Turn, i: nat, e: Event)
    requires SlotOk(t.s, i, t.m) && Downloading(t.s) && Bounded(t.m)
    ensures SlotOk(Happen(t, e).s, i, Happen(t, e).m) && Bounded(Happen(t, e).m)
    ensures var t' := Happen(t, e);
            if Downloading(t'.s) then Progress(t, i, t', Granted(t, e))
            else t'.m.wire[i] == t.m.wire[i] || t'.m.wire[i] == t.m.wire[i] + Content(t)[Sent(t.s)..]
  {
    if e.Serve? && t.s.mode == Download {
      DownloadConfined(t, i, e.answers);
      ServeProgress(t, i, e.answers);
    } else if e.Reply? && t.s.mode == Confirm {
      ConfirmConfined(t, i, e.line);
      ReplyProgress(t, i, e.line);
    } else {
      assert Content(t)[Sent(t.s)..Sent(t.s)] == [];
    }
  }

  function Happens(t: Turn, events: seq<Event>): Turn
    requires FileHeld(t.s)
    decreases |events|
  {
    if events == [] then t
    else
      HappenHolds(t, events[0]);
      Happens(Happen(t, events[0]), events[1..])
  }

  lemma HappenHolds(t: Turn, e: Event)
    requires FileHeld(t.s)
    ensures FileHeld(Happen(t, e).s)
  {
  }

  /** All the credit granted while events happen. */
  function AllGranted(t: Turn, events: seq<Event>): nat
    requires FileHeld(t.s)
    decreases |events|
  {
    if events == [] then 0
    else
      HappenHolds(t, events[0]);
      Granted(t, events[0]) + AllGranted(Happen(t, events[0]), events[1..])
  }

  lemma ProgressChains(t: Turn, i: nat, t1: Turn, first: int, t2: Turn, second: int)
    requires t.s.file.Some? && t.s.file.value.path in t.m.files && 0 <= Sent(t.s) && i in t.m.wire
    requires Progress(t, i, t1, first) && Progress(t1, i, t2, second)
    ensures Progress(t, i, t2, first + second)
  {
    var c, from, mid, to := Content(t), Sent(t.s), Sent(t1.s), Sent(t2.s);
    assert c[from..to] == c[from..mid] + c[mid..to];
  }

  /** At every moment of a download the client holds a prefix of the file, and at each pause its length is the
      first package plus all the credit confirmed since, whatever the client answers and however short the reads. */
  lemma {:induction false} PrefixAndCredit(t: Turn, i: nat, events: seq<Event>)
    requires SlotOk(t.s, i, t.m) && Downloading(t.s) && Bounded(t.m)
    ensures var t' := Happens(t, events);
            Downloading(t'.s) ==>
              && Progress(t, i, t', AllGranted(t, events))
              && (t'.s.mode == Confirm ==> Sent(t'.s) == Sent(t.s) + t.s.file.value.packageRest + AllGranted(t, events))
    decreases |events|
  {
    if events != [] {
      var t1 := Happen(t, events[0]);
      EventSendsNext(t, i, events[0]);
      if Downloading(t1.s) {
        PrefixAndCredit(t1, i, events[1..]);
        var t' := Happens(t1, events[1..]);
        if Downloading(t'.s) {
          ProgressChains(t, i, t1, Granted(t, events[0]), t', AllGranted(t1, events[1..]));
        }
      } else {
        OverForGood(t1, events[1..]);
      }
    } else {
      assert Content(t)[Sent(t.s)..Sent(t.s)] == [];
    }
  }

  lemma {:induction false} OverForGood(t: Turn, events: seq<Event>)
    requires FileHeld(t.s) && !Downloading(t.s)
    ensures Happens(t, events) == t
    decreases |events|
  {
    if events != [] {
      OverForGood(t, events[1..]);
    }
  }

  // ----- how long a download takes -----

  function CeilDiv(x: int, d: int): int
    requires d > 0
  {
    (x + d - 1) / d
  }

  lemma {:induction false} TimesMonotone(a: int, b: int, d: nat)
    requires a <= b
    ensures a * d <= b * d
    decreases b - a
  {
    if a < b {
      TimesMonotone(a, b - 1, d);
      assert b * d == (b - 1) * d + d;
    }
  }

  lemma Quotient(x: int, d: int, q: int)
    requires d > 0 && q * d <= x < q * d + d
    ensures x / d == q
  {
    var p, e: nat := x / d, d;
    assert x == p * d + x % d;
    assert (p + 1) * d == p * d + d && (q + 1) * d == q * d + d;
    if p < q {
      TimesMonotone(p + 1, q, e);
    }
  }

  lemma CeilDivStep(x: int, d: int)
    requires d > 0 && x > 0
    ensures CeilDiv(x, d) == if x <= d then 1 else 1 + CeilDiv(x - d, d)
  {
    if x <= d {
      Quotient(x + d - 1, d, 1);
    } else {
      var q := (x - 1) / d;
      assert q * d <= x - 1 < q * d + d;
      assert (q + 1) * d == q * d + d;
      Quotient(x + d - 1, d, q + 1);
    }
  }

  /** Calls of `file_download` for `rest` bytes when `packageRest` may be sent now and `p` after each pause. */
  function CallsNeeded(rest: nat, packageRest: nat, p: nat): nat
    requires p > 0
    decreases rest, if packageRest == 0 then 1 else 0
  {
    if rest <= packageRest then CeilDiv(rest, INBUFSIZE)
    else CeilDiv(packageRest, INBUFSIZE) + CallsNeeded(rest - packageRest, p, p)
  }

  function ConfirmationsNeeded(rest: int, packageRest: int, p: nat): int
    requires p > 0
  {
    if rest <= packageRest then 0 else CeilDiv(rest - packageRest, p)
  }

  /** What one full call takes off the counts. */
  lemma CountsStep(rest: nat, packageRest: nat, p: nat)
    requires rest > 0 && packageRest > 0 && p > 0
    ensures var n := Min(INBUFSIZE, Min(rest, packageRest));
            if n == rest then
              CallsNeeded(rest, packageRest, p) == 1 && ConfirmationsNeeded(rest, packageRest, p) == 0
            else if n == packageRest then
              && CallsNeeded(rest, packageRest, p) == 1 + CallsNeeded(rest - n, p, p)
              && ConfirmationsNeeded(rest, packageRest, p) == 1 + ConfirmationsNeeded(rest - n, p, p)
            else
              && CallsNeeded(rest, packageRest, p) == 1 + CallsNeeded(rest - n, packageRest - n, p)
              && ConfirmationsNeeded(rest, packageRest, p) == ConfirmationsNeeded(rest - n, packageRest - n, p)
  {
    CeilDivStep(rest, INBUFSIZE);
    CeilDivStep(packageRest, INBUFSIZE);
    if rest > packageRest {
      CeilDivStep(rest - packageRest, p);
    }
  }

  /** A download driven to its end by full reads and a client that always confirms with the same line. */
  datatype Tally = Tally(calls: nat, confirmations: nat, t: Turn)

  predicate FullService(a: Answers) {
    a.short >= INBUFSIZE && a.firstWrite
  }

  /** What a call that is not cut short does, seen from the session and its client. */
  ghost predicate OneCall(t: Turn, i: nat, t1: Turn)
    requires t.s.file.Some? && t.s.file.value.path in t.m.files && i in t.m.wire && 0 <= Sent(t.s)
  {
    var f := t.s.file.value;
    var n := Min(INBUFSIZE, Min(f.rest, f.packageRest));
    && (if n == f.rest then t1.s.mode == Wait && t1.s.file == None && t1.s.fd == -1
        else
          && t1.s.mode == (if n == f.packageRest then Confirm else Download)
          && t1.s.file == Some(f.(rest := f.rest - n, packageRest := f.packageRest - n))
          && t1.m.files == t.m.files)
    && Sent(t.s) + n <= |Content(t)|
    && i in t1.m.wire && t1.m.wire[i] == t.m.wire[i] + Content(t)[Sent(t.s)..Sent(t.s) + n]
  }

  lemma FullPiece(t: Turn, i: nat, a: Answers)
    requires SlotOk(t.s, i, t.m) && t.s.mode == Download && FullService(a)
    requires t.s.file.value.rest > 0 && t.s.file.value.packageRest > 0
    ensures |Piece(t, a)| == Min(INBUFSIZE, Min(t.s.file.value.rest, t.s.file.value.packageRest))
  {
  }

  lemma FullResult(t: Turn, i: nat, a: Answers)
    requires SlotOk(t.s, i, t.m) && t.s.mode == Download && FullService(a)
    requires t.s.file.value.rest > 0 && t.s.file.value.packageRest > 0
    ensures OneCall(t, i, FileDownload(t, a))
  {
    ServeResult(t, i, a);
    FullPiece(t, i, a);
  }

  lemma FullCall(t: Turn, i: nat, a: Answers)
    requires SlotOk(t.s, i, t.m) && t.s.mode == Download && Bounded(t.m) && FullService(a)
    requires t.s.file.value.rest > 0 && t.s.file.value.packageRest > 0
    ensures SlotOk(FileDownload(t, a).s, i, FileDownload(t, a).m) && Bounded(FileDownload(t, a).m)
    ensures OneCall(t, i, FileDownload(t, a))
  {
    DownloadConfined(t, i, a);
    FullResult(t, i, a);
  }

  function Drive(t: Turn, i: nat, a: Answers, p: nat): Tally
    requires SlotOk(t.s, i, t.m) && Downloading(t.s) && Bounded(t.m) && FullService(a) && 0 < p <= INT_MAX
    requires t.s.file.value.rest > 0 && (t.s.mode == Download ==> t.s.file.value.packageRest > 0)
    decreases t.s.file.value.rest, t.s.mode == Confirm
  {
    if t.s.mode == Download then
      FullCall(t, i, a);
      var t1 := FileDownload(t, a);
      if t1.s.mode == Wait then Tally(1, 0, t1)
      else
        var later := Drive(t1, i, a, p);
        later.(calls := later.calls + 1)
    else
      ConfirmConfined(t, i, Commands.PrintContinue(p));
      Commands.ContinueRoundTrip(p);
      var later := Drive(DownloadConfirm(t, Commands.PrintContinue(p)), i, a, p);
      later.(confirmations := later.confirmations + 1)
  }

  /** The counts from here on: a pause costs the confirmation that ends it. */
  predicate Counted(f: File, mode: Mode, p: nat, d: Tally)
    requires p > 0
  {
    if mode == Confirm then
      d.calls == CallsNeeded(f.rest, p, p) && d.confirmations == 1 + ConfirmationsNeeded(f.rest, p, p)
    else
      && d.calls == CallsNeeded(f.rest, f.packageRest, p)
      && d.confirmations == ConfirmationsNeeded(f.rest, f.packageRest, p)
  }

  /** The session is through with the file and its client holds the rest of it. */
  ghost predicate Delivered(t: Turn, i: nat, d: Turn)
    requires i in t.m.wire && t.s.file.Some? && t.s.file.value.path in t.m.files && 0 <= Sent(t.s) <= |Content(t)|
  {
    && d.s.mode == Wait && d.s.file == None && d.s.fd == -1
    && i in d.m.wire && d.m.wire[i] == t.m.wire[i] + Content(t)[Sent(t.s)..]
  }

  /** The counts of a full call, given those of what follows it. */
  lemma CountedStep(f: File, p: nat, later: Tally)
    requires p > 0 && f.rest > 0 && f.packageRest > 0
    ensures var n := Min(INBUFSIZE, Min(f.rest, f.packageRest));
            if n == f.rest then Counted(f, Download, p, Tally(1, 0, later.t))
            else Counted(f.(rest := f.rest - n, packageRest := f.packageRest - n),
                         if n == f.packageRest then Confirm else Download, p, later)
                 ==> Counted(f, Download, p, later.(calls := later.calls + 1))
  {
    CountsStep(f.rest, f.packageRest, p);
  }

  lemma CallCounts(t: Turn, i: nat, t1: Turn, p: nat, later: Tally)
    requires t.s.file.Some? && t.s.file.value.path in t.m.files && i in t.m.wire && 0 <= Sent(t.s)
    requires t.s.file.value.rest > 0 && t.s.file.value.packageRest > 0 && p > 0
    requires t.s.file.value.size == |Content(t)| && OneCall(t, i, t1)
    requires t1.s.mode != Wait ==> Counted(t1.s.file.value, t1.s.mode, p, later) && Delivered(t1, i, later.t)
    ensures var d := if t1.s.mode == Wait then Tally(1, 0, t1) else later.(calls := later.calls + 1);
            Counted(t.s.file.value, Download, p, d) && Delivered(t, i, d.t)
  {
    var f, c, from := t.s.file.value, Content(t), Sent(t.s);
    var n := Min(INBUFSIZE, Min(f.rest, f.packageRest));
    if t1.s.mode == Wait {
      CountedStep(f, p, Tally(1, 0, t1));
      assert c[from..from + n] == c[from..];
    } else {
      CountedStep(f, p, later);
      assert c[from..] == c[from..from + n] + c[from + n..];
    }
  }

  lemma ConfirmAlone(t: Turn, i: nat, p: nat, t1: Turn)
    requires SlotOk(t.s, i, t.m) && t.s.mode == Confirm && 0 < p <= INT_MAX
    requires t1 == DownloadConfirm(t, Commands.PrintContinue(p))
    ensures t1 == Turn(WithCounters(t.s, t.s.file.value.rest, p).(mode := Download), t.m)
  {
    Commands.ContinueRoundTrip(p);
  }

  /** Exact counts for any non-empty file, and delivery of all of it. */
  lemma {:induction false} DriveCounts(t: Turn, i: nat, a: Answers, p: nat)
    requires SlotOk(t.s, i, t.m) && Downloading(t.s) && Bounded(t.m) && FullService(a) && 0 < p <= INT_MAX
    requires t.s.file.value.rest > 0 && (t.s.mode == Download ==> t.s.file.value.packageRest > 0)
    ensures Counted(t.s.file.value, t.s.mode, p, Drive(t, i, a, p)) && Delivered(t, i, Drive(t, i, a, p).t)
    decreases t.s.file.value.rest, t.s.mode == Confirm
  {
    if t.s.mode == Download {
      FullCall(t, i, a);
      var t1 := FileDownload(t, a);
      if t1.s.mode == Wait {
        CallCounts(t, i, t1, p, Tally(1, 0, t1));
      } else {
        DriveCounts(t1, i, a, p);
        CallCounts(t, i, t1, p, Drive(t1, i, a, p));
      }
    } else {
      var line := Commands.PrintContinue(p);
      var t1 := DownloadConfirm(t, line);
      ConfirmConfined(t, i, line);
      ConfirmAlone(t, i, p, t1);
      DriveCounts(t1, i, a, p);
    }
  }

  lemma FullCallReleases(t: Turn, i: nat, a: Answers)
    requires SlotOk(t.s, i, t.m) && t.s.mode == Download && FullService(a)
    requires t.s.file.value.rest > 0 && t.s.file.value.packageRest > 0
    ensures var t1 := FileDownload(t, a);
            if t1.s.mode == Wait then t1.m.handles == t.m.handles - {t.s.fd}
            else t1.s.fd == t.s.fd && t1.m.handles - {t.s.fd} == t.m.handles - {t.s.fd}
  {
    FullPiece(t, i, a);
    ServeResult(t, i, a);
    SendingMoves(t, i, a);
  }

  /** At the end the descriptor is closed, and no other has changed. */
  lemma {:induction false} DriveReleases(t: Turn, i: nat, a: Answers, p: nat)
    requires SlotOk(t.s, i, t.m) && Downloading(t.s) && Bounded(t.m) && FullService(a) && 0 < p <= INT_MAX
    requires t.s.file.value.rest > 0 && (t.s.mode == Download ==> t.s.file.value.packageRest > 0)
    ensures Drive(t, i, a, p).t.m.handles == t.m.handles - {t.s.fd}
    decreases t.s.file.value.rest, t.s.mode == Confirm
  {
    if t.s.mode == Download {
      FullCall(t, i, a);
      FullCallReleases(t, i, a);
      var t1 := FileDownload(t, a);
      if t1.s.mode != Wait {
        DriveReleases(t1, i, a, p);
      }
    } else {
      var line := Commands.PrintContinue(p);
      ConfirmConfined(t, i, line);
      ConfirmAlone(t, i, p, DownloadConfirm(t, line));
      DriveReleases(DownloadConfirm(t, line), i, a, p);
    }
  }

  // ----- from the request -----

  /** A download that has just been granted: of the record that the lookup picked, under the name that was asked for,
      with nothing sent and the first package as credit. */
  ghost predicate Granting(t: Turn, line: string, a: Answers, t1: Turn, i: nat) {
    && a.found < |t.m.records|
    && var r := t.m.records[a.found];
    && Commands.ParseDownload(line) == Commands.DownloadRequest(r.name)
    && SlotOk(t1.s, i, t1.m) && Bounded(t1.m) && t1.s.mode == Download
    && t1.s.file.value.path == PathOf(r.hash) && t1.s.file.value.name == r.name
    && t1.s.file.value.rest == t1.s.file.value.size == r.size && t1.s.file.value.packageRest == PACKAGE_SIZE
    && t1.m.wire == t.m.wire && t1.m.files == t.m.files
    && t1.s.fd !in t.m.handles && t1.m.handles == t.m.handles[t1.s.fd := OpenFile(PathOf(r.hash), 0)]
  }

  lemma GrantedDownload(t: Turn, line: string, a: Answers)
    requires SendPrepare(t, line, a).code == 0
    ensures var t1 := SendPrepare(t, line, a).t;
            && a.found < |t.m.records|
            && var r := t.m.records[a.found];
            && Commands.ParseDownload(line) == Commands.DownloadRequest(r.name)
            && t1.s.file == Some(FileOfRecord(r).(rest := r.size, packageRest := PACKAGE_SIZE))
            && t1.m.wire == t.m.wire && t1.m.files == t.m.files
            && t1.s.fd !in t.m.handles && t1.m.handles == t.m.handles[t1.s.fd := OpenFile(PathOf(r.hash), 0)]
  {
  }

  lemma DownloadStarts(t: Turn, i: nat, line: string, a: Answers, ls: nat)
    requires SlotOk(t.s, i, t.m) && t.s.mode == Wait && MachineOk(t.m, ls) && SendPrepare(t, line, a).code == 0
    ensures Granting(t, line, a, WithMode(SendPrepare(t, line, a).t, Download), i)
  {
    SendPrepareConfined(t, i, line, a, ls);
    GrantedDownload(t, line, a);
  }

  /** The bytes stored for the record that a lookup picks. */
  ghost function Picked(m: Machine, a: Answers): Bytes
    requires a.found < |m.records| && PathOf(m.records[a.found].hash) in m.files
  {
    m.files[PathOf(m.records[a.found].hash)]
  }

  /** From the request on, whatever the client answers and however short the reads: the client holds the first `Sent`
      bytes of the file that it asked for, and at each pause their number is PACKAGE_SIZE plus the sizes confirmed. */
  lemma RequestedPrefixAndCredit(t: Turn, i: nat, line: string, a: Answers, ls: nat, events: seq<Event>)
    requires SlotOk(t.s, i, t.m) && t.s.mode == Wait && MachineOk(t.m, ls) && SendPrepare(t, line, a).code == 0
    ensures a.found < |t.m.records| && PathOf(t.m.records[a.found].hash) in t.m.files
    ensures var t1, c := WithMode(SendPrepare(t, line, a).t, Download), Picked(t.m, a);
            var t' := Happens(t1, events);
            && Commands.ParseDownload(line) == Commands.DownloadRequest(t.m.records[a.found].name)
            && (Downloading(t'.s) ==>
                 && t'.s.file.Some? && 0 <= Sent(t'.s) <= |c|
                 && i in t'.m.wire && t'.m.wire[i] == t.m.wire[i] + c[..Sent(t'.s)]
                 && Sent(t'.s) + t'.s.file.value.packageRest == PACKAGE_SIZE + AllGranted(t1, events)
                 && (t'.s.mode == Confirm ==> Sent(t'.s) == PACKAGE_SIZE + AllGranted(t1, events)))
  {
    DownloadStarts(t, i, line, a, ls);
    PrefixAndCredit(WithMode(SendPrepare(t, line, a).t, Download), i, events);
  }

  /** From the request to the end: no confirmation for a file within the first package, else one for every further
      package of `p` bytes; as many calls as its packages take; the client has got the stored file of the record it
      asked for, and what is open is what was open before. */
  lemma DownloadTakes(t: Turn, i: nat, line: string, a: Answers, ls: nat, b: Answers, p: nat)
    requires SlotOk(t.s, i, t.m) && t.s.mode == Wait && MachineOk(t.m, ls) && SendPrepare(t, line, a).code == 0
    requires FullService(b) && 0 < p <= INT_MAX && t.m.records[a.found].size > 0
    ensures Granting(t, line, a, WithMode(SendPrepare(t, line, a).t, Download), i)
    ensures PathOf(t.m.records[a.found].hash) in t.m.files
    ensures var size, d := t.m.records[a.found].size, Drive(WithMode(SendPrepare(t, line, a).t, Download), i, b, p);
            && d.confirmations == (if size <= PACKAGE_SIZE then 0 else CeilDiv(size - PACKAGE_SIZE, p))
            && d.calls == CallsNeeded(size, PACKAGE_SIZE, p)
            && d.t.s.mode == Wait && i in d.t.m.wire && d.t.m.wire[i] == t.m.wire[i] + Picked(t.m, a)
            && d.t.m.handles == t.m.handles
  {
    var t1 := WithMode(SendPrepare(t, line, a).t, Download);
    DownloadStarts(t, i, line, a, ls);
    DriveCounts(t1, i, b, p);
    DriveReleases(t1, i, b, p);
    assert t1.m.handles - {t1.s.fd} == t.m.handles;
    assert Content(t1)[0..] == Content(t1);
  }
}
