/** Transfer steps of different sessions do not depend on their order. */
module Interleaving {
  import opened Prelude
  import opened Environment
  import opened SessionSpec
  import opened ServerSpec
  import opened Invariant
  import opened Confinement
  import Framing

  /** Two maps agree on a key: both lack it, or both give it the same value. */
  predicate Same<K, V(==)>(a: map<K, V>, b: map<K, V>, k: K) {
    if k in a then k in b && a[k] == b[k] else k !in b
  }

  lemma SameEverywhere<K(!new), V>(a: map<K, V>, b: map<K, V>)
    requires forall k :: Same(a, b, k)
    ensures a == b
  {
    forall k
      ensures k in a <==> k in b
      ensures k in a ==> a[k] == b[k]
    {
      assert Same(a, b, k);
    }
    assert a.Keys == b.Keys;
  }

  predicate Transferring(s: Session) {
    s.mode == Upload || s.mode == Download
  }

  /** A transfer step of slot `i`, if that is what its session does. */
  function Transfer(w: World, i: nat, a: Answers): World
    requires Shaped(w) && i < MAX_CONNECTIONS
  {
    if w.slots[i].Some? && Transferring(w.slots[i].value) then
      Replace(w, i, Going(TransferTurn(Turn(w.slots[i].value, w.m), a)))
    else w
  }

  /** Everything a transfer step of `s` in slot `i` can see or change agrees in both machines. */
  predicate Agree(s: Session, i: int, m1: Machine, m2: Machine) {
    && s.fd >= 0 && i >= 0
    && Same(m1.handles, m2.handles, s.fd) && Same(m1.wire, m2.wire, i)
    && s.file.Some? && Same(m1.files, m2.files, s.file.value.path)
  }

  /** Nothing but its own descriptor, file and socket changes. */
  ghost predicate Elsewhere(s: Session, i: int, m: Machine, m': Machine) {
    && (forall n: nat :: n != s.fd ==> Same(m.handles, m'.handles, n))
    && (forall p :: !Owns(s, p) ==> Same(m.files, m'.files, p))
    && (forall n: nat :: n != i ==> Same(m.wire, m'.wire, n))
    && m'.dirs == m.dirs && m'.atRoot == m.atRoot && m'.records == m.records
  }

  lemma DropElsewhere(s: Session, i: int, m: Machine, m1: Machine, data: Bytes)
    requires SlotOk(s, i, m) && s.mode == Upload && Bounded(m) && Appended(s, m, m1, data)
    ensures Elsewhere(s, i, m, DropUpload(Turn(s, m1)).m) && Elsewhere(s, i, m, FailUpload(Turn(s, m1)).m)
    ensures Elsewhere(s, i, m, m1)
  {
  }

  lemma ObeyElsewhere(t: Turn, i: int, v: Framing.Verdict, a: Answers)
    requires SlotOk(t.s, i, t.m) && t.s.mode == Upload && Bounded(t.m)
    ensures Elsewhere(t.s, i, t.m, Obey(t, v, a).m)
  {
    var m1, m2 := WriteFile(t.m, t.s.fd, v.first, a.firstWrite), WriteAll(t.m, t.s.fd, v, a);
    WriteAppends(t.s, t.m, v.first, a.firstWrite);
    WriteAllAppends(t.s, t.m, v, a);
    if m1.None? {
      NothingAppended(t.s, t.m);
      DropElsewhere(t.s, i, t.m, t.m, []);
    } else {
      DropElsewhere(t.s, i, t.m, m1.value, v.first);
      if m2.Some? {
        DropElsewhere(t.s, i, t.m, m2.value, Framing.Written(v));
      }
    }
  }

  lemma UploadElsewhere(t: Turn, i: int, a: Answers)
    requires SlotOk(t.s, i, t.m) && t.s.mode == Upload && Bounded(t.m)
    ensures Elsewhere(t.s, i, t.m, FileUpload(t, a).m)
  {
    var f, r := t.s.file.value, UploadRead(a);
    if r.chunk != [] {
      UploadObeysVerdict(t, a);
      ObeyElsewhere(t, i, Framing.Deframe(f.rest, f.packageRest, r), a);
    } else {
      NothingAppended(t.s, t.m);
      DropElsewhere(t.s, i, t.m, t.m, []);
    }
  }

  lemma ElsewhereChains(s: Session, i: int, m: Machine, m1: Machine, m2: Machine)
    requires Elsewhere(s, i, m, m1) && Elsewhere(s, i, m1, m2)
    ensures Elsewhere(s, i, m, m2)
  {
    forall n: nat | n != s.fd
      ensures Same(m.handles, m2.handles, n)
    {
      assert Same(m.handles, m1.handles, n) && Same(m1.handles, m2.handles, n);
    }
    forall p | !Owns(s, p)
      ensures Same(m.files, m2.files, p)
    {
      assert Same(m.files, m1.files, p) && Same(m1.files, m2.files, p);
    }
    forall n: nat | n != i
      ensures Same(m.wire, m2.wire, n)
    {
      assert Same(m.wire, m1.wire, n) && Same(m1.wire, m2.wire, n);
    }
  }

  lemma PrimitivesElsewhere(s: Session, i: int, m: Machine, data: Bytes)
    requires i >= 0 && s.fd >= 0
    ensures Elsewhere(s, i, m, Send(m, i, data)) && Elsewhere(s, i, m, SkipFile(m, s.fd, |data|))
    ensures Elsewhere(s, i, m, CloseHandle(m, s.fd))
  {
  }

  lemma DeliverElsewhere(t: Turn, i: int, data: Bytes, sent: bool)
    requires i >= 0 && t.s.sd == i && t.s.fd >= 0 && t.s.file.Some?
    ensures Elsewhere(t.s, i, t.m, Deliver(t, data, sent).m)
  {
    var m1 := Send(t.m, i, data);
    PrimitivesElsewhere(t.s, i, t.m, data);
    PrimitivesElsewhere(t.s, i, m1, data);
    ElsewhereChains(t.s, i, t.m, m1, CloseHandle(m1, t.s.fd));
  }

  lemma DownloadElsewhere(t: Turn, i: int, a: Answers)
    requires SlotOk(t.s, i, t.m) && t.s.mode == Download
    ensures Elsewhere(t.s, i, t.m, FileDownload(t, a).m)
  {
    var f := t.s.file.value;
    var data := FileData(t.m, t.s.fd, Wanted(f.rest, f.packageRest), a.short);
    var t1 := t.(m := SkipFile(t.m, t.s.fd, |data|));
    PrimitivesElsewhere(t.s, i, t.m, data);
    DeliverElsewhere(t1, i, data, a.firstWrite);
    ElsewhereChains(t.s, i, t.m, t1.m, Deliver(t1, data, a.firstWrite).m);
  }

  lemma WriteAgrees(s: Session, i: int, m1: Machine, m2: Machine, data: Bytes, ok: bool)
    requires Agree(s, i, m1, m2)
    requires s.fd in m1.handles && m1.handles[s.fd].OpenFile? && m1.handles[s.fd].path == s.file.value.path
    ensures var w1, w2 := WriteFile(m1, s.fd, data, ok), WriteFile(m2, s.fd, data, ok);
            && w1.Some? == w2.Some?
            && (w1.Some? ==> Agree(s, i, w1.value, w2.value) && s.fd in w1.value.handles
                             && w1.value.handles[s.fd].OpenFile? && w1.value.handles[s.fd].path == s.file.value.path)
  {
  }

  /** The session is the same in both outcomes, and so is all that it could touch; of a file that it has given up only
      if both processes stand in the same place. */
  ghost predicate Alike(s: Session, i: int, t1: Turn, t2: Turn) {
    && s.file.Some? && t1.s == t2.s
    && Same(t1.m.handles, t2.m.handles, s.fd) && Same(t1.m.wire, t2.m.wire, i)
    && (NeedsFile(t1.s.mode) || t1.m.atRoot == t2.m.atRoot ==> Same(t1.m.files, t2.m.files, s.file.value.path))
  }

  lemma DropAlike(s: Session, i: int, m1: Machine, m2: Machine)
    requires Agree(s, i, m1, m2)
    ensures Alike(s, i, DropUpload(Turn(s, m1)), DropUpload(Turn(s, m2)))
    ensures Alike(s, i, FailUpload(Turn(s, m1)), FailUpload(Turn(s, m2)))
  {
  }

  lemma ObeyAlike(s: Session, i: int, m1: Machine, m2: Machine, v: Framing.Verdict, a: Answers)
    requires SlotOk(s, i, m1) && s.mode == Upload && Agree(s, i, m1, m2)
    ensures Alike(s, i, Obey(Turn(s, m1), v, a), Obey(Turn(s, m2), v, a))
  {
    WriteAgrees(s, i, m1, m2, v.first, a.firstWrite);
    var w1, w2 := WriteFile(m1, s.fd, v.first, a.firstWrite), WriteFile(m2, s.fd, v.first, a.firstWrite);
    DropAlike(s, i, m1, m2);
    if w1.Some? {
      DropAlike(s, i, w1.value, w2.value);
      if v.second.Some? {
        WriteAgrees(s, i, w1.value, w2.value, v.second.value, a.secondWrite);
      }
    }
  }

  lemma UploadAlike(s: Session, i: int, m1: Machine, m2: Machine, a: Answers)
    requires SlotOk(s, i, m1) && s.mode == Upload && Agree(s, i, m1, m2)
    ensures Alike(s, i, FileUpload(Turn(s, m1), a), FileUpload(Turn(s, m2), a))
  {
    var f, r := s.file.value, UploadRead(a);
    if r.chunk != [] {
      UploadObeysVerdict(Turn(s, m1), a);
      UploadObeysVerdict(Turn(s, m2), a);
      ObeyAlike(s, i, m1, m2, Framing.Deframe(f.rest, f.packageRest, r), a);
    } else {
      DropAlike(s, i, m1, m2);
    }
  }

  lemma ClearAlike(s: Session, s1: Session, i: int, m1: Machine, m2: Machine)
    requires Agree(s, i, m1, m2) && s1.file.Some? && s1.fd == s.fd
    ensures Alike(s, i, ClearFile(Turn(s1, m1)), ClearFile(Turn(s1, m2)))
  {
  }

  lemma SendAgrees(s: Session, i: int, m1: Machine, m2: Machine, data: Bytes)
    requires Agree(s, i, m1, m2)
    ensures Agree(s, i, Send(m1, i, data), Send(m2, i, data))
  {
  }

  lemma SkipAgrees(s: Session, i: int, m1: Machine, m2: Machine, n: nat)
    requires Agree(s, i, m1, m2)
    ensures Agree(s, i, SkipFile(m1, s.fd, n), SkipFile(m2, s.fd, n))
  {
  }

  lemma DeliverAlike(s: Session, i: int, m1: Machine, m2: Machine, data: Bytes, sent: bool)
    requires s.sd == i && Agree(s, i, m1, m2)
    ensures Alike(s, i, Deliver(Turn(s, m1), data, sent), Deliver(Turn(s, m2), data, sent))
  {
    if !sent {
      ClearAlike(s, s.(mode := Err), i, m1, m2);
    } else {
      SendAgrees(s, i, m1, m2, data);
      var f := s.file.value;
      var s1 := WithCounters(s, ToSize(f.rest - |data|), ToSize(f.packageRest - |data|));
      ClearAlike(s, s1, i, Send(m1, i, data), Send(m2, i, data));
    }
  }

  lemma DownloadAlike(s: Session, i: int, m1: Machine, m2: Machine, a: Answers)
    requires SlotOk(s, i, m1) && s.mode == Download && Agree(s, i, m1, m2)
    ensures Alike(s, i, FileDownload(Turn(s, m1), a), FileDownload(Turn(s, m2), a))
  {
    var f := s.file.value;
    var data := FileData(m1, s.fd, Wanted(f.rest, f.packageRest), a.short);
    assert data == FileData(m2, s.fd, Wanted(f.rest, f.packageRest), a.short);
    ClearAlike(s, s, i, m1, m2);
    SkipAgrees(s, i, m1, m2, |data|);
    DeliverAlike(s, i, SkipFile(m1, s.fd, |data|), SkipFile(m2, s.fd, |data|), data, a.firstWrite);
  }

  lemma TransferElsewhere(t: Turn, i: int, a: Answers)
    requires SlotOk(t.s, i, t.m) && Transferring(t.s) && Bounded(t.m)
    ensures Sound(t.s) && Elsewhere(t.s, i, t.m, TransferTurn(t, a).m)
  {
    if t.s.mode == Upload {
      UploadElsewhere(t, i, a);
    } else {
      DownloadElsewhere(t, i, a);
    }
  }

  /** A step gives the same result in any machine that shows the session the same things. */
  lemma TransferAlike(s: Session, i: int, m1: Machine, m2: Machine, a: Answers)
    requires SlotOk(s, i, m1) && Transferring(s) && Agree(s, i, m1, m2)
    ensures Alike(s, i, TransferTurn(Turn(s, m1), a), TransferTurn(Turn(s, m2), a))
  {
    if s.mode == Upload {
      UploadAlike(s, i, m1, m2, a);
    } else {
      DownloadAlike(s, i, m1, m2, a);
    }
  }

  lemma TransferKeepsInv(w: World, i: nat, a: Answers)
    requires Inv(w) && i < MAX_CONNECTIONS
    ensures Shaped(w) && Inv(Transfer(w, i, a)) && Shaped(Transfer(w, i, a))
  {
    InvShaped(w);
    if w.slots[i].Some? && Transferring(w.slots[i].value) {
      var t := Turn(w.slots[i].value, w.m);
      if t.s.mode == Upload {
        UploadConfined(t, i, a);
      } else {
        DownloadConfined(t, i, a);
      }
      LocalKeepsInv(w, i, Going(TransferTurn(t, a)));
    }
    InvShaped(Transfer(w, i, a));
  }

  /** The machines after steps of two sessions in either order. */
  lemma MachinesCommute(s: Session, i: int, t: Session, j: int, m: Machine, mi: Machine, mj: Machine,
                        mij: Machine, mji: Machine)
    requires i != j && s.fd >= 0 && t.fd >= 0 && s.fd != t.fd && s.file.Some? && t.file.Some? && i >= 0 && j >= 0
    requires forall p :: Owns(s, p) ==> !Owns(t, p)
    requires Elsewhere(s, i, m, mi) && Elsewhere(t, j, mi, mij)
    requires Elsewhere(t, j, m, mj) && Elsewhere(s, i, mj, mji)
    requires Same(mi.handles, mji.handles, s.fd) && Same(mi.wire, mji.wire, i)
    requires Same(mi.files, mji.files, s.file.value.path)
    requires Same(mj.handles, mij.handles, t.fd) && Same(mj.wire, mij.wire, j)
    requires Same(mj.files, mij.files, t.file.value.path)
    ensures mij == mji
  {
    forall n: nat
      ensures Same(mij.handles, mji.handles, n)
    {
      assert n != s.fd ==> Same(m.handles, mi.handles, n) && Same(mj.handles, mji.handles, n);
      assert n != t.fd ==> Same(m.handles, mj.handles, n) && Same(mi.handles, mij.handles, n);
    }
    SameEverywhere(mij.handles, mji.handles);
    forall n: nat
      ensures Same(mij.wire, mji.wire, n)
    {
      assert n != i ==> Same(m.wire, mi.wire, n) && Same(mj.wire, mji.wire, n);
      assert n != j ==> Same(m.wire, mj.wire, n) && Same(mi.wire, mij.wire, n);
    }
    SameEverywhere(mij.wire, mji.wire);
    forall p
      ensures Same(mij.files, mji.files, p)
    {
      assert !Owns(s, p) ==> Same(m.files, mi.files, p) && Same(mj.files, mji.files, p);
      assert !Owns(t, p) ==> Same(m.files, mj.files, p) && Same(mi.files, mij.files, p);
    }
    SameEverywhere(mij.files, mji.files);
  }

  /** A step of `t` in slot `j` leaves what `s` can see as it was. */
  lemma StillAgrees(s: Session, i: int, t: Session, j: int, m: Machine, mj: Machine)
    requires i != j && SlotOk(s, i, m) && SlotOk(t, j, m) && Transferring(s) && Transferring(t)
    requires Apart(s, t, m) && Apart(t, s, m) && Elsewhere(t, j, m, mj)
    ensures Agree(s, i, m, mj) && !Owns(t, s.file.value.path) && s.fd != t.fd
  {
    var n: nat, k: nat, path := s.fd, i, s.file.value.path;
    assert n != t.fd && k != j && !Owns(t, path);
    assert Same(m.handles, mj.handles, n) && Same(m.wire, mj.wire, k) && Same(m.files, mj.files, path);
  }

  /** A step of `s` before and after a step of somebody else. */
  ghost predicate StepTwice(s: Session, i: int, m: Machine, mj: Machine, t1: Turn, t2: Turn) {
    Alike(s, i, t1, t2) && Elsewhere(s, i, m, t1.m) && Elsewhere(s, i, mj, t2.m)
  }

  lemma StepsTwice(s: Session, i: int, m: Machine, mj: Machine, a: Answers)
    requires SlotOk(s, i, m) && SlotOk(s, i, mj) && Transferring(s) && Agree(s, i, m, mj) && Bounded(m) && Bounded(mj)
    ensures Sound(s) && StepTwice(s, i, m, mj, TransferTurn(Turn(s, m), a), TransferTurn(Turn(s, mj), a))
  {
    TransferElsewhere(Turn(s, m), i, a);
    TransferElsewhere(Turn(s, mj), i, a);
    TransferAlike(s, i, m, mj, a);
  }

  lemma PairCommutes(s: Session, i: int, t: Session, j: int, m: Machine, si: Turn, tj: Turn, sji: Turn, tij: Turn)
    requires i != j && SlotOk(s, i, m) && SlotOk(t, j, m) && Transferring(s) && Transferring(t)
    requires Apart(s, t, m) && Apart(t, s, m)
    requires StepTwice(s, i, m, tj.m, si, sji) && StepTwice(t, j, m, si.m, tj, tij)
    ensures tij.m == sji.m && sji.s == si.s && tij.s == tj.s
  {
    StillAgrees(s, i, t, j, m, tj.m);
    StillAgrees(t, j, s, i, m, si.m);
    MachinesCommute(s, i, t, j, m, si.m, tj.m, tij.m, sji.m);
  }

  lemma StepsCommute(s: Session, i: int, a: Answers, t: Session, j: int, b: Answers, m: Machine, si: Turn, tj: Turn)
    requires i != j && SlotOk(s, i, m) && SlotOk(t, j, m) && Transferring(s) && Transferring(t)
    requires Apart(s, t, m) && Apart(t, s, m)
    requires si == TransferTurn(Turn(s, m), a) && tj == TransferTurn(Turn(t, m), b)
    requires Bounded(m) && SlotOk(s, i, tj.m) && Bounded(tj.m) && SlotOk(t, j, si.m) && Bounded(si.m)
    ensures var sji, tij := TransferTurn(Turn(s, tj.m), a), TransferTurn(Turn(t, si.m), b);
            tij.m == sji.m && sji.s == si.s && tij.s == tj.s
  {
    TransferElsewhere(Turn(s, m), i, a);
    TransferElsewhere(Turn(t, m), j, b);
    StillAgrees(s, i, t, j, m, tj.m);
    StillAgrees(t, j, s, i, m, si.m);
    StepsTwice(s, i, m, tj.m, a);
    StepsTwice(t, j, m, si.m, b);
    PairCommutes(s, i, t, j, m, si, tj, TransferTurn(Turn(s, tj.m), a), TransferTurn(Turn(t, si.m), b));
  }

  lemma BothTransfer(w: World, i: nat, a: Answers, j: nat, b: Answers, s: Session, t: Session)
    requires Inv(w) && i < MAX_CONNECTIONS && j < MAX_CONNECTIONS && i != j
    requires w.slots[i] == Some(s) && Transferring(s) && w.slots[j] == Some(t) && Transferring(t)
    requires Shaped(w) && Inv(Transfer(w, i, a)) && Inv(Transfer(w, j, b))
    ensures Shaped(Transfer(w, i, a)) && Shaped(Transfer(w, j, b))
    ensures Transfer(Transfer(w, i, a), j, b) == Transfer(Transfer(w, j, b), i, a)
  {
    var wi, wj := Transfer(w, i, a), Transfer(w, j, b);
    InvShaped(wi);
    InvShaped(wj);
    var si, tj := TransferTurn(Turn(s, w.m), a), TransferTurn(Turn(t, w.m), b);
    assert wi == Replace(w, i, Going(si)) && wj == Replace(w, j, Going(tj));
    assert wi.slots[j] == Some(t) && wj.slots[i] == Some(s);
    StepsCommute(s, i, a, t, j, b, w.m, si, tj);
    assert Transfer(wi, j, b).slots == Transfer(wj, i, a).slots;
  }

  /** Steps of two different sessions commute on the whole state. */
  lemma TransfersCommute(w: World, i: nat, a: Answers, j: nat, b: Answers)
    requires Inv(w) && i < MAX_CONNECTIONS && j < MAX_CONNECTIONS && i != j
    ensures Shaped(w) && Shaped(Transfer(w, i, a)) && Shaped(Transfer(w, j, b))
    ensures Transfer(Transfer(w, i, a), j, b) == Transfer(Transfer(w, j, b), i, a)
  {
    TransferKeepsInv(w, i, a);
    TransferKeepsInv(w, j, b);
    if w.slots[i].Some? && Transferring(w.slots[i].value) && w.slots[j].Some? && Transferring(w.slots[j].value) {
      BothTransfer(w, i, a, j, b, w.slots[i].value, w.slots[j].value);
    }
  }

  // ----- any order -----

  predicate Slots(order: seq<nat>) {
    && (forall k | 0 <= k < |order| :: order[k] < MAX_CONNECTIONS)
    && forall k, l | 0 <= k < l < |order| :: order[k] != order[l]
  }

  /** Transfer steps of the listed slots, one after the other. */
  function TransferAll(w: World, order: seq<nat>, answers: int -> Answers): World
    requires Inv(w) && Slots(order)
    decreases |order|
  {
    if order == [] then w
    else
      TransferKeepsInv(w, order[0], answers(order[0]));
      TransferAll(Transfer(w, order[0], answers(order[0])), order[1..], answers)
  }

  lemma FirstStep(w: World, x: nat, rest: seq<nat>, answers: int -> Answers)
    requires Inv(w) && Slots([x] + rest)
    ensures Slots(rest) && x < MAX_CONNECTIONS && Shaped(w) && Inv(Transfer(w, x, answers(x)))
    ensures TransferAll(w, [x] + rest, answers) == TransferAll(Transfer(w, x, answers(x)), rest, answers)
  {
    var order := [x] + rest;
    assert order[1..] == rest && order[0] == x;
    TransferKeepsInv(w, x, answers(x));
  }

  lemma SwapFirst(w: World, x: nat, y: nat, rest: seq<nat>, answers: int -> Answers)
    requires Inv(w) && Slots([x] + ([y] + rest)) && Slots([y] + ([x] + rest))
    ensures TransferAll(w, [x] + ([y] + rest), answers) == TransferAll(w, [y] + ([x] + rest), answers)
  {
    assert ([x] + ([y] + rest))[0] != ([x] + ([y] + rest))[1];
    FirstStep(w, x, [y] + rest, answers);
    FirstStep(w, y, [x] + rest, answers);
    FirstStep(Transfer(w, x, answers(x)), y, rest, answers);
    FirstStep(Transfer(w, y, answers(y)), x, rest, answers);
    TransfersCommute(w, x, answers(x), y, answers(y));
  }

  lemma SlotsInFront(x: nat, rest: seq<nat>)
    requires x < MAX_CONNECTIONS && x !in rest && Slots(rest)
    ensures Slots([x] + rest)
  {
    assert forall n | 1 <= n < |[x] + rest| :: ([x] + rest)[n] == rest[n - 1];
  }

  lemma SlotsCut(order: seq<nat>, k: nat)
    requires Slots(order) && 0 < k < |order|
    ensures Slots(order[1..k] + order[k + 1..])
    ensures order[0] !in order[1..k] + order[k + 1..] && order[k] !in order[1..k] + order[k + 1..]
  {
    var rest := order[1..k] + order[k + 1..];
    assert forall n | 0 <= n < |rest| :: rest[n] == order[if n < k - 1 then n + 1 else n + 2];
  }

  /** `order` with its element `k` in front, and what lies behind it. */
  lemma Fronted(order: seq<nat>, k: nat)
    requires Slots(order) && 0 < k < |order|
    ensures var rest, x, y := order[1..k] + order[k + 1..], order[k], order[0];
            && order == [y] + order[1..] && Slots(order[1..]) && order[1..][k - 1] == x
            && order[1..][..k - 1] + order[1..][k..] == rest
            && [x] + (order[..k] + order[k + 1..]) == [x] + ([y] + rest)
            && Slots([x] + ([y] + rest)) && Slots([y] + ([x] + rest))
  {
    var rest := order[1..k] + order[k + 1..];
    assert order[..k] == [order[0]] + order[1..k];
    assert order[..k] + order[k + 1..] == [order[0]] + rest;
    assert order[1..][..k - 1] == order[1..k] && order[1..][k..] == order[k + 1..];
    SlotsCut(order, k);
    SlotsInFront(order[0], rest);
    SlotsInFront(order[k], rest);
    SlotsInFront(order[k], [order[0]] + rest);
    SlotsInFront(order[0], [order[k]] + rest);
  }

  lemma {:induction false} ToFront(w: World, order: seq<nat>, k: nat, answers: int -> Answers)
    requires Inv(w) && Slots(order) && k < |order|
    ensures Slots([order[k]] + (order[..k] + order[k + 1..]))
    ensures TransferAll(w, order, answers) == TransferAll(w, [order[k]] + (order[..k] + order[k + 1..]), answers)
    decreases |order|
  {
    if k == 0 {
      assert [order[k]] + (order[..k] + order[k + 1..]) == order;
    } else {
      var x, y, rest := order[k], order[0], order[1..k] + order[k + 1..];
      Fronted(order, k);
      FirstStep(w, y, order[1..], answers);
      ToFront(Transfer(w, y, answers(y)), order[1..], k - 1, answers);
      FirstStep(w, y, [x] + rest, answers);
      SwapFirst(w, x, y, rest, answers);
    }
  }

  lemma WithoutFirst<T>(p: seq<T>, q: seq<T>, k: nat)
    requires k < |q| && p != [] && multiset(p) == multiset(q) && q[k] == p[0]
    ensures multiset(p[1..]) == multiset(q[..k] + q[k + 1..])
  {
    assert q == q[..k] + [q[k]] + q[k + 1..];
    assert p == [p[0]] + p[1..];
    assert multiset(p) == multiset{p[0]} + multiset(p[1..]);
    assert multiset(q) == multiset{p[0]} + multiset(q[..k] + q[k + 1..]);
    assert multiset(p[1..]) == multiset(p) - multiset{p[0]};
  }

  /** The order in which the slots are served does not affect any transfer. */
  lemma {:induction false} OrderIrrelevant(w: World, p: seq<nat>, q: seq<nat>, answers: int -> Answers)
    requires Inv(w) && Slots(p) && Slots(q) && multiset(p) == multiset(q)
    ensures TransferAll(w, p, answers) == TransferAll(w, q, answers)
    decreases |p|
  {
    if p == [] {
      assert |multiset(q)| == 0;
    } else {
      var x := p[0];
      assert x in multiset(q);
      var k :| 0 <= k < |q| && q[k] == x;
      ToFront(w, q, k, answers);
      var rest := q[..k] + q[k + 1..];
      WithoutFirst(p, q, k);
      assert ([x] + rest)[1..] == rest;
      TransferKeepsInv(w, x, answers(x));
      OrderIrrelevant(Transfer(w, x, answers(x)), p[1..], rest, answers);
    }
  }

  // ----- the dispatch loop -----

  predicate Serves(w: World, readable: set<int>, i: int)
    requires 0 <= i < |w.slots|
  {
    w.slots[i].Some? && Transferring(w.slots[i].value) && w.slots[i].value.fd > -1 && w.slots[i].value.fd in readable
  }

  /** The slots from `i` on that a sweep serves a transfer step, in its order. */
  function Served(w: World, readable: set<int>, i: nat): seq<nat>
    requires |w.slots| == MAX_CONNECTIONS && i <= MAX_CONNECTIONS
    decreases MAX_CONNECTIONS - i
  {
    if i == MAX_CONNECTIONS then []
    else (if Serves(w, readable, i) then [i] else []) + Served(w, readable, i + 1)
  }

  /** Nobody from slot `i` on has sent a request. */
  predicate OnlyTransfers(w: World, readable: set<int>, i: nat) {
    forall j | i <= j < |w.slots| && w.slots[j].Some? :: Transferring(w.slots[j].value) || j !in readable
  }

  lemma {:induction false} ServedSlots(w: World, readable: set<int>, i: nat)
    requires |w.slots| == MAX_CONNECTIONS && i <= MAX_CONNECTIONS
    ensures Slots(Served(w, readable, i)) && forall x <- Served(w, readable, i) :: i <= x
    decreases MAX_CONNECTIONS - i
  {
    if i < MAX_CONNECTIONS {
      var rest := Served(w, readable, i + 1);
      ServedSlots(w, readable, i + 1);
      SlotsInFront(i, rest);
      assert [] + rest == rest;
    }
  }

  lemma {:induction false} ServedAlike(w: World, w': World, readable: set<int>, i: nat)
    requires |w.slots| == |w'.slots| == MAX_CONNECTIONS && i <= MAX_CONNECTIONS
    requires forall j | i <= j < MAX_CONNECTIONS :: w.slots[j] == w'.slots[j]
    ensures Served(w, readable, i) == Served(w', readable, i)
    decreases MAX_CONNECTIONS - i
  {
    if i < MAX_CONNECTIONS {
      ServedAlike(w, w', readable, i + 1);
    }
  }

  lemma DispatchIsTransfer(w: World, i: nat, readable: set<int>, a: Answers, h: Hash)
    requires Shaped(w) && i < MAX_CONNECTIONS && OnlyTransfers(w, readable, i)
    ensures Dispatch(w, i, readable, a, h) == if Serves(w, readable, i) then Transfer(w, i, a) else w
  {
  }

  /** A sweep without requests is the transfer steps of the served slots. */
  lemma {:induction false} SweepIsTransfers(w: World, i: nat, readable: set<int>, turns: int -> Answers, h: Hash)
    requires Inv(w) && Shaped(w) && i <= MAX_CONNECTIONS && OnlyTransfers(w, readable, i)
    ensures Slots(Served(w, readable, i))
    ensures Sweep(w, i, readable, turns, h) == TransferAll(w, Served(w, readable, i), turns)
    decreases MAX_CONNECTIONS - i
  {
    ServedSlots(w, readable, i);
    if i < MAX_CONNECTIONS {
      var w1 := Dispatch(w, i, readable, turns(i), h);
      DispatchIsTransfer(w, i, readable, turns(i), h);
      DispatchKeepsInv(w, i, readable, turns(i), h);
      ServedAlike(w, w1, readable, i + 1);
      SweepIsTransfers(w1, i + 1, readable, turns, h);
      if Serves(w, readable, i) {
        FirstStep(w, i, Served(w, readable, i + 1), turns);
      } else {
        assert [] + Served(w, readable, i + 1) == Served(w, readable, i + 1);
      }
    }
  }

  /** The slot order of the dispatch loop cannot affect any transfer: as long as nobody sends a request, serving the
      same slots in any other order leads to the same state. */
  lemma SweepOrderIrrelevant(w: World, readable: set<int>, turns: int -> Answers, h: Hash, order: seq<nat>)
    requires Inv(w) && Shaped(w) && OnlyTransfers(w, readable, 0)
    requires Slots(order) && multiset(order) == multiset(Served(w, readable, 0))
    ensures Sweep(w, 0, readable, turns, h) == TransferAll(w, order, turns)
  {
    SweepIsTransfers(w, 0, readable, turns, h);
    OrderIrrelevant(w, Served(w, readable, 0), order, turns);
  }
}
