/** How much a turn can add to the machine. */
module Growth {
  import opened Prelude
  import opened Naming
  import opened Environment
  import opened SessionSpec
  import opened ServerSpec
  import opened Invariant
  import opened Confinement
  import Commands
  import Interleaving

  /** Any two new keys are the same key. */
  predicate OneNew<K, V>(m: map<K, V>, m': map<K, V>) {
    forall k, l | k in m' && k !in m && l in m' && l !in m :: k == l
  }

  /** At most one file and at most one handle are new. */
  predicate AddsAtMostOne(m: Machine, m': Machine) {
    OneNew(m.files, m'.files) && OneNew(m.handles, m'.handles)
  }

  /** Nothing is new. */
  predicate AddsNothing(m: Machine, m': Machine) {
    (forall p <- m'.files :: p in m.files) && (forall n <- m'.handles :: n in m.handles)
  }

  lemma ClearAddsNothing(t: Turn)
    ensures AddsNothing(t.m, ClearFile(t).m)
  {
  }

  lemma CloseAddsNothing(t: Turn, i: int)
    ensures AddsNothing(t.m, CloseSession(t, i))
  {
  }

  lemma SaveAddsNothing(t: Turn, a: Answers)
    requires t.s.file.Some?
    ensures AddsNothing(t.m, Save(t, a).m)
  {
  }

  lemma ThenNothing(m: Machine, m1: Machine, m2: Machine)
    requires AddsAtMostOne(m, m1) && AddsNothing(m1, m2)
    ensures AddsAtMostOne(m, m2)
  {
  }

  /** A transfer step adds nothing: it keeps to its own descriptor and file. */
  lemma TransferAddsNothing(t: Turn, i: nat, a: Answers)
    requires SlotOk(t.s, i, t.m) && Interleaving.Transferring(t.s) && Bounded(t.m)
    ensures Sound(t.s) && AddsNothing(t.m, TransferTurn(t, a).m)
  {
    var m' := TransferTurn(t, a).m;
    Interleaving.TransferElsewhere(t, i, a);
    forall p <- m'.files
      ensures p in t.m.files
    {
      if !Owns(t.s, p) {
        assert Interleaving.Same(t.m.files, m'.files, p);
      }
    }
    forall n <- m'.handles
      ensures n in t.m.handles
    {
      if n != t.s.fd {
        assert Interleaving.Same(t.m.handles, m'.handles, n);
      }
    }
  }

  lemma AcceptAddsOne(t: Turn, size: Size, a: Answers, h: Hash)
    requires t.s.file.Some?
    ensures AddsAtMostOne(t.m, AcceptUpload(t, size, a, h).t.m)
  {
    var f := t.s.file.value;
    ProbeResult(t.m, h, f.name, a, FILE_HASH_SEED);
    ClearAddsNothing(t);
    match ProbeFrom(t.m, h, f.name, a, FILE_HASH_SEED)
    case Refused(m1, _) => ClearAddsNothing(t.(m := m1));
    case Created(m1, hash) =>
  }

  lemma ReceiveAddsOne(t: Turn, line: string, a: Answers, h: Hash)
    ensures AddsAtMostOne(t.m, ReceivePrepare(t, line, a, h).t.m)
  {
    ClearAddsNothing(t);
    match Commands.ParseUpload(line)
    case UploadRequest(name, size, perm) =>
      AcceptAddsOne(t.(s := t.s.(file := Some(NewFile(name, perm, a)))), size, a, h);
    case _ =>
  }

  lemma SendAddsOne(t: Turn, line: string, a: Answers)
    ensures AddsAtMostOne(t.m, SendPrepare(t, line, a).t.m)
  {
    ClearAddsNothing(t);
  }

  lemma CommandAddsOne(t: Turn, line: string, a: Answers, h: Hash)
    ensures AddsAtMostOne(t.m, ClientCommand(t, line, a, h).m)
  {
    match Commands.ParseCommand(line, a.staleWords)
    case Upload => ReceiveAddsOne(t, line, a, h);
    case Download => SendAddsOne(t, line, a);
    case _ =>
  }

  lemma DescriptionAddsNothing(t: Turn, line: string, a: Answers)
    requires t.s.file.Some?
    ensures AddsNothing(t.m, DescriptionTurn(t, line, a).m)
  {
    var f := t.s.file.value;
    var c := Collect(f.description, line, t.s.text);
    SaveAddsNothing(t.(s := t.s.(file := Some(f.(description := Some(c.description))), text := c.text)), a);
  }

  lemma ConfirmAddsNothing(t: Turn, line: string)
    requires t.s.file.Some?
    ensures AddsNothing(t.m, DownloadConfirm(t, line).m)
  {
    ClearAddsNothing(t);
  }

  lemma LineAddsOne(t: Turn, line: string, a: Answers, h: Hash)
    requires Sound(t.s) && !Interleaving.Transferring(t.s)
    ensures AddsAtMostOne(t.m, LineTurn(t, line, a, h).m)
  {
    if t.s.mode == Wait {
      CommandAddsOne(t, line, a, h);
    } else if t.s.mode == Description {
      DescriptionAddsNothing(t, line, a);
    } else if t.s.mode == Confirm {
      ConfirmAddsNothing(t, line);
    }
  }

  /** A turn of a session adds at most one file and at most one handle, and a transfer step adds neither. */
  lemma TurnAddsOne(t: Turn, i: nat, readable: set<int>, a: Answers, h: Hash)
    requires SlotOk(t.s, i, t.m) && Bounded(t.m)
    ensures Sound(t.s)
    ensures var m' := SlotTurn(t, i, readable, a, h).m;
            AddsAtMostOne(t.m, m') && (Interleaving.Transferring(t.s) ==> AddsNothing(t.m, m'))
  {
    if Interleaving.Transferring(t.s) {
      TransferAddsNothing(t, i, a);
    } else if i in readable {
      RequestAddsOne(t, i, a, h);
    }
  }

  lemma RequestAddsOne(t: Turn, i: nat, a: Answers, h: Hash)
    requires Sound(t.s) && !Interleaving.Transferring(t.s)
    ensures AddsAtMostOne(t.m, RequestTurn(t, i, a, h).m)
  {
    var (s1, line) := ReadLine(t.s, a);
    ReadLeavesRoom(t.s, a);
    CloseAddsNothing(Turn(s1, t.m), i);
    if line.Some? {
      var t1 := LineTurn(Turn(s1, t.m), line.value, a, h);
      LineAddsOne(Turn(s1, t.m), line.value, a, h);
      CloseAddsNothing(t1, i);
      ThenNothing(t.m, t1.m, CloseSession(t1, i));
    }
  }
}
