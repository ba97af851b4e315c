/** Who gets past the login states, and under what identity. */
module Logins {
  import opened Prelude
  import opened Environment
  import opened SessionSpec
  import opened ServerSpec
  import opened Invariant
  import opened Confinement
  import Framing

  /** The session may give commands. */
  predicate Inside(s: Session) {
    s.mode != LoginUser && s.mode != LoginPassword
  }

  /** One turn of a session, with the machine as the other sessions have left it. */
  datatype Moment = Moment(m: Machine, readable: set<int>, answers: Answers)

  function Next(s: Session, i: int, x: Moment, h: Hash): (s': Option<Session>)
    requires Sound(s)
    ensures s'.Some? ==> Sound(s'.value)
  {
    SlotTurnSound(Turn(s, x.m), i, x.readable, x.answers, h);
    SlotTurn(Turn(s, x.m), i, x.readable, x.answers, h).s
  }

  /** What some turns make of a session, if it is still there. */
  function Live(s: Session, i: int, life: seq<Moment>, h: Hash): (s': Option<Session>)
    requires Sound(s)
    ensures s'.Some? ==> Sound(s'.value)
    decreases |life|
  {
    if life == [] then Some(s)
    else
      var before := Live(s, i, life[..|life| - 1], h);
      if before.None? then None else Next(before.value, i, life[|life| - 1], h)
  }

  // ----- one turn -----

  /** The client names itself "anonymous", registers with three words and success, or gives a password that the
      database accepts. */
  predicate Enters(s: Session, i: int, x: Moment)
    requires Sound(s)
  {
    var line := ReadLine(s, x.answers).1;
    i in x.readable && line.Some?
    && match s.mode
       case LoginUser =>
         || line.value == "anonymous"
         || (Registers(line.value) && RegisteredName(line.value).Some? && x.answers.userId > 0)
       case LoginPassword => x.answers.userId != 0
       case _ => false
  }

  /** The name and number that such a turn gives. */
  function IdentityGiven(s: Session, x: Moment): (Option<string>, Int32)
    requires Sound(s)
  {
    var line := ReadLine(s, x.answers).1;
    if s.mode == LoginPassword then (s.uname, x.answers.userId)
    else if line == Some("anonymous") then (Some("anonymous"), s.uid)
    else (if line.Some? && Registers(line.value) then RegisteredName(line.value) else None, x.answers.userId)
  }

  lemma UserNameEnters(s: Session, line: string, a: Answers)
    requires s.mode == LoginUser
    ensures var s' := UserName(s, line, a);
            && (s'.mode == Wait
                <==> line == "anonymous" || (Registers(line) && RegisteredName(line).Some? && a.userId > 0))
            && s'.mode in {LoginUser, LoginPassword, Wait, Err}
            && (s'.mode == LoginPassword ==> s'.uname == Some(line))
            && (s'.mode == Wait ==>
                  if line == "anonymous" then s'.uname == Some("anonymous") && s'.uid == s.uid
                  else s'.uname == RegisteredName(line) && s'.uid == a.userId)
  {
    assert Registers(line) ==> line[0] == 'r';
  }

  /** A session gets past the login states in exactly these three ways, with the identity they give. */
  lemma GetsInsideIff(s: Session, i: int, x: Moment, h: Hash)
    requires Sound(s) && !Inside(s)
    ensures var s' := Next(s, i, x, h);
            && (s'.Some? && Inside(s'.value) <==> Enters(s, i, x))
            && (Enters(s, i, x) ==> (s'.value.uname, s'.value.uid) == IdentityGiven(s, x))
  {
    var (s1, line) := ReadLine(s, x.answers);
    ReadLeavesRoom(s, x.answers);
    if line.Some? && s.mode == LoginUser {
      UserNameEnters(s1, line.value, x.answers);
    }
  }

  /** What becomes of a client that gives a name or a password. */
  function Named(s: Session, line: string, a: Answers): Session {
    if s.mode == LoginPassword then
      if a.userId != 0 then s.(mode := Wait, uid := a.userId)  // accepted
      else s.(mode := LoginUser)                               // rejected: the name is asked for again
    else if line == "anonymous" then s.(mode := Wait, uname := Some("anonymous"))
    else if Registers(line) then
      if RegisteredName(line).Some? && a.userId > 0 then
        s.(mode := Wait, uname := RegisteredName(line), uid := a.userId)
      else s                                                   // failed: the name is asked for again
    else s.(mode := LoginPassword, uname := Some(line))        // the password is asked for
  }

  /** Every line in a login state but the bare "exit" leads to exactly that, and the machine stays as it is. */
  lemma LoginTurn(t: Turn, i: int, readable: set<int>, a: Answers, h: Hash, line: string, rest: string)
    requires Sound(t.s) && !Inside(t.s) && i in readable
    requires ReadLine(t.s, a) == (t.s.(text := rest), Some(line)) && (t.s.mode == LoginUser ==> line != "exit")
    ensures SlotTurn(t, i, readable, a, h) == Going(Turn(Named(t.s.(text := rest), line, a), t.m))
  {
    if t.s.mode == LoginUser {
      assert Registers(line) ==> line[0] == 'r';
    }
  }

  lemma ObeyKeepsClient(t: Turn, v: Framing.Verdict, a: Answers)
    requires t.s.file.Some? && t.s.mode == Upload
    ensures SameClient(t.s, Obey(t, v, a).s) && Inside(Obey(t, v, a).s)
  {
  }

  lemma UploadKeepsClient(t: Turn, a: Answers)
    requires t.s.file.Some? && t.s.mode == Upload
    ensures SameClient(t.s, FileUpload(t, a).s) && Inside(FileUpload(t, a).s)
  {
    var f, r := t.s.file.value, UploadRead(a);
    if r.chunk != [] {
      UploadObeysVerdict(t, a);
      ObeyKeepsClient(t, Framing.Deframe(f.rest, f.packageRest, r), a);
    }
  }

  lemma DownloadKeepsClient(t: Turn, a: Answers)
    requires t.s.file.Some? && t.s.mode == Download
    ensures SameClient(t.s, FileDownload(t, a).s) && Inside(FileDownload(t, a).s)
  {
  }

  lemma TransferKeepsIdentity(t: Turn, a: Answers)
    requires Sound(t.s) && Inside(t.s)
    ensures SameClient(t.s, TransferTurn(t, a).s) && Inside(TransferTurn(t, a).s)
  {
    if t.s.mode == Upload {
      UploadKeepsClient(t, a);
    } else if t.s.mode == Download {
      DownloadKeepsClient(t, a);
    }
  }

  lemma LineKeepsIdentity(t: Turn, line: string, a: Answers, h: Hash)
    requires Sound(t.s) && Inside(t.s)
    ensures var s' := LineTurn(t, line, a, h).s;
            Inside(s') && s'.uname == t.s.uname && s'.uid == t.s.uid
  {
    if t.s.mode != Description && t.s.mode != Confirm {
      TransferKeepsIdentity(t, a);
    }
  }

  /** Nobody gets out again but by leaving, and nobody becomes somebody else. */
  lemma StaysInside(s: Session, i: int, x: Moment, h: Hash)
    requires Sound(s) && Inside(s)
    ensures var s' := Next(s, i, x, h);
            s'.Some? ==> Inside(s'.value) && s'.value.uname == s.uname && s'.value.uid == s.uid
  {
    var t := Turn(s, x.m);
    var (s1, line) := ReadLine(s, x.answers);
    ReadLeavesRoom(s, x.answers);
    TransferKeepsIdentity(t, x.answers);
    if s.mode != Upload && s.mode != Download && line.Some? {
      LineKeepsIdentity(Turn(s1, x.m), line.value, x.answers, h);
    }
  }

  // ----- a whole life -----

  /** Turn `k` of the life took the session past the login states, as who it is now. */
  ghost predicate EnteredAt(s0: Session, i: int, life: seq<Moment>, h: Hash, k: nat, s: Session)
    requires Sound(s0)
  {
    && k < |life|
    && var before := Live(s0, i, life[..k], h);
    && before.Some? && !Inside(before.value) && Enters(before.value, i, life[k])
    && IdentityGiven(before.value, life[k]) == (s.uname, s.uid)
  }

  /** At turn `k` the session read this line as a user name to be followed by a password. */
  ghost predicate NamedAt(s0: Session, i: int, life: seq<Moment>, h: Hash, k: nat, name: string)
    requires Sound(s0)
  {
    && k < |life|
    && var before := Live(s0, i, life[..k], h);
    && before.Some? && before.value.mode == LoginUser && ReadLine(before.value, life[k].answers).1 == Some(name)
    && name != "exit" && name != "anonymous" && !Registers(name)
  }

  lemma PrefixOfPrefix(life: seq<Moment>, k: nat)
    requires k < |life|
    ensures life[..|life| - 1][..k] == life[..k] && (k < |life| - 1 ==> life[..|life| - 1][k] == life[k])
  {
  }

  /** Whoever may give commands has entered in one of the three ways, and is who that made them. */
  lemma {:induction false} InsideHasEntered(s0: Session, i: int, life: seq<Moment>, h: Hash) returns (k: nat)
    requires Sound(s0) && !Inside(s0) && Live(s0, i, life, h).Some? && Inside(Live(s0, i, life, h).value)
    ensures EnteredAt(s0, i, life, h, k, Live(s0, i, life, h).value)
    decreases |life|
  {
    var n := |life| - 1;
    var before := Live(s0, i, life[..n], h).value;
    if Inside(before) {
      StaysInside(before, i, life[n], h);
      k := InsideHasEntered(s0, i, life[..n], h);
      PrefixOfPrefix(life, k);
    } else {
      GetsInsideIff(before, i, life[n], h);
      k := n;
    }
  }

  lemma PasswordTurn(s: Session, i: int, x: Moment, h: Hash)
    requires Sound(s) && Next(s, i, x, h).Some? && Next(s, i, x, h).value.mode == LoginPassword
    ensures var s', line := Next(s, i, x, h).value, ReadLine(s, x.answers).1;
            if s.mode == LoginPassword then s' == s
            else s.mode == LoginUser && line.Some? && s'.uname == line
                 && line.value != "exit" && line.value != "anonymous" && !Registers(line.value)
  {
    if Inside(s) {
      StaysInside(s, i, x, h);
    } else {
      ReadLeavesRoom(s, x.answers);
    }
  }

  /** The name that a password is checked against is the one the client gave before. */
  lemma {:induction false} PasswordHasName(s0: Session, i: int, life: seq<Moment>, h: Hash) returns (k: nat)
    requires Sound(s0) && s0.mode == LoginUser
    requires Live(s0, i, life, h).Some? && Live(s0, i, life, h).value.mode == LoginPassword
    ensures var s := Live(s0, i, life, h).value;
            s.uname.Some? && NamedAt(s0, i, life, h, k, s.uname.value)
    decreases |life|
  {
    var n := |life| - 1;
    var before := Live(s0, i, life[..n], h).value;
    PasswordTurn(before, i, life[n], h);
    if before.mode == LoginPassword {
      k := PasswordHasName(s0, i, life[..n], h);
      PrefixOfPrefix(life, k);
    } else {
      k := n;
    }
  }

  // ----- every run -----

  /** The session in slot `i` is what these turns made of a new one. */
  ghost predicate Biography(s: Session, i: nat, uid: Int32, life: seq<Moment>, h: Hash) {
    Live(NewSession(i, uid), i, life, h) == Some(s)
  }

  ghost predicate AllLived(w: World, h: Hash) {
    forall i: nat | i < |w.slots| && w.slots[i].Some? ::
      exists uid, life :: Biography(w.slots[i].value, i, uid, life, h)
  }

  lemma LivesOn(s: Session, i: nat, uid: Int32, life: seq<Moment>, h: Hash, x: Moment)
    requires Biography(s, i, uid, life, h) && Sound(s) && Next(s, i, x, h).Some?
    ensures Biography(Next(s, i, x, h).value, i, uid, life + [x], h)
  {
    assert (life + [x])[..|life|] == life;
  }

  lemma AcceptLived(w: World, a: Answers, h: Hash)
    requires Shaped(w) && AllLived(w, h)
    ensures AllLived(Accept(w, a), h)
  {
    if Usable(w.m, a.newHandle) {
      assert Biography(NewSession(a.newHandle, a.staleUid), a.newHandle, a.staleUid, [], h);
    }
  }

  lemma DispatchLived(w: World, i: nat, readable: set<int>, a: Answers, h: Hash)
    requires Shaped(w) && AllLived(w, h) && i < MAX_CONNECTIONS
    ensures AllLived(Dispatch(w, i, readable, a, h), h)
  {
    if w.slots[i].Some? {
      var s, x := w.slots[i].value, Moment(w.m, readable, a);
      var uid, life :| Biography(s, i, uid, life, h);
      if Next(s, i, x, h).Some? {
        LivesOn(s, i, uid, life, h, x);
      }
    }
  }

  lemma {:induction false} SweepLived(w: World, i: nat, readable: set<int>, turns: int -> Answers, h: Hash)
    requires Shaped(w) && AllLived(w, h) && i <= MAX_CONNECTIONS
    ensures AllLived(Sweep(w, i, readable, turns, h), h)
    decreases MAX_CONNECTIONS - i
  {
    if i < MAX_CONNECTIONS {
      DispatchLived(w, i, readable, turns(i), h);
      SweepLived(Dispatch(w, i, readable, turns(i), h), i + 1, readable, turns, h);
    }
  }

  lemma {:induction false} RunLived(w: World, rounds: seq<Round>, h: Hash)
    requires Shaped(w) && AllLived(w, h)
    ensures AllLived(Run(w, rounds, h), h)
    decreases |rounds|
  {
    if rounds != [] {
      var r := rounds[0];
      var readable := Watched(w) * r.ready;
      AcceptLived(w, r.arrival, h);
      SweepLived(Arrive(w, readable, r.arrival), 0, readable, r.turns, h);
      RunLived(Iterate(w, r, h), rounds[1..], h);
    }
  }

  /** In every run, every session that may give commands is one that entered as anonymous, by a registration or with a
      password, and still has the name and number it got then; so it has a name. */
  lemma EverybodyInsideEntered(m: Machine, ls: nat, rounds: seq<Round>, h: Hash, i: nat)
      returns (uid: Int32, life: seq<Moment>, k: nat)
    requires MachineOk(m, ls) && i < MAX_CONNECTIONS && Shaped(Started(m, ls))
    requires Run(Started(m, ls), rounds, h).slots[i].Some? && Inside(Run(Started(m, ls), rounds, h).slots[i].value)
    ensures var s := Run(Started(m, ls), rounds, h).slots[i].value;
            && Biography(s, i, uid, life, h)
            && EnteredAt(NewSession(i, uid), i, life, h, k, s)
            && (Live(NewSession(i, uid), i, life[..k], h).value.mode == LoginPassword ==>
                  exists j: nat :: s.uname.Some? && NamedAt(NewSession(i, uid), i, life[..k], h, j, s.uname.value))
            && s.uname.Some?
  {
    RunLived(Started(m, ls), rounds, h);
    var s := Run(Started(m, ls), rounds, h).slots[i].value;
    uid, life :| Biography(s, i, uid, life, h);
    k := InsideHasEntered(NewSession(i, uid), i, life, h);
    if Live(NewSession(i, uid), i, life[..k], h).value.mode == LoginPassword {
      var j := PasswordHasName(NewSession(i, uid), i, life[..k], h);
    }
  }
}
