/** The connection table and the main loop, as functions on the whole state. */
module ServerSpec {
  import opened Prelude
  import opened Environment
  import opened SessionSpec
  import Framing
  import LineBuffer

  /** The state of the server: one slot per descriptor number, the machine, and the listening socket. */
  datatype World = World(slots: seq<Option<Session>>, m: Machine, ls: nat)

  predicate Sound(s: Session) {
    FileHeld(s) && |s.text| < INBUFSIZE
  }

  predicate Shaped(w: World) {
    && |w.slots| == MAX_CONNECTIONS
    && forall i | 0 <= i < |w.slots| && w.slots[i].Some? :: Sound(w.slots[i].value)
  }

  /** Its file descriptor is watched, unless the client has to confirm first. */
  predicate Active(s: Session) {
    s.fd > -1 && s.mode != Confirm
  }

  /** What slot `i` adds to the watch set. */
  function WatchedFor(w: World, i: int): set<int>
    requires 0 <= i < |w.slots|
  {
    if w.slots[i].None? then {}
    else if Active(w.slots[i].value) then {i, w.slots[i].value.fd}
    else {i}
  }

  /** The watch set after looking at the first `n` slots. */
  function WatchedUpTo(w: World, n: nat): set<int>
    requires n <= |w.slots|
  {
    if n == 0 then {w.ls} else WatchedUpTo(w, n - 1) + WatchedFor(w, n - 1)
  }

  /** The numbers handed to `pselect`. */
  function Watched(w: World): set<int> {
    WatchedUpTo(w, |w.slots|)
  }

  lemma {:induction false} WatchedMembers(w: World, n: nat, k: int)
    requires n <= |w.slots|
    ensures k in WatchedUpTo(w, n) <==> k == w.ls || exists i | 0 <= i < n :: k in WatchedFor(w, i)
  {
    if n > 0 {
      WatchedMembers(w, n - 1, k);
    }
  }

  /** `accept_client` */
  function Accept(w: World, a: Answers): World
    requires |w.slots| == MAX_CONNECTIONS
  {
    var n := a.newHandle;
    if !Usable(w.m, n) then w
    else w.(slots := w.slots[n := Some(NewSession(n, a.staleUid))],
            m := w.m.(handles := w.m.handles[n := Socket], wire := w.m.wire[n := []]))
  }

  /** The body of the dispatch loop for slot `i`. */
  function Dispatch(w: World, i: nat, readable: set<int>, a: Answers, h: Hash): (w': World)
    requires Shaped(w) && i < MAX_CONNECTIONS
    ensures Shaped(w')
  {
    if w.slots[i].None? then w
    else
      var after := SlotTurn(Turn(w.slots[i].value, w.m), i, readable, a, h);
      SlotTurnSound(Turn(w.slots[i].value, w.m), i, readable, a, h);
      w.(slots := w.slots[i := after.s], m := after.m)
  }

  /** The dispatch loop from slot `i` on. */
  function Sweep(w: World, i: nat, readable: set<int>, turns: int -> Answers, h: Hash): (w': World)
    requires Shaped(w) && i <= MAX_CONNECTIONS
    ensures Shaped(w')
    decreases MAX_CONNECTIONS - i
  {
    if i == MAX_CONNECTIONS then w
    else Sweep(Dispatch(w, i, readable, turns(i), h), i + 1, readable, turns, h)
  }

  /** What the environment contributes to one iteration. */
  datatype Round = Round(ready: set<int>, arrival: Answers, turns: int -> Answers)

  function Arrive(w: World, readable: set<int>, a: Answers): (w': World)
    requires Shaped(w)
    ensures Shaped(w')
  {
    if w.ls in readable then Accept(w, a) else w
  }

  /** One iteration of `server_main_loop`. */
  function Iterate(w: World, r: Round, h: Hash): (w': World)
    requires Shaped(w)
    ensures Shaped(w')
  {
    var readable := Watched(w) * r.ready;
    Sweep(Arrive(w, readable, r.arrival), 0, readable, r.turns, h)
  }

  function Run(w: World, rounds: seq<Round>, h: Hash): (w': World)
    requires Shaped(w)
    ensures Shaped(w')
    decreases |rounds|
  {
    if rounds == [] then w else Run(Iterate(w, rounds[0], h), rounds[1..], h)
  }

  /** The states of a sweep, one for every slot done. */
  ghost predicate Swept(ws: seq<World>, readable: set<int>, turns: int -> Answers, h: Hash) {
    && 0 < |ws| <= MAX_CONNECTIONS + 1 && (forall w <- ws :: Shaped(w))
    && forall k | 0 <= k < |ws| - 1 :: ws[k + 1] == Dispatch(ws[k], k, readable, turns(k), h)
  }

  lemma {:induction false} SweptFrom(ws: seq<World>, k: nat, readable: set<int>, turns: int -> Answers, h: Hash)
    requires Swept(ws, readable, turns, h) && k < |ws| == MAX_CONNECTIONS + 1
    ensures ws[MAX_CONNECTIONS] == Sweep(ws[k], k, readable, turns, h)
    decreases MAX_CONNECTIONS - k
  {
    if k < MAX_CONNECTIONS {
      SweptFrom(ws, k + 1, readable, turns, h);
    }
  }

  lemma SweptOn(ws: seq<World>, w: World, readable: set<int>, turns: int -> Answers, h: Hash)
    requires Swept(ws, readable, turns, h) && |ws| <= MAX_CONNECTIONS
    requires w == Dispatch(ws[|ws| - 1], |ws| - 1, readable, turns(|ws| - 1), h)
    ensures Swept(ws + [w], readable, turns, h)
  {
  }

  lemma RunStep(w: World, rounds: seq<Round>, k: nat, h: Hash)
    requires Shaped(w) && k <= |rounds|
    ensures Run(w, rounds[k..], h) == if k == |rounds| then w else Run(Iterate(w, rounds[k], h), rounds[k + 1..], h)
  {
    if k < |rounds| {
      assert rounds[k..][1..] == rounds[k + 1..];
    }
  }

  lemma ReadLeavesRoom(s: Session, a: Answers)
    requires |s.text| < INBUFSIZE
    ensures |ReadLine(s, a).0.text| < INBUFSIZE
  {
  }

  lemma {:induction false} CollectShrinks(description: Option<string>, line: string, text: string)
    ensures |Collect(description, line, text).text| <= |text|
    decreases |text|
  {
    if !EndsDescription(line) && text != "" {
      var d := (if description.Some? then description.value else "") + line;
      CollectShrinks(Some(d), LineBuffer.LineOf(text), LineBuffer.Rest(text));
    }
  }

  lemma ObeySound(t: Turn, v: Framing.Verdict, a: Answers)
    requires Sound(t.s) && t.s.mode == Upload
    ensures Sound(Obey(t, v, a).s)
  {
  }

  lemma UploadSound(t: Turn, a: Answers)
    requires Sound(t.s) && t.s.mode == Upload
    ensures Sound(FileUpload(t, a).s)
  {
    var f, r := t.s.file.value, UploadRead(a);
    if r.chunk != [] {
      UploadObeysVerdict(t, a);
      ObeySound(t, Framing.Deframe(f.rest, f.packageRest, r), a);
    }
  }

  lemma DownloadSound(t: Turn, a: Answers)
    requires Sound(t.s) && t.s.mode == Download
    ensures Sound(FileDownload(t, a).s)
  {
  }

  lemma TransferTurnSound(t: Turn, a: Answers)
    requires Sound(t.s)
    ensures Sound(TransferTurn(t, a).s)
  {
    if t.s.mode == Upload {
      UploadSound(t, a);
    } else if t.s.mode == Download {
      DownloadSound(t, a);
    }
  }

  lemma LineTurnSound(t: Turn, line: string, a: Answers, h: Hash)
    requires Sound(t.s)
    ensures Sound(LineTurn(t, line, a, h).s)
  {
    match t.s.mode {
      case Description => CollectShrinks(t.s.file.value.description, line, t.s.text);
      case Upload => TransferTurnSound(t, a);
      case Download => TransferTurnSound(t, a);
      case _ =>
    }
  }

  lemma SlotTurnSound(t: Turn, i: int, readable: set<int>, a: Answers, h: Hash)
    requires Sound(t.s)
    ensures var after := SlotTurn(t, i, readable, a, h);
            after.s.Some? ==> Sound(after.s.value)
  {
    if t.s.mode == Upload || t.s.mode == Download {
      TransferTurnSound(t, a);
    } else {
      ReadLeavesRoom(t.s, a);
      var (s1, line) := ReadLine(t.s, a);
      if line.Some? {
        LineTurnSound(Turn(s1, t.m), line.value, a, h);
      }
    }
  }
}
