/** From the uploader's bytes to the downloader's, through any interleaving of any sessions. */
module EndToEnd {
  import opened Prelude
  import opened Naming
  import opened Environment
  import opened SessionSpec
  import opened ServerSpec
  import opened Invariant
  import opened Confinement
  import opened Framing
  import opened Uploads
  import opened Observer
  import opened ObservedTurns
  import Downloads
  import Interleaving

  /** Nothing has been observed yet. */
  function Unobserved(w: World): History {
    History(w, map[], map[], map[], [])
  }

  /** A file saved from a conforming upload holds what its uploader announced, and its record has the name that its
      uploader asked for. A completed download delivered exactly the stored bytes of a record with the name that its
      client asked for; so whoever gets a conforming upload gets what its uploader announced, under the same name. */
  ghost predicate Trusted(o: History) {
    && (forall p <- o.paid :: PaidOk(o.w.m, p, o.paid[p]))
    && (forall d <- o.delivered :: DeliveredOk(o.w.m, d))
    && (forall d <- o.delivered :: d.path in o.paid ==> o.paid[d.path] == Paid(d.name, d.bytes))
  }

  lemma ConsistentIsTrusted(o: History)
    requires Consistent(o)
    ensures Trusted(o)
  {
    forall d <- o.delivered | d.path in o.paid
      ensures o.paid[d.path] == Paid(d.name, d.bytes)
    {
      assert DeliveredOk(o.w.m, d) && PaidOk(o.w.m, d.path, o.paid[d.path]);
    }
  }

  /** End to end: whatever all clients do and however their turns interleave. */
  lemma EndToEnd(m: Machine, ls: nat, events: seq<Event>, h: Hash)
    requires MachineOk(m, ls)
    ensures Shaped(Started(m, ls)) && Trusted(Happens(Unobserved(Started(m, ls)), events, h))
  {
    StartedInv(m, ls);
    HappensConsistent(Unobserved(Started(m, ls)), events, h);
    ConsistentIsTrusted(Happens(Unobserved(Started(m, ls)), events, h));
  }

  // ----- what the observer does not miss -----

  lemma UploadInsertsNothing(t: Turn, i: nat, a: Answers)
    requires SlotOk(t.s, i, t.m) && t.s.mode == Upload && Bounded(t.m)
    ensures FileUpload(t, a).m.records == t.m.records
  {
    Interleaving.UploadElsewhere(t, i, a);
  }

  /** The new record belongs to the upload that the session in slot `i` has described: it has its name, size and hash
      and the number of its user. If its client has conformed, the observer has noted what it asked for and announced,
      and that is what is recorded and stored. */
  ghost predicate Noted(o: History, i: nat, s: Session, o': History, r: Record) {
    var path := PathOf(r.hash);
    && s.mode == Description && s.file.Some? && s.file.value.path == path
    && r.name == s.file.value.name && r.size == s.file.value.size && r.hash == s.file.value.hash && r.owner == s.uid
    && (i in o.plans ==>
         && path in o'.paid && o'.paid[path] == Paid(o.plans[i].name, o.plans[i].whole)
         && PaidOk(o'.w.m, path, o'.paid[path]) && r.name == o.plans[i].name && r.size == |o.plans[i].whole|)
  }

  /** No record is missed. */
  lemma SavedIsNoted(o: History, e: Event, h: Hash, k: nat)
    requires Consistent(o) && e.SlotEvent? && e.i < MAX_CONNECTIONS && o.w.slots[e.i].Some? && Shaped(o.w)
    requires |o.w.m.records| <= k < |Happen(o, e, h).w.m.records|
    ensures Noted(o, e.i, o.w.slots[e.i].value, Happen(o, e, h), Happen(o, e, h).w.m.records[k])
  {
    var s := o.w.slots[e.i].value;
    var t := Turn(s, o.w.m);
    assert SlotOk(s, e.i, o.w.m);
    var after := SlotTurn(t, e.i, e.readable, e.answers, h);
    SlotTurnConfined(t, e.i, e.readable, e.answers, h, o.w.ls);
    assert Owns(s, PathOf(after.m.records[k].hash));
    if s.mode == Upload {
      UploadInsertsNothing(t, e.i, e.answers);
    } else {
      RequestInserts(t, e.i, e.answers, h);
      if e.i in o.plans {
        assert PlanOk(o.plans[e.i], s, o.w.m);
        PaidStored(t, e.i, after, o.plans[e.i]);
      }
    }
  }

  /** What the last piece of a file leaves behind. */
  lemma LastPiece(t: Turn, i: nat, a: Answers, base: map<nat, Start>)
    requires SlotOk(t.s, i, t.m) && t.s.mode == Download && BaseOk(base, t.s, i, t.m) && a.firstWrite
    requires t.s.file.value.rest == |Downloads.Piece(t, a)| > 0
    ensures var t', f := FileDownload(t, a), t.s.file.value;
            && t'.s.mode == Wait && i in base && i in t'.m.wire && f.path in t.m.files
            && |t'.m.wire[i]| == base[i].from + f.size && t'.m.wire[i][base[i].from..] == t.m.files[f.path]
  {
    Downloads.ServeResult(t, i, a);
    PrefixGrows(t.m.wire[i], base[i].from, t.m.files[t.s.file.value.path], Downloads.Sent(t.s), Downloads.Piece(t, a));
    WholeDelivered(t, i, a, base);
  }

  lemma DispatchIsDownload(w: World, i: nat, s: Session, readable: set<int>, a: Answers, h: Hash)
    requires Shaped(w) && i < MAX_CONNECTIONS && w.slots[i] == Some(s) && s.mode == Download && s.fd in readable
    requires s.fd >= 0 && s.file.Some?
    ensures Dispatch(w, i, readable, a, h) == Replace(w, i, Going(FileDownload(Turn(s, w.m), a)))
  {
  }

  /** A turn that sends the last piece of a file is noted, with the whole file and the name that was asked for. */
  lemma DeliveryIsNoted(o: History, e: Event, h: Hash)
    requires Consistent(o) && e.SlotEvent? && e.i < MAX_CONNECTIONS && o.w.slots[e.i].Some? && Shaped(o.w)
    requires var s := o.w.slots[e.i].value;
             && s.mode == Download && s.fd in e.readable && e.answers.firstWrite && s.file.Some?
             && s.file.value.rest == |Downloads.Piece(Turn(s, o.w.m), e.answers)| > 0
    ensures var path := o.w.slots[e.i].value.file.value.path;
            && path in o.w.m.files && e.i in o.base
            && Happen(o, e, h).delivered == o.delivered + [Delivery(o.base[e.i].name, path, o.w.m.files[path])]
  {
    var s := o.w.slots[e.i].value;
    assert SlotOk(s, e.i, o.w.m) && BaseOk(o.base, s, e.i, o.w.m);
    LastPiece(Turn(s, o.w.m), e.i, e.answers, o.base);
    DispatchIsDownload(o.w, e.i, s, e.readable, e.answers, h);
    NotesDelivery(o, e, s, Dispatch(o.w, e.i, e.readable, e.answers, h), FileDownload(Turn(s, o.w.m), e.answers));
  }

  lemma NotesDelivery(o: History, e: Event, s: Session, w': World, t': Turn)
    requires e.SlotEvent? && e.i < MAX_CONNECTIONS && |w'.slots| == MAX_CONNECTIONS && s.file.Some? && Sound(s)
    requires w'.slots[e.i] == Some(t'.s) && w'.m == t'.m
    requires s.mode == Download && s.fd in e.readable && t'.s.mode == Wait && e.i in o.base && e.i in t'.m.wire
    requires |t'.m.wire[e.i]| == o.base[e.i].from + s.file.value.size
    ensures Observe(o, e, s, w').delivered ==
      o.delivered + [Delivery(o.base[e.i].name, s.file.value.path, t'.m.wire[e.i][o.base[e.i].from..])]
  {
  }

  // ----- the main loop -----

  /** The turns of a sweep from slot `i` on; `intents` says what the client of each slot means to send. */
  function SweepEvents(i: nat, readable: set<int>, turns: int -> Answers,
                       intents: int -> Option<seq<Package>>): seq<Event>
    requires i <= MAX_CONNECTIONS
    decreases MAX_CONNECTIONS - i
  {
    if i == MAX_CONNECTIONS then []
    else [SlotEvent(i, readable, turns(i), intents(i))] + SweepEvents(i + 1, readable, turns, intents)
  }

  function ArrivalEvents(w: World, readable: set<int>, a: Answers): seq<Event> {
    if w.ls in readable then [Arrival(a)] else []
  }

  /** What happens in some iterations; `intents(n)` says what the clients mean to send in iteration `n`. */
  function EventsOf(w: World, rounds: seq<Round>, intents: int -> int -> Option<seq<Package>>, h: Hash): seq<Event>
    requires Shaped(w)
    decreases |rounds|
  {
    if rounds == [] then []
    else
      var r := rounds[0];
      var readable := Watched(w) * r.ready;
      ArrivalEvents(w, readable, r.arrival) + SweepEvents(0, readable, r.turns, intents(0))
      + EventsOf(Iterate(w, r, h), rounds[1..], n => intents(n + 1), h)
  }

  lemma {:induction false} SweepHappens(o: History, i: nat, readable: set<int>, turns: int -> Answers,
                                        intents: int -> Option<seq<Package>>, h: Hash)
    requires Shaped(o.w) && i <= MAX_CONNECTIONS
    ensures Happens(o, SweepEvents(i, readable, turns, intents), h).w == Sweep(o.w, i, readable, turns, h)
    decreases MAX_CONNECTIONS - i
  {
    if i < MAX_CONNECTIONS {
      var e, later := SlotEvent(i, readable, turns(i), intents(i)), SweepEvents(i + 1, readable, turns, intents);
      assert ([e] + later)[1..] == later;
      SweepHappens(Happen(o, e, h), i + 1, readable, turns, intents, h);
    }
  }

  lemma ArrivalHappens(o: History, readable: set<int>, a: Answers, h: Hash)
    requires Shaped(o.w)
    ensures Happens(o, ArrivalEvents(o.w, readable, a), h).w == Arrive(o.w, readable, a)
  {
    if o.w.ls in readable {
      assert [Arrival(a)][1..] == [];
    }
  }

  /** A run of the main loop is the sequence of its events. */
  lemma {:induction false} RunHappens(o: History, rounds: seq<Round>, intents: int -> int -> Option<seq<Package>>,
                                      h: Hash)
    requires Shaped(o.w)
    ensures Happens(o, EventsOf(o.w, rounds, intents, h), h).w == Run(o.w, rounds, h)
    decreases |rounds|
  {
    if rounds != [] {
      var r := rounds[0];
      var readable := Watched(o.w) * r.ready;
      var arrival, sweep := ArrivalEvents(o.w, readable, r.arrival), SweepEvents(0, readable, r.turns, intents(0));
      var later := EventsOf(Iterate(o.w, r, h), rounds[1..], n => intents(n + 1), h);
      var o1 := Happens(o, arrival, h);
      var o2 := Happens(o1, sweep, h);
      ArrivalHappens(o, readable, r.arrival, h);
      SweepHappens(o1, 0, readable, r.turns, intents(0), h);
      RunHappens(o2, rounds[1..], n => intents(n + 1), h);
      HappensAppend(o, arrival, sweep, h);
      HappensAppend(o, arrival + sweep, later, h);
    }
  }

  /** End to end for the main loop: after any number of iterations from the start, whoever connects, whatever the
      clients send and mean to send, and in whatever order they are ready. */
  lemma RunEndToEnd(m: Machine, ls: nat, rounds: seq<Round>, intents: int -> int -> Option<seq<Package>>, h: Hash)
    requires MachineOk(m, ls)
    ensures Shaped(Started(m, ls))
    ensures var o := Happens(Unobserved(Started(m, ls)), EventsOf(Started(m, ls), rounds, intents, h), h);
            o.w == Run(Started(m, ls), rounds, h) && Trusted(o)
  {
    StartedInv(m, ls);
    RunHappens(Unobserved(Started(m, ls)), rounds, intents, h);
    EndToEnd(m, ls, EventsOf(Started(m, ls), rounds, intents, h), h);
  }
}
