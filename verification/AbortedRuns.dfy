/** Aborted uploads among other sessions: what is left of them whoever acts in between. */
module AbortedRuns {
  import opened Prelude
  import opened Naming
  import opened Environment
  import opened SessionSpec
  import opened ServerSpec
  import opened Invariant
  import opened Confinement
  import opened Observer
  import opened ObservedTurns
  import opened Aborts

  /** Slot `i` is in the middle of an upload of a non-empty file. */
  predicate Amid(w: World, i: nat) {
    && i < |w.slots| && w.slots[i].Some?
    && var s := w.slots[i].value;
    s.mode == Upload && s.file.Some? && s.file.value.size > 0
  }

  /** Through all events slot `i` stays in its upload. */
  predicate StaysAmid(o: History, events: seq<Event>, h: Hash, i: nat)
    requires Shaped(o.w)
    decreases |events|
  {
    Amid(o.w, i) && (events == [] || StaysAmid(Happen(o, events[0], h), events[1..], h, i))
  }

  function PathAt(w: World, i: nat): string
    requires Amid(w, i)
  {
    w.slots[i].value.file.value.path
  }

  /** A request that starts an upload gives it a path that no file had. */
  lemma RequestIsFresh(o: History, e: Event, h: Hash)
    requires Consistent(o) && Shaped(o.w) && e.SlotEvent? && e.i < MAX_CONNECTIONS && o.w.slots[e.i].Some?
    requires o.w.slots[e.i].value.mode == Wait && Amid(Happen(o, e, h).w, e.i)
    ensures PathAt(Happen(o, e, h).w, e.i) !in o.w.m.files
  {
    var s := o.w.slots[e.i].value;
    assert SlotOk(s, e.i, o.w.m);
    SlotTurnConfined(Turn(s, o.w.m), e.i, e.readable, e.answers, h, o.w.ls);
  }

  /** Every event leaves an upload that goes on with the file it had. */
  lemma SamePath(o: History, e: Event, h: Hash, i: nat)
    requires Consistent(o) && Shaped(o.w) && Amid(o.w, i) && Amid(Happen(o, e, h).w, i)
    ensures PathAt(Happen(o, e, h).w, i) == PathAt(o.w, i)
  {
    var s := o.w.slots[i].value;
    assert SlotOk(s, i, o.w.m);
    if e.Arrival? {
      if Usable(o.w.m, e.answers.newHandle) {
        AcceptFillsEmptySlot(o.w, e.answers.newHandle);
      }
    } else if e.i == i && s.fd in e.readable {
      UploadTurnEnds(Turn(s, o.w.m), i, e.answers);
    }
  }

  lemma {:induction false} SamePaths(o: History, events: seq<Event>, h: Hash, i: nat)
    requires Consistent(o) && Shaped(o.w) && StaysAmid(o, events, h, i)
    ensures Amid(Happens(o, events, h).w, i) && PathAt(Happens(o, events, h).w, i) == PathAt(o.w, i)
    decreases |events|
  {
    if events != [] {
      EventConsistent(o, events[0], h);
      SamePath(o, events[0], h, i);
      SamePaths(Happen(o, events[0], h), events[1..], h, i);
    }
  }

  /** The call at which an upload ends early, whatever has happened since its request: nothing but its own file
      changes, and that is gone if and only if the process stands in its own directory in that turn; nothing but its own
      descriptor is closed. */
  ghost predicate Ended(w: World, w': World, i: nat, path: string) {
    && i < |w.slots| && w.slots[i].Some? && w'.m.handles == w.m.handles - {w.slots[i].value.fd}
    && i < |w'.slots| && w'.slots[i].Some? && Forgotten(w'.slots[i].value)
    && w'.m.files - {path} == w.m.files - {path}
    && (path !in w'.m.files <==> w.m.atRoot)
  }

  lemma AbortEnds(o: History, e: Event, h: Hash)
    requires Consistent(o) && Shaped(o.w) && e.SlotEvent? && e.i < MAX_CONNECTIONS && Amid(o.w, e.i)
    requires o.w.slots[e.i].value.fd in e.readable && EndsEarly(Turn(o.w.slots[e.i].value, o.w.m), e.answers)
    ensures Ended(o.w, Happen(o, e, h).w, e.i, PathAt(o.w, e.i))
  {
    var s := o.w.slots[e.i].value;
    assert SlotOk(s, e.i, o.w.m);
    UploadWaitsIff(Turn(s, o.w.m), e.i, e.answers);
    UploadTurnEnds(Turn(s, o.w.m), e.i, e.answers);
    UploadReleases(Turn(s, o.w.m), e.i, e.answers);
  }

  /** In every run, with any other sessions acting in between: the upload had a path of its own from its request on, and
      when it ends early that path is free again if and only if the process stands in its own directory. */
  lemma AbortedInRun(o: History, request: Event, events: seq<Event>, last: Event, h: Hash)
    requires Consistent(o) && Shaped(o.w) && request.SlotEvent? && last.SlotEvent?
    requires request.i == last.i < MAX_CONNECTIONS
    requires o.w.slots[last.i].Some? && o.w.slots[last.i].value.mode == Wait
    requires StaysAmid(Happen(o, request, h), events, h, last.i)
    requires var w2 := Happens(Happen(o, request, h), events, h).w;
             && Amid(w2, last.i) && w2.slots[last.i].value.fd in last.readable
             && EndsEarly(Turn(w2.slots[last.i].value, w2.m), last.answers)
    ensures var o2, path := Happens(Happen(o, request, h), events, h), PathAt(Happen(o, request, h).w, last.i);
            && path !in o.w.m.files
            && Ended(o2.w, Happen(o2, last, h).w, last.i, path)
  {
    var o1 := Happen(o, request, h);
    RequestIsFresh(o, request, h);
    SlotEventConsistent(o, request, h);
    SamePaths(o1, events, h, last.i);
    HappensConsistent(o1, events, h);
    AbortEnds(Happens(o1, events, h), last, h);
  }
}
