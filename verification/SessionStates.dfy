/** What the state of a session says about its file, its descriptor and its buffer, at any time. */
module SessionStates {
  import opened Prelude
  import opened Naming
  import opened Environment
  import opened SessionSpec
  import opened ServerSpec
  import opened Invariant
  import opened Confinement
  import LineBuffer

  /** A file in transfer is named by its hash; a non-empty one has bytes to go in every state but the description state,
      where its stored length is the declared size; a client that has to confirm has no credit left. Between transfers
      only an empty file can still be open. */
  ghost predicate InOrder(s: Session, m: Machine) {
    && (NeedsFile(s.mode) ==> s.file.Some? && s.fd >= 0 && s.file.value.path == PathOf(s.file.value.hash))
    && (s.mode in {Upload, Download, Confirm} && s.file.value.size > 0 ==> s.file.value.rest > 0)
    && (s.mode == Description ==>
         && s.file.value.rest == 0
         && s.file.value.path in m.files && |m.files[s.file.value.path]| == s.file.value.size)
    && (s.mode == Confirm ==> s.file.value.packageRest == 0)
    && (!NeedsFile(s.mode) && s.fd != -1 ==>
         && s.fd in m.handles && m.handles[s.fd].OpenFile?
         && m.handles[s.fd].path in m.files && m.files[m.handles[s.fd].path] == [])
  }

  /** Every session of every run is in order. */
  lemma SessionsInOrder(w: World, rounds: seq<Round>, h: Hash, i: nat)
    requires Inv(w) && i < MAX_CONNECTIONS && Shaped(w) && Run(w, rounds, h).slots[i].Some?
    ensures InOrder(Run(w, rounds, h).slots[i].value, Run(w, rounds, h).m)
  {
    RunKeepsInv(w, rounds, h);
    var w' := Run(w, rounds, h);
    var s := w'.slots[i].value;
    assert SlotOk(s, i, w'.m);
    if s.mode == Description {
      CompleteLength(s, w'.m);
    }
  }

  lemma FitsSomething(buf: string, text: string)
    requires |buf| < INBUFSIZE
    ensures LineBuffer.Fits(buf, text) == "" <==> text == ""
  {
  }

  /** No false end of stream: there is always room for at least one character, so a session finds its stream at an end
      only if its client has ended it. */
  lemma NoFalseEndOfStream(w: World, rounds: seq<Round>, h: Hash, i: nat, a: Answers)
    requires Inv(w) && i < MAX_CONNECTIONS && Shaped(w) && Run(w, rounds, h).slots[i].Some?
    ensures var s := Run(w, rounds, h).slots[i].value;
            && |s.text| < INBUFSIZE && |ReadLine(s, a).0.text| < INBUFSIZE
            && (ReadLine(s, a).1.None? <==> a.text == "")
  {
    RunKeepsInv(w, rounds, h);
    var w' := Run(w, rounds, h);
    var s := w'.slots[i].value;
    assert SlotOk(s, i, w'.m);
    FitsSomething(s.text, a.text);
    ReadLeavesRoom(s, a);
  }
}
