/** Whole uploads: sequences of reads, however the network cut the stream. */
module Deframing {
  import opened Prelude
  import opened Framing

  datatype Outcome = Waiting | Complete | Cancelled

  /** The effect of some reads: the bytes written, the counters, how many reads were used and how it ended. */
  datatype Progress = Progress(stored: Bytes, rest: Size, packageRest: Size, used: nat, outcome: Outcome)

  predicate NonEmptyReads(rs: seq<Read>) {
    forall r <- rs :: r.chunk != []
  }

  function Receive(rest: Size, packageRest: Size, rs: seq<Read>): (g: Progress)
    requires NonEmptyReads(rs)
    ensures g.used <= |rs| && (g.outcome == Complete ==> g.rest == 0)
    decreases |rs|
  {
    if rs == [] then Progress([], rest, packageRest, 0, Waiting)
    else
      var v := Deframe(rest, packageRest, rs[0]);
      Joined(v, Receive(v.rest, v.packageRest, rs[1..]))
  }

  /** What a first read and the reads behind it come to. */
  function Joined(v: Verdict, later: Progress): Progress {
    if v.cancelled then Progress(Written(v), v.rest, v.packageRest, 1, Cancelled)
    else if v.rest == 0 then Progress(Written(v), 0, v.packageRest, 1, Complete)
    else later.(stored := Written(v) + later.stored, used := later.used + 1)
  }

  lemma JoinedConserves(rest: Size, v: Verdict, g: Progress)
    requires ToSize(|Written(v)| + v.rest) == rest && ToSize(|g.stored| + g.rest) == v.rest
    ensures ToSize(|Joined(v, g).stored| + Joined(v, g).rest) == rest
  {
    ToSizeChains(rest, |Written(v)|, v.rest, |g.stored|, g.rest);
  }

  /** For any reads at all, bytes written and bytes expected add up: a completed upload wrote the declared size,
      modulo 2^64. */
  lemma {:induction false} ReceiveConserves(rest: Size, packageRest: Size, rs: seq<Read>)
    requires NonEmptyReads(rs)
    ensures var g := Receive(rest, packageRest, rs);
            ToSize(|g.stored| + g.rest) == rest
    decreases |rs|
  {
    if rs == [] {
      CounterFits(rest);
    } else {
      var v := Deframe(rest, packageRest, rs[0]);
      ReadConserves(rest, packageRest, rs[0]);
      ReceiveConserves(v.rest, v.packageRest, rs[1..]);
      JoinedConserves(rest, v, Receive(v.rest, v.packageRest, rs[1..]));
    }
  }

  predicate AdmissibleRun(p: Plan, rs: seq<Read>)
    decreases |rs|
  {
    rs == [] || (Admissible(p, rs[0].chunk) && AdmissibleRun(Advance(p, rs[0].chunk), rs[1..]))
  }

  function PlanAfter(p: Plan, rs: seq<Read>): Plan
    requires AdmissibleRun(p, rs)
    decreases |rs|
  {
    if rs == [] then p else PlanAfter(Advance(p, rs[0].chunk), rs[1..])
  }

  function Received(rs: seq<Read>): Bytes {
    if rs == [] then [] else rs[0].chunk + Received(rs[1..])
  }

  lemma {:induction false} RunConsumesStream(p: Plan, rs: seq<Read>)
    requires Framed(p.later) && AdmissibleRun(p, rs)
    ensures Stream(p) == Received(rs) + Stream(PlanAfter(p, rs))
    ensures Framed(PlanAfter(p, rs).later)
    decreases |rs|
  {
    if rs != [] {
      AdvanceStream(p, rs[0].chunk);
      RunConsumesStream(Advance(p, rs[0].chunk), rs[1..]);
      assert Stream(p) == Received(rs) + Stream(PlanAfter(p, rs));
    } else {
      assert Received(rs) == [];
    }
  }

  /** How many of the reads it takes until no file byte is left on the wire. */
  function ReadsNeeded(p: Plan, rs: seq<Read>): nat
    requires AdmissibleRun(p, rs)
    decreases |rs|
  {
    if Payload(p) == [] || rs == [] then 0 else 1 + ReadsNeeded(Advance(p, rs[0].chunk), rs[1..])
  }

  /** What is stored and how it ends, when `left` is still to come of the file and `needed` reads are used. */
  predicate Reaches(g: Progress, whole: Bytes, left: Bytes, needed: nat) {
    && g.used == needed && whole == g.stored + (if g.outcome == Complete then [] else left)
    && g.outcome == (if left == [] then Complete else Waiting)
  }

  lemma JoinedReaches(p: Plan, q: Plan, v: Verdict, g: Progress, left: Bytes, needed: nat)
    requires Follows(v, p, q)
    requires if v.rest == 0 then left == [] && needed == 0 else Reaches(g, Payload(q), left, needed)
    ensures Reaches(Joined(v, g), Payload(p), left, needed + 1)
  {
    var behind := if g.outcome == Complete then [] else left;
    assert Written(v) + (g.stored + behind) == (Written(v) + g.stored) + behind;
  }

  /** The server keeps pace with the plan, and completes at the read that carries the last file byte. */
  lemma {:induction false} ReceiveFollowsPlan(p: Plan, rs: seq<Read>)
    requires Framed(p.later) && AdmissibleRun(p, rs) && NonEmptyReads(rs)
    requires 0 < |Payload(p)| < SIZE_SPAN
    ensures Reaches(Receive(|Payload(p)|, |p.cur|, rs), Payload(p), Payload(PlanAfter(p, rs)), ReadsNeeded(p, rs))
    decreases |rs|
  {
    if rs != [] {
      var q, r := Advance(p, rs[0].chunk), rs[0];
      DeframeFollowsPlan(p, r);
      AdvanceStream(p, r.chunk);
      var v := Deframe(|Payload(p)|, |p.cur|, r);
      if v.rest != 0 {
        ReceiveFollowsPlan(q, rs[1..]);
      } else {
        NothingLeft(q, rs[1..]);
      }
      JoinedReaches(p, q, v, Receive(v.rest, v.packageRest, rs[1..]), Payload(PlanAfter(q, rs[1..])),
                    ReadsNeeded(q, rs[1..]));
    }
  }

  lemma {:induction false} NothingLeft(p: Plan, rs: seq<Read>)
    requires AdmissibleRun(p, rs) && Payload(p) == []
    ensures Payload(PlanAfter(p, rs)) == []
    decreases |rs|
  {
    if rs != [] {
      var q := Advance(p, rs[0].chunk);
      if |rs[0].chunk| > |p.cur| {
        assert |Payloads(p.later)| == |p.later[0].payload| + |Payloads(p.later[1..])|;
      }
      NothingLeft(q, rs[1..]);
    }
  }

  lemma EmptyFrame(later: seq<Package>)
    requires Framed(later)
    ensures Frame(later) == [] <==> later == []
  {
    if later != [] {
      assert Introduced(later[0]);
    }
  }

  /** Nothing of the file is to come once its whole stream has been read. */
  lemma NothingToCome(p: Plan, rs: seq<Read>)
    requires Framed(p.later) && AdmissibleRun(p, rs) && Received(rs) == Stream(p)
    ensures Payload(PlanAfter(p, rs)) == []
  {
    RunConsumesStream(p, rs);
    var q := PlanAfter(p, rs);
    assert |Stream(p)| == |Received(rs)| + |Stream(q)|;
    EmptyFrame(q.later);
  }

  /** Deframing undoes framing: any admissible cut of a framed file stores the file, the moment its last byte arrives.
      */
  lemma UploadStoresFile(packages: seq<Package>, rs: seq<Read>)
    requires Framed(packages) && 0 < |Payloads(packages)| < SIZE_SPAN
    requires AdmissibleRun(Plan([], packages), rs) && NonEmptyReads(rs)
    requires Received(rs) == Frame(packages)
    ensures var g := Receive(|Payloads(packages)|, 0, rs);
            && g.outcome == Complete
            && g.stored == Payloads(packages)
            && g.used == ReadsNeeded(Plan([], packages), rs)
  {
    var p := Plan([], packages);
    assert Payload(p) == Payloads(packages) && Stream(p) == Frame(packages);
    NothingToCome(p, rs);
    ReceiveFollowsPlan(p, rs);
  }

  // ----- alignment -----

  /** Every package but the last is full. */
  predicate FullPackages(later: seq<Package>) {
    forall k | 0 <= k < |later| - 1 :: |later[k].payload| == PACKAGE_SIZE
  }

  /** The reads cut the stream into pieces of `INBUFSIZE` bytes, the last one shorter if need be. */
  predicate FullReads(stream: Bytes, rs: seq<Read>)
    decreases |rs|
  {
    if rs == [] then stream == []
    else
      && stream != []
      && rs[0].chunk == Take(stream, INBUFSIZE)
      && FullReads(stream[|rs[0].chunk|..], rs[1..])
  }

  /** Inside the stream of full packages a full read never cuts a descriptor and never reaches two of them. */
  lemma AlignedRead(p: Plan)
    requires Framed(p.later) && FullPackages(p.later) && Stream(p) != []
    requires p.later != [] ==> |p.cur| % DESCRIPTOR_SIZE == 0
    ensures var c := Take(Stream(p), INBUFSIZE);
            && Admissible(p, c)
            && FullPackages(Advance(p, c).later)
            && (Advance(p, c).later != [] ==> |Advance(p, c).cur| % DESCRIPTOR_SIZE == 0)
  {
    var c := Take(Stream(p), INBUFSIZE);
    if |c| > |p.cur| {
      assert p.later != [];
      assert Introduced(p.later[0]);
      StreamParts(p);
      if |p.later| == 1 {
        assert Frame(p.later[1..]) == [];
      }
    }
  }

  lemma {:induction false} AlignedReads(p: Plan, rs: seq<Read>)
    requires Framed(p.later) && FullPackages(p.later)
    requires p.later != [] ==> |p.cur| % DESCRIPTOR_SIZE == 0
    requires FullReads(Stream(p), rs)
    ensures AdmissibleRun(p, rs) && NonEmptyReads(rs) && Received(rs) == Stream(p)
    decreases |rs|
  {
    if rs != [] {
      var c := rs[0].chunk;
      AlignedRead(p);
      AdvanceStream(p, c);
      assert Stream(p)[|c|..] == Stream(Advance(p, c));
      AlignedReads(Advance(p, c), rs[1..]);
    }
  }

  /** Full packages and full reads need no framing assumption: such an upload of any non-empty file is stored whole. */
  lemma AlignedUploadStoresFile(packages: seq<Package>, rs: seq<Read>)
    requires Framed(packages) && FullPackages(packages) && 0 < |Payloads(packages)| < SIZE_SPAN
    requires FullReads(Frame(packages), rs)
    ensures NonEmptyReads(rs)
    ensures var g := Receive(|Payloads(packages)|, 0, rs);
            g.outcome == Complete && g.stored == Payloads(packages)
  {
    assert Stream(Plan([], packages)) == Frame(packages);
    AlignedReads(Plan([], packages), rs);
    UploadStoresFile(packages, rs);
  }

  /** A client that fills every package it can. */
  function Packaged(file: Bytes): (ps: seq<Package>) {
    if file == [] then []
    else
      var piece := Take(file, PACKAGE_SIZE);
      [Package(Announce(|piece|), piece)] + Packaged(file[|piece|..])
  }

  lemma {:induction false} PackagedFrames(file: Bytes)
    ensures Framed(Packaged(file)) && FullPackages(Packaged(file)) && Payloads(Packaged(file)) == file
    ensures file != [] ==> Packaged(file) != []
  {
    if file != [] {
      var piece := Take(file, PACKAGE_SIZE);
      AnnounceParses(|piece|);
      PackagedFrames(file[|piece|..]);
      assert Packaged(file)[1..] == Packaged(file[|piece|..]);
      assert file == piece + file[|piece|..];
      assert file[|piece|..] != [] ==> |piece| == PACKAGE_SIZE;
    }
  }

  /** Every non-empty file a client packages this way is stored byte for byte. */
  lemma PackagedUploadStoresFile(file: Bytes, rs: seq<Read>)
    requires 0 < |file| < SIZE_SPAN
    requires FullReads(Frame(Packaged(file)), rs)
    ensures NonEmptyReads(rs)
    ensures var g := Receive(|file|, 0, rs);
            g.outcome == Complete && g.stored == file
  {
    PackagedFrames(file);
    AlignedUploadStoresFile(Packaged(file), rs);
  }
}
