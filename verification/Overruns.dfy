/** Reads that the deframer does not handle: exactly which ones, and what becomes of them. */
module Overruns {
  import opened Prelude
  import opened Framing
  import Deframing

  /** Where a client's stream stands after `n` bytes. */
  datatype Place = Inside(package: nat, file: nat) // bytes to come of the package at hand and of the file
    | InDescriptor

  function Locate(p: Plan, n: nat): Place
    decreases |p.later|
  {
    if n <= |p.cur| then Inside(|p.cur| - n, |Payload(p)| - n)
    else if p.later == [] || n < |p.cur| + DESCRIPTOR_SIZE then InDescriptor
    else Locate(Plan(p.later[0].payload, p.later[1..]), n - |p.cur| - DESCRIPTOR_SIZE)
  }

  /** The server's counters say where the client's stream stands. */
  predicate KeepsPace(v: Verdict, place: Place) {
    !v.cancelled && place == Inside(v.packageRest, v.rest)
  }

  predicate NonEmptyPackages(later: seq<Package>) {
    forall q <- later :: q.payload != []
  }

  // ----- where the stream stands -----

  /** A package is part of the file, and nothing is to come at the end of the stream. */
  lemma {:induction false} LocateBounds(p: Plan, n: nat)
    requires Framed(p.later) && n <= |Stream(p)|
    ensures Locate(p, n).Inside? ==> Locate(p, n).package <= Locate(p, n).file
    ensures n == |Stream(p)| ==> Locate(p, n) == Inside(0, 0)
    decreases |p.later|
  {
    if p.later != [] {
      assert Introduced(p.later[0]);
      if n >= |p.cur| + DESCRIPTOR_SIZE {
        LocateBounds(Plan(p.later[0].payload, p.later[1..]), n - |p.cur| - DESCRIPTOR_SIZE);
      }
    }
  }

  /** Behind the last file byte there are no places but the end and descriptors. */
  lemma {:induction false} LocateBehindFile(p: Plan, n: nat)
    requires |p.cur| <= n && Payloads(p.later) == []
    ensures Locate(p, n).Inside? ==> Locate(p, n) == Inside(0, 0)
    decreases |p.later|
  {
    if p.later != [] && n >= |p.cur| + DESCRIPTOR_SIZE {
      LocateBehindFile(Plan(p.later[0].payload, p.later[1..]), n - |p.cur| - DESCRIPTOR_SIZE);
    }
  }

  lemma LocateNext(p: Plan, len: nat)
    requires p.later != [] && len <= |p.later[0].payload|
    ensures Locate(p, |p.cur| + DESCRIPTOR_SIZE + len) == Inside(|p.later[0].payload| - len, |Payloads(p.later)| - len)
  {
  }

  // ----- the exact condition -----

  /** The reads after which the counters are right: inside the package at hand; or to a point outside descriptors, as
      far as into the next package, or further if the file ends with that one. Once the file is complete nothing is
      read. */
  predicate Handled(p: Plan, c: Bytes) {
    || |c| <= |p.cur|
    || (&& Locate(p, |c|).Inside? && p.later != []
        && if Payloads(p.later) == [] then p.cur == []
           else |c| <= |p.cur| + DESCRIPTOR_SIZE + |p.later[0].payload| || Payloads(p.later[1..]) == [])
  }

  /** What the server makes of a read that holds the next descriptor. */
  lemma VerdictBeyond(p: Plan, r: Read)
    requires p.later != [] && Introduced(p.later[0])
    requires Payloads(p.later) != [] && |p.cur| + |Payloads(p.later)| < SIZE_SPAN
    requires r.chunk <= Stream(p) && |r.chunk| >= |p.cur| + DESCRIPTOR_SIZE
    ensures var v := Deframe(|p.cur| + |Payloads(p.later)|, |p.cur|, r);
            var from := |p.cur| + DESCRIPTOR_SIZE;
            var len := Min(|r.chunk| - from, |Payloads(p.later)|);
            && !v.cancelled && v.rest == |Payloads(p.later)| - len
            && v.packageRest == ToSize(|p.later[0].payload| - len)
            && Written(v) == p.cur + r.chunk[from..from + len]
  {
    HeadInPlace(p, r);
    var len := Min(|r.chunk| - |p.cur| - DESCRIPTOR_SIZE, |Payloads(p.later)|);
    DeframeAtDescriptor(|p.cur| + |Payloads(p.later)|, |p.cur|, r, |p.later[0].payload|, len);
  }

  lemma CountersBeyond(p: Plan, r: Read, len: nat)
    requires p.later != [] && Introduced(p.later[0])
    requires Payloads(p.later) != [] && |p.cur| + |Payloads(p.later)| < SIZE_SPAN
    requires r.chunk <= Stream(p) && |r.chunk| >= |p.cur| + DESCRIPTOR_SIZE
    requires len == Min(|r.chunk| - |p.cur| - DESCRIPTOR_SIZE, |Payloads(p.later)|)
    ensures var v := Deframe(|p.cur| + |Payloads(p.later)|, |p.cur|, r);
            v.rest == |Payloads(p.later)| - len && v.packageRest == ToSize(|p.later[0].payload| - len)
  {
    VerdictBeyond(p, r);
  }

  lemma CounterWraps(x: int)
    requires -SIZE_SPAN <= x < 0
    ensures ToSize(x) == x + SIZE_SPAN
  {
  }

  /** Counters that have run past a package of `size` bytes name no place of a stream. */
  lemma NoSuchPlace(size: nat, all: nat, len: nat, v: Verdict, place: Place)
    requires size < len <= all < SIZE_SPAN
    requires v.rest == all - len && v.packageRest == ToSize(size - len)
    requires place.Inside? ==> place.package <= place.file
    ensures !KeepsPace(v, place)
  {
    CounterWraps(size - len);
  }

  lemma PaceWithin(p: Plan, r: Read)
    requires r.chunk != [] && |r.chunk| <= |p.cur| && |Payload(p)| < SIZE_SPAN
    ensures KeepsPace(Deframe(|Payload(p)|, |p.cur|, r), Locate(p, |r.chunk|))
  {
    CounterFits(|Payload(p)| - |r.chunk|);
  }

  lemma PaceAtEnd(p: Plan, r: Read)
    requires p.later != [] && Payloads(p.later) == [] && |r.chunk| > |p.cur| && |p.cur| < SIZE_SPAN
    ensures KeepsPace(Deframe(|p.cur|, |p.cur|, r), Locate(p, |r.chunk|)) <==> Handled(p, r.chunk)
  {
    DeframeAtEnd(|p.cur|, |p.cur|, r);
    LocateBehindFile(p, |r.chunk|);
  }

  lemma PaceAcross(p: Plan, r: Read)
    requires p.later != [] && Introduced(p.later[0])
    requires Payloads(p.later) != [] && |p.cur| + |Payloads(p.later)| < SIZE_SPAN
    requires r.chunk <= Stream(p)
    requires 0 <= |r.chunk| - |p.cur| - DESCRIPTOR_SIZE <= |p.later[0].payload|
    ensures KeepsPace(Deframe(|p.cur| + |Payloads(p.later)|, |p.cur|, r), Locate(p, |r.chunk|))
  {
    var left := |r.chunk| - |p.cur| - DESCRIPTOR_SIZE;
    VerdictBeyond(p, r);
    LocateNext(p, left);
    CounterFits(|p.later[0].payload| - left);
  }

  lemma PaceLost(p: Plan, r: Read)
    requires Framed(p.later) && p.later != [] && |p.cur| + |Payloads(p.later)| < SIZE_SPAN && Payloads(p.later) != []
    requires r.chunk <= Stream(p) && |r.chunk| > |p.cur| + DESCRIPTOR_SIZE + |p.later[0].payload|
    requires |p.later[0].payload| < |Payloads(p.later)|
    ensures !KeepsPace(Deframe(|p.cur| + |Payloads(p.later)|, |p.cur|, r), Locate(p, |r.chunk|))
  {
    var all := |Payloads(p.later)|;
    var len := Min(|r.chunk| - |p.cur| - DESCRIPTOR_SIZE, all);
    LocateBounds(p, |r.chunk|);
    assert Introduced(p.later[0]);
    CountersBeyond(p, r, len);
    NoSuchPlace(|p.later[0].payload|, all, len, Deframe(|p.cur| + all, |p.cur|, r), Locate(p, |r.chunk|));
  }

  lemma PaceAtFileEnd(p: Plan, r: Read)
    requires p.later != [] && Introduced(p.later[0])
    requires Payloads(p.later) != [] && |p.cur| + |Payloads(p.later)| < SIZE_SPAN
    requires r.chunk <= Stream(p) && |r.chunk| > |p.cur| + DESCRIPTOR_SIZE + |p.later[0].payload|
    requires Payloads(p.later[1..]) == []
    ensures KeepsPace(Deframe(|p.cur| + |Payloads(p.later)|, |p.cur|, r), Locate(p, |r.chunk|))
            <==> Locate(p, |r.chunk|).Inside?
  {
    VerdictBeyond(p, r);
    LocateBehindFile(Plan(p.later[0].payload, p.later[1..]), |r.chunk| - |p.cur| - DESCRIPTOR_SIZE);
    CounterFits(0);
  }

  lemma PaceAtDescriptor(p: Plan, r: Read)
    requires Framed(p.later) && p.later != [] && |p.cur| + |Payloads(p.later)| < SIZE_SPAN && Payloads(p.later) != []
    requires r.chunk <= Stream(p) && |r.chunk| >= |p.cur| + DESCRIPTOR_SIZE
    ensures KeepsPace(Deframe(|p.cur| + |Payloads(p.later)|, |p.cur|, r), Locate(p, |r.chunk|)) <==> Handled(p, r.chunk)
  {
    assert Introduced(p.later[0]) && |Payloads(p.later)| == |p.later[0].payload| + |Payloads(p.later[1..])|;
    var left := |r.chunk| - |p.cur| - DESCRIPTOR_SIZE;
    if left <= |p.later[0].payload| {
      PaceAcross(p, r);
      LocateNext(p, left);
    } else if Payloads(p.later[1..]) == [] {
      PaceAtFileEnd(p, r);
    } else {
      PaceLost(p, r);
    }
  }

  /** For any framed stream and any read of it, the last one included, the counters say where the stream stands exactly
      when the read is one of those, whatever the old buffer holds. */
  lemma KeepsPaceIffHandled(p: Plan, r: Read)
    requires Framed(p.later) && |Payload(p)| < SIZE_SPAN && r.chunk != [] && r.chunk <= Stream(p)
    ensures KeepsPace(Deframe(|Payload(p)|, |p.cur|, r), Locate(p, |r.chunk|)) <==> Handled(p, r.chunk)
  {
    if |r.chunk| <= |p.cur| {
      PaceWithin(p, r);
    } else if Payloads(p.later) == [] {
      PaceAtEnd(p, r);
    } else if |r.chunk| >= |p.cur| + DESCRIPTOR_SIZE {
      PaceAtDescriptor(p, r);
    }
  }

  lemma HandledIsAdmissible(p: Plan, c: Bytes)
    requires Framed(p.later) && NonEmptyPackages(p.later) && c != [] && c <= Stream(p)
    ensures Handled(p, c) <==> Admissible(p, c)
  {
    if p.later != [] {
      assert p.later[0].payload != [] && Introduced(p.later[0]);
      if |p.later| > 1 {
        assert p.later[1].payload != [];
        assert p.later[1..][0] == p.later[1];
      } else {
        assert Frame(p.later[1..]) == [];
        StreamParts(p);
      }
      var len := |c| - |p.cur| - DESCRIPTOR_SIZE;
      if 0 <= len <= |p.later[0].payload| {
        LocateNext(p, len);
      }
    }
  }

  /** If no package is empty, the counters keep pace exactly when the read is admissible: any cut inside a descriptor
      and any read past the end of its package puts them out of step. */
  lemma KeepsPaceIffAdmissible(p: Plan, r: Read)
    requires Framed(p.later) && NonEmptyPackages(p.later) && |Payload(p)| < SIZE_SPAN
    requires r.chunk != [] && r.chunk <= Stream(p)
    ensures KeepsPace(Deframe(|Payload(p)|, |p.cur|, r), Locate(p, |r.chunk|)) <==> Admissible(p, r.chunk)
  {
    KeepsPaceIffHandled(p, r);
    HandledIsAdmissible(p, r.chunk);
  }

  // ----- a whole file in one read -----

  lemma {:induction false} FrameLength(later: seq<Package>)
    requires Framed(later)
    ensures |Frame(later)| == DESCRIPTOR_SIZE * |later| + |Payloads(later)|
  {
    if later != [] {
      assert Introduced(later[0]);
      FrameLength(later[1..]);
    }
  }

  lemma OneReadUpload(rest: Size, r: Read, stored: Bytes)
    requires r.chunk != [] && Written(Deframe(rest, 0, r)) == stored
    requires Deframe(rest, 0, r).rest == 0 && !Deframe(rest, 0, r).cancelled
    ensures Deframing.Receive(rest, 0, [r]).outcome == Deframing.Complete
    ensures Deframing.Receive(rest, 0, [r]).stored == stored
  {
  }

  lemma SeveralOverrun(packages: seq<Package>)
    requires Framed(packages) && NonEmptyPackages(packages) && |packages| >= 2
    ensures Payloads(packages) != [] && |Frame(packages)| >= DESCRIPTOR_SIZE + |Payloads(packages)|
    ensures !Admissible(Plan([], packages), Frame(packages))
  {
    assert packages[1..][0] == packages[1] && Introduced(packages[0]) && Introduced(packages[1]);
    assert packages[0].payload != [] && packages[1].payload != [];
    FrameLength(packages);
    FrameLength(packages[1..]);
  }

  /** The verdict on a whole stream of several packages. */
  lemma SeveralVerdict(packages: seq<Package>, r: Read)
    requires packages != [] && Introduced(packages[0]) && r.chunk == Frame(packages)
    requires 0 < |Payloads(packages)| < SIZE_SPAN && |r.chunk| >= DESCRIPTOR_SIZE + |Payloads(packages)|
    ensures var v, n := Deframe(|Payloads(packages)|, 0, r), |Payloads(packages)|;
            !v.cancelled && v.rest == 0 && Written(v) == r.chunk[DESCRIPTOR_SIZE..DESCRIPTOR_SIZE + n]
  {
    var p, n := Plan([], packages), |Payloads(packages)|;
    assert Stream(p) == r.chunk;
    VerdictBeyond(p, r);
    var stored := r.chunk[DESCRIPTOR_SIZE..DESCRIPTOR_SIZE + n];
    assert [] + stored == stored;
  }

  /** A file of several packages that arrives in one read is taken for complete at once. What is stored follows the
      first descriptor byte for byte: in place of the end of the file it holds the descriptors in between. */
  lemma SeveralPackagesInOneRead(packages: seq<Package>, beyond: Bytes)
    requires Framed(packages) && NonEmptyPackages(packages) && |packages| >= 2 && |Payloads(packages)| < SIZE_SPAN
    ensures var r, n := Read(Frame(packages), beyond), |Payloads(packages)|;
            && r.chunk != [] && |r.chunk| >= DESCRIPTOR_SIZE + n
            && !Admissible(Plan([], packages), r.chunk)
            && !KeepsPace(Deframe(n, 0, r), Locate(Plan([], packages), |r.chunk|))
            && Deframing.Receive(n, 0, [r]).outcome == Deframing.Complete
            && Deframing.Receive(n, 0, [r]).stored == r.chunk[DESCRIPTOR_SIZE..DESCRIPTOR_SIZE + n]
  {
    var p, r, n := Plan([], packages), Read(Frame(packages), beyond), |Payloads(packages)|;
    SeveralOverrun(packages);
    assert Stream(p) == r.chunk && Payload(p) == Payloads(packages);
    KeepsPaceIffAdmissible(p, r);
    assert Introduced(packages[0]);
    SeveralVerdict(packages, r);
    OneReadUpload(n, r, r.chunk[DESCRIPTOR_SIZE..DESCRIPTOR_SIZE + n]);
  }

  lemma PairFramed(x: Package, y: Package)
    ensures Frame([x, y]) == x.head + x.payload + (y.head + y.payload)
    ensures Payloads([x, y]) == x.payload + y.payload
  {
    assert [x, y][1..] == [y] && [y][1..] == [];
    assert Frame([y]) == y.head + y.payload + [];
    assert Payloads([y]) == y.payload + [];
  }

  lemma ThirdByte(head: Bytes, a: Byte, b: Byte)
    requires |head| == DESCRIPTOR_SIZE
    ensures (head + [a] + (head + [b]))[16..18] == [a, head[0]]
  {
  }

  lemma TwoBytesInOneRead(head: Bytes, a: Byte, b: Byte, beyond: Bytes)
    requires Introduced(Package(head, [a])) && Introduced(Package(head, [b]))
    ensures var packages := [Package(head, [a]), Package(head, [b])];
            var g := Deframing.Receive(2, 0, [Read(Frame(packages), beyond)]);
            && Framed(packages) && Payloads(packages) == [a, b]
            && g.outcome == Deframing.Complete && g.stored == [a, head[0]]
  {
    PairFramed(Package(head, [a]), Package(head, [b]));
    assert [a] + [b] == [a, b];
    SeveralPackagesInOneRead([Package(head, [a]), Package(head, [b])], beyond);
    ThirdByte(head, a, b);
  }

  /** For instance: of two one-byte packages the second byte is lost, and the first byte of its descriptor kept. */
  lemma TwoPackagesInOneRead(a: Byte, b: Byte, beyond: Bytes)
    ensures var packages := [Package(Announce(1), [a]), Package(Announce(1), [b])];
            var g := Deframing.Receive(2, 0, [Read(Frame(packages), beyond)]);
            && Framed(packages) && Payloads(packages) == [a, b]
            && g.outcome == Deframing.Complete && g.stored == [a, Announce(1)[0]] && Announce(1)[0] == 0
  {
    AnnounceParses(1);
    TwoBytesInOneRead(Announce(1), a, b, beyond);
  }

  // ----- a descriptor in two reads -----

  /** A first read that ends inside the descriptor, although the old buffer happens to hold the missing bytes. */
  lemma CutRead(head: Bytes, size: Size, k: nat)
    requires |head| == DESCRIPTOR_SIZE && ParseDescriptor(head) == Descriptor(Continue, size) && 0 < k < DESCRIPTOR_SIZE
    requires 0 < size && size + DESCRIPTOR_SIZE < SIZE_SPAN
    ensures Deframe(size, 0, Read(head[..k], head[k..])) == Verdict([], None, size, size + DESCRIPTOR_SIZE - k, false)
  {
    var r := Read(head[..k], head[k..]);
    assert Peek(r, 0) == head;
    CounterFits(size);
    CounterFits(size + DESCRIPTOR_SIZE - k);
  }

  /** The rest of the descriptor and the file are then taken for the package, and the count of missing bytes wraps. */
  lemma ReadAfterCut(rest: Size, r: Read, n: int)
    requires 0 < n && |r.chunk| == rest + n < SIZE_SPAN
    ensures Deframe(rest, rest + n, r) == Verdict(r.chunk, None, SIZE_SPAN - n, 0, false)
  {
    CounterWraps(0 - n);
  }

  lemma WholeAgain(head: Bytes, file: Bytes, k: nat)
    requires k <= |head|
    ensures head[..k] + (head[k..] + file + []) == Frame([Package(head, file)])
  {
    assert Frame([Package(head, file)]) == head + file + [];
    assert head == head[..k] + head[k..];
  }

  lemma TwoReads(rest: Size, first: Read, v: Verdict, second: Read, u: Verdict)
    requires first.chunk != [] && Deframe(rest, 0, first) == v && !v.cancelled && v.rest != 0
    requires second.chunk != [] && Deframe(v.rest, v.packageRest, second) == u && !u.cancelled && u.rest != 0
    ensures Deframing.Receive(rest, 0, [first, second])
            == Deframing.Progress(Written(v) + Written(u), u.rest, u.packageRest, 2, Deframing.Waiting)
  {
    assert [first, second][1..] == [second] && [second][1..] == [];
    var none := Deframing.Receive(u.rest, u.packageRest, []);
    assert Written(u) + none.stored == Written(u);
  }

  lemma ReceivedPair(first: Read, second: Read)
    ensures Deframing.Received([first, second]) == first.chunk + (second.chunk + [])
  {
    assert [first, second][1..] == [second] && [second][1..] == [];
    assert Deframing.Received([]) == [];
    assert Deframing.Received([second]) == second.chunk + [];
  }

  lemma CutStream(head: Bytes, file: Bytes, k: nat, first: Read, second: Read)
    requires k <= |head| && first.chunk == head[..k] && second.chunk == head[k..] + file
    ensures Deframing.Received([first, second]) == Frame([Package(head, file)])
  {
    ReceivedPair(first, second);
    WholeAgain(head, file, k);
  }

  /** For instance: a one-package file whose descriptor is cut anywhere. The rest of the descriptor is stored in front
      of the file, and the upload does not end with it. */
  lemma CutDescriptorIsStored(head: Bytes, file: Bytes, k: nat, first: Read, second: Read)
    requires Introduced(Package(head, file)) && 0 < k < DESCRIPTOR_SIZE
    requires file != [] && |file| + DESCRIPTOR_SIZE < SIZE_SPAN
    requires first == Read(head[..k], head[k..]) && second.chunk == head[k..] + file
    ensures Deframing.Received([first, second]) == Frame([Package(head, file)])
    ensures Deframing.Receive(|file|, 0, [first, second])
            == Deframing.Progress(head[k..] + file, SIZE_SPAN - (DESCRIPTOR_SIZE - k), 0, 2, Deframing.Waiting)
  {
    CutStream(head, file, k, first, second);
    CutRead(head, |file|, k);
    ReadAfterCut(|file|, second, DESCRIPTOR_SIZE - k);
    var v := Verdict([], None, |file|, |file| + DESCRIPTOR_SIZE - k, false);
    var u := Deframe(|file|, |file| + DESCRIPTOR_SIZE - k, second);
    TwoReads(|file|, first, v, second, u);
    assert Written(v) + Written(u) == second.chunk;
  }
}
