/** The package descriptor and what one read of an upload means. */
module Framing {
  import opened Prelude

  // ----- the descriptor: s_file_pd_t as LP64 lays it out -----

  const DESCRIPTOR_SIZE: nat := 16

  datatype Signal = Continue | Cancel | Finish | Pause | Unknown
  datatype Descriptor = Descriptor(signal: Signal, packageSize: Size)

  function Pow256(k: nat): nat {
    if k == 0 then 1 else 256 * Pow256(k - 1)
  }

  function LittleEndian(n: nat, k: nat): (b: Bytes)
    ensures |b| == k
  {
    if k == 0 then [] else [n % 256] + LittleEndian(n / 256, k - 1)
  }

  function ParseLittleEndian(b: Bytes): (n: nat)
    ensures n < Pow256(|b|)
  {
    if b == [] then 0 else b[0] + 256 * ParseLittleEndian(b[1..])
  }

  lemma {:induction false} LittleEndianParses(n: nat, k: nat)
    requires n < Pow256(k)
    ensures ParseLittleEndian(LittleEndian(n, k)) == n
  {
    if k > 0 {
      LittleEndianParses(n / 256, k - 1);
      assert LittleEndian(n, k)[1..] == LittleEndian(n / 256, k - 1);
    }
  }

  lemma EightBytes()
    ensures Pow256(8) == SIZE_SPAN
  {
  }

  function SignalOf(n: nat): Signal {
    match n
    case 0 => Continue
    case 1 => Cancel
    case 2 => Finish
    case 3 => Pause
    case _ => Unknown
  }

  /** A 4-byte enumerator, 4 bytes of padding and an 8-byte size. */
  function ParseDescriptor(b: Bytes): Descriptor
    requires |b| == DESCRIPTOR_SIZE
  {
    EightBytes();
    Descriptor(SignalOf(ParseLittleEndian(b[..4])), ParseLittleEndian(b[8..]))
  }

  /** What a client sends to announce a package. */
  function Announce(size: Size): (b: Bytes)
    ensures |b| == DESCRIPTOR_SIZE
  {
    LittleEndian(0, 4) + LittleEndian(0, 4) + LittleEndian(size, 8)
  }

  lemma AnnounceParses(size: Size)
    ensures ParseDescriptor(Announce(size)) == Descriptor(Continue, size)
  {
    EightBytes();
    LittleEndianParses(size, 8);
    assert 0 < Pow256(4);
    LittleEndianParses(0, 4);
    assert Announce(size)[..4] == LittleEndian(0, 4);
    assert Announce(size)[8..] == LittleEndian(size, 8);
  }

  lemma {:induction false} ZeroBytes(b: Bytes)
    ensures ParseLittleEndian(b) == 0 <==> forall k | 0 <= k < |b| :: b[k] == 0
  {
    if b != [] {
      ZeroBytes(b[1..]);
      assert forall k | 1 <= k < |b| :: b[k] == b[1..][k - 1];
    }
  }

  /** A client cancels by the number 1, least significant byte first. */
  lemma CancelIff(b: Bytes)
    requires |b| == DESCRIPTOR_SIZE
    ensures ParseDescriptor(b).signal == Cancel <==> b[..4] == [1, 0, 0, 0]
  {
    var n, tail := b[..4], b[1..4];
    assert n[1..] == tail;
    ZeroBytes(tail);
    assert n == [b[0]] + tail;
  }

  // ----- one read -----

  /** One `read` of the upload loop: the bytes it returned and what the buffer holds after them. */
  datatype Read = Read(chunk: Bytes, beyond: Bytes)

  /** What the server does with a read: one or two writes, then new counters, or a cancellation. */
  datatype Verdict = Verdict(first: Bytes, second: Option<Bytes>, rest: Size, packageRest: Size, cancelled: bool)

  /** The 16 bytes of memory found at `at`, zero where neither the read nor the old buffer reaches. */
  function Peek(r: Read, at: nat): (b: Bytes)
    requires at <= |r.chunk|
    ensures |b| == DESCRIPTOR_SIZE
  {
    (r.chunk + r.beyond + seq(DESCRIPTOR_SIZE, _ => 0))[at..at + DESCRIPTOR_SIZE]
  }

  function Deframe(rest: Size, packageRest: Size, r: Read): Verdict
    requires r.chunk != []
  {
    var n := |r.chunk|;
    if packageRest >= n then
      Verdict(r.chunk, None, ToSize(rest - n), packageRest - n, false)
    else
      var first := r.chunk[..packageRest];
      var rest1 := ToSize(rest - packageRest);
      if rest1 == 0 then
        Verdict(first, None, 0, packageRest, false)
      else
        var d := ParseDescriptor(Peek(r, packageRest));
        match d.signal
        case Continue =>
          var left := n - packageRest - DESCRIPTOR_SIZE;
          if left > 0 then
            var len := Min(left, rest1);
            var from := packageRest + DESCRIPTOR_SIZE;
            Verdict(first, Some(r.chunk[from..from + len]), rest1 - len, ToSize(d.packageSize - len), false)
          else
            Verdict(first, None, rest1, ToSize(d.packageSize - left), false)
        case Cancel => Verdict(first, None, rest1, packageRest, true)
        case _ => Verdict(first, None, rest1, packageRest, false)
  }

  /** All the bytes a verdict sends to the file. */
  function Written(v: Verdict): Bytes {
    v.first + if v.second.Some? then v.second.value else []
  }

  /** Whatever a read holds, the bytes written and the bytes still expected add up as before, modulo 2^64. */
  lemma ReadConserves(rest: Size, packageRest: Size, r: Read)
    requires r.chunk != []
    ensures var v := Deframe(rest, packageRest, r);
            ToSize(|Written(v)| + v.rest) == rest
  {
    ToSizeCancels(|r.chunk|, rest);
    ToSizeCancels(packageRest, rest);
  }

  // ----- the client's side -----

  datatype Package = Package(head: Bytes, payload: Bytes)

  /** A client's stream seen from inside a package: what is left of it, and the packages to follow. */
  datatype Plan = Plan(cur: Bytes, later: seq<Package>)

  /** The descriptor announces the payload. */
  predicate Introduced(q: Package) {
    && |q.head| == DESCRIPTOR_SIZE && |q.payload| < SIZE_SPAN
    && ParseDescriptor(q.head) == Descriptor(Continue, |q.payload|)
  }

  predicate Framed(later: seq<Package>) {
    forall q <- later :: Introduced(q)
  }

  function Frame(later: seq<Package>): Bytes {
    if later == [] then [] else later[0].head + later[0].payload + Frame(later[1..])
  }

  function Payloads(later: seq<Package>): Bytes {
    if later == [] then [] else later[0].payload + Payloads(later[1..])
  }

  /** The bytes still to come on the wire. */
  function Stream(p: Plan): Bytes {
    p.cur + Frame(p.later)
  }

  /** The file bytes still to come. */
  function Payload(p: Plan): Bytes {
    p.cur + Payloads(p.later)
  }

  /** The read stays inside one package, or holds a whole descriptor and nothing past that package. */
  predicate Admissible(p: Plan, c: Bytes) {
    && c != []
    && c <= Stream(p)
    && (|c| <= |p.cur|
        || (p.later != []
            && |p.cur| + DESCRIPTOR_SIZE <= |c| <= |p.cur| + DESCRIPTOR_SIZE + |p.later[0].payload|))
  }

  function Advance(p: Plan, c: Bytes): Plan
    requires Admissible(p, c)
  {
    if |c| <= |p.cur| then Plan(p.cur[|c|..], p.later)
    else Plan(p.later[0].payload[|c| - |p.cur| - DESCRIPTOR_SIZE..], p.later[1..])
  }

  lemma StreamParts(p: Plan)
    requires p.later != []
    ensures Stream(p) == p.cur + p.later[0].head + (p.later[0].payload + Frame(p.later[1..]))
  {
    Regroup(p.cur, p.later[0].head, p.later[0].payload, Frame(p.later[1..]));
  }

  /** What a read holds that leaves the current package. */
  lemma AcrossParts(p: Plan, c: Bytes)
    requires p.later != [] && |p.later[0].head| == DESCRIPTOR_SIZE && c <= Stream(p) && |c| >= |p.cur| + DESCRIPTOR_SIZE
    ensures c[..|p.cur|] == p.cur && c[|p.cur|..|p.cur| + DESCRIPTOR_SIZE] == p.later[0].head
    ensures var t, from := p.later[0].payload + Frame(p.later[1..]), |p.cur| + DESCRIPTOR_SIZE;
            |c| - from <= |t| && c[from..] == t[..|c| - from] && Stream(p) == c + t[|c| - from..]
  {
    StreamParts(p);
    PrefixParts(c, p.cur, p.later[0].head, p.later[0].payload + Frame(p.later[1..]));
  }

  lemma DropFront<T>(a: seq<T>, b: seq<T>, n: nat)
    requires n <= |a|
    ensures (a + b)[n..] == a[n..] + b
  {
  }

  lemma AdvanceAcross(p: Plan, c: Bytes, len: nat)
    requires p.later != [] && |p.later[0].head| == DESCRIPTOR_SIZE && len <= |p.later[0].payload|
    requires c <= Stream(p) && |c| == |p.cur| + DESCRIPTOR_SIZE + len
    ensures Stream(p) == c + (p.later[0].payload[len..] + Frame(p.later[1..]))
  {
    var payload, rest := p.later[0].payload, Frame(p.later[1..]);
    AcrossParts(p, c);
    assert |c| - (|p.cur| + DESCRIPTOR_SIZE) == len && Stream(p) == c + (payload + rest)[len..];
    DropFront(payload, rest, len);
  }

  lemma AdvanceInside(p: Plan, c: Bytes)
    requires c <= Stream(p) && |c| <= |p.cur|
    ensures Stream(p) == c + (p.cur[|c|..] + Frame(p.later))
  {
    assert c == p.cur[..|c|];
    assert p.cur == c + p.cur[|c|..];
  }

  lemma AdvanceStream(p: Plan, c: Bytes)
    requires Framed(p.later) && Admissible(p, c)
    ensures Framed(Advance(p, c).later)
    ensures Stream(p) == c + Stream(Advance(p, c))
  {
    if |c| <= |p.cur| {
      AdvanceInside(p, c);
    } else {
      assert Introduced(p.later[0]);
      AdvanceAcross(p, c, |c| - |p.cur| - DESCRIPTOR_SIZE);
    }
  }

  /** Where the server looks for the next descriptor a read that holds it whole has it. */
  lemma HeadInPlace(p: Plan, r: Read)
    requires p.later != [] && |p.later[0].head| == DESCRIPTOR_SIZE
    requires r.chunk <= Stream(p) && |r.chunk| >= |p.cur| + DESCRIPTOR_SIZE
    ensures Peek(r, |p.cur|) == p.later[0].head && r.chunk[..|p.cur|] == p.cur
  {
    AcrossParts(p, r.chunk);
    assert Peek(r, |p.cur|) == r.chunk[|p.cur|..|p.cur| + DESCRIPTOR_SIZE];
  }

  /** The file bytes behind that descriptor. */
  lemma BodyInPlace(p: Plan, c: Bytes, len: nat)
    requires p.later != [] && |p.later[0].head| == DESCRIPTOR_SIZE && c <= Stream(p) && len <= |p.later[0].payload|
    requires |p.cur| + DESCRIPTOR_SIZE + len <= |c|
    ensures var from := |p.cur| + DESCRIPTOR_SIZE;
            c[from..from + len] == p.later[0].payload[..len]
  {
    AcrossParts(p, c);
    var b, from := p.later[0].payload, |p.cur| + DESCRIPTOR_SIZE;
    assert c[from..from + len] == c[from..][..len] == (b + Frame(p.later[1..]))[..len];
  }

  /** `v` is the right answer to a read that turns what is left of `p` into `q`. */
  predicate Follows(v: Verdict, p: Plan, q: Plan) {
    && !v.cancelled
    && Payload(p) == Written(v) + Payload(q)
    && v.rest == |Payload(q)|
    && (v.rest > 0 ==> v.packageRest == |q.cur|)
  }

  lemma InsidePackage(p: Plan, r: Read)
    requires Admissible(p, r.chunk) && |r.chunk| <= |p.cur| && |Payload(p)| < SIZE_SPAN
    ensures Follows(Deframe(|Payload(p)|, |p.cur|, r), p, Advance(p, r.chunk))
  {
    var n := |r.chunk|;
    assert r.chunk == Stream(p)[..n] == p.cur[..n];
    assert p.cur == r.chunk + p.cur[n..];
    assert Payload(p) == r.chunk + (p.cur[n..] + Payloads(p.later));
  }

  /** `Deframe` on a read that ends the package at hand when no file byte is missing afterwards. */
  lemma DeframeAtEnd(rest: Size, packageRest: Size, r: Read)
    requires packageRest < |r.chunk| && packageRest == rest
    ensures Deframe(rest, packageRest, r) == Verdict(r.chunk[..packageRest], None, 0, packageRest, false)
  {
  }

  /** `Deframe` on a read that holds a whole "continue" descriptor with at most `len` file bytes behind it. */
  lemma DeframeAtDescriptor(rest: Size, packageRest: Size, r: Read, size: Size, len: nat)
    requires packageRest + DESCRIPTOR_SIZE <= |r.chunk| && packageRest < rest
    requires ParseDescriptor(Peek(r, packageRest)) == Descriptor(Continue, size)
    requires len == Min(|r.chunk| - packageRest - DESCRIPTOR_SIZE, rest - packageRest)
    ensures var from := packageRest + DESCRIPTOR_SIZE;
            var body := r.chunk[from..from + len];
            Deframe(rest, packageRest, r)
            == Verdict(r.chunk[..packageRest], if body == [] then None else Some(body),
                       rest - packageRest - len, ToSize(size - len), false)
  {
    CounterFits(rest - packageRest);
  }

  /** The right verdict on a read that brings the next descriptor and `len` bytes of its package. */
  lemma FollowsAcross(p: Plan, v: Verdict, len: nat)
    requires p.later != [] && len <= |p.later[0].payload|
    requires v.first == p.cur && !v.cancelled
    requires v.second == if len == 0 then None else Some(p.later[0].payload[..len])
    requires v.rest == |Payloads(p.later)| - len
    requires v.rest > 0 ==> v.packageRest == |p.later[0].payload| - len
    ensures Follows(v, p, Plan(p.later[0].payload[len..], p.later[1..]))
  {
    CutInside(p.cur, p.later[0].payload, len, Payloads(p.later[1..]));
  }

  /** What `Deframe` makes of an admissible read that brings the next descriptor. */
  lemma VerdictAcross(p: Plan, r: Read, len: nat)
    requires p.later != [] && Introduced(p.later[0]) && r.chunk <= Stream(p) && len <= |p.later[0].payload|
    requires |r.chunk| == |p.cur| + DESCRIPTOR_SIZE + len && |p.cur| + |Payloads(p.later)| < SIZE_SPAN
    ensures var v, b := Deframe(|p.cur| + |Payloads(p.later)|, |p.cur|, r), p.later[0].payload;
            && v.first == p.cur && !v.cancelled
            && v.second == (if len == 0 then None else Some(b[..len]))
            && v.rest == |Payloads(p.later)| - len
            && (v.rest > 0 ==> v.packageRest == |b| - len)
  {
    var size, rest := |p.later[0].payload|, |p.cur| + |Payloads(p.later)|;
    HeadInPlace(p, r);
    BodyInPlace(p, r.chunk, len);
    if rest == |p.cur| {
      DeframeAtEnd(rest, |p.cur|, r);
    } else {
      DeframeAtDescriptor(rest, |p.cur|, r, size, len);
      CounterFits(size - len);
    }
  }

  lemma AcrossDescriptor(p: Plan, r: Read)
    requires Framed(p.later) && Admissible(p, r.chunk) && |r.chunk| > |p.cur| && |Payload(p)| < SIZE_SPAN
    ensures Follows(Deframe(|Payload(p)|, |p.cur|, r), p, Advance(p, r.chunk))
  {
    var len := |r.chunk| - |p.cur| - DESCRIPTOR_SIZE;
    assert Introduced(p.later[0]) && |Payload(p)| == |p.cur| + |Payloads(p.later)|;
    VerdictAcross(p, r, len);
    FollowsAcross(p, Deframe(|p.cur| + |Payloads(p.later)|, |p.cur|, r), len);
    assert Advance(p, r.chunk) == Plan(p.later[0].payload[len..], p.later[1..]);
  }

  /** One admissible read moves exactly the file bytes it carries from the stream to the file. */
  lemma DeframeFollowsPlan(p: Plan, r: Read)
    requires Framed(p.later) && Admissible(p, r.chunk) && |Payload(p)| < SIZE_SPAN
    ensures Follows(Deframe(|Payload(p)|, |p.cur|, r), p, Advance(p, r.chunk))
  {
    if |r.chunk| <= |p.cur| {
      InsidePackage(p, r);
    } else {
      AcrossDescriptor(p, r);
    }
  }
}
