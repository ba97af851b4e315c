/** An observer of all clients: what each has announced, what was saved, and what was delivered. */
module Observer {
  import opened Prelude
  import opened Naming
  import opened Environment
  import opened SessionSpec
  import opened ServerSpec
  import opened Invariant
  import opened Confinement
  import opened Framing
  import opened Uploads
  import Commands
  import Downloads

  /** A saved file of a conforming upload: the name its uploader asked for and the bytes it announced. */
  datatype Paid = Paid(name: string, bytes: Bytes)

  /** A download that has begun: how much its client had received before, and the name it asked for. */
  datatype Start = Start(from: nat, name: string)

  /** A finished download: the name that was asked for, the stored path and the bytes its client received. */
  datatype Delivery = Delivery(name: string, path: string, bytes: Bytes)

  /** The server together with what an observer of all clients has seen. */
  datatype History = History(
    w: World,
    plans: map<nat, Announced>,  // uploads whose clients have conformed so far
    paid: map<string, Paid>,     // saved files of conforming uploads, by their paths
    base: map<nat, Start>,       // the current or last download of each slot
    delivered: seq<Delivery>)

  /** A connection arrives, or slot `i` gets its turn. `intent` is what the client of the slot will send
      if this turn accepts an upload from it. */
  datatype Event = Arrival(answers: Answers)
    | SlotEvent(i: nat, readable: set<int>, answers: Answers, intent: Option<seq<Package>>)

  /** The line that a turn reads from its client. */
  function LineRead(s: Session, a: Answers): string
    requires Sound(s)
  {
    var line := ReadLine(s, a).1;
    if line.Some? then line.value else ""
  }

  /** A client conforms if it means to send a framed stream of exactly as many bytes as its request declares. */
  function AnnouncedBy(line: string, intent: Option<seq<Package>>): Option<Announced> {
    match Commands.ParseUpload(line)
    case UploadRequest(name, size, _) =>
      if intent.Some? && Framed(intent.value) && |Payloads(intent.value)| == size then
        Some(Announced(Plan([], intent.value), Payloads(intent.value), name))
      else None
    case _ => None
  }

  function AskedFor(line: string): string {
    match Commands.ParseDownload(line)
    case DownloadRequest(name) => name
    case _ => ""
  }

  /** The announcement that slot `i` follows after its turn, if its client conforms. */
  function NextPlan(o: History, e: Event, s: Session, s': Option<Session>): Option<Announced>
    requires e.SlotEvent? && Sound(s)
  {
    if s'.None? || !Uploading(s'.value) then None
    else if !Uploading(s) then AnnouncedBy(LineRead(s, e.answers), e.intent)
    else if e.i !in o.plans then None
    else if s.mode == Upload && s.fd in e.readable then
      var c := UploadRead(e.answers).chunk;
      if Admissible(o.plans[e.i].plan, c) then
        Some(o.plans[e.i].(plan := Advance(o.plans[e.i].plan, c)))
      else None
    else Some(o.plans[e.i])
  }

  function Put<K, V>(m: map<K, V>, k: K, v: Option<V>): map<K, V> {
    if v.Some? then m[k := v.value] else m - {k}
  }

  /** Where a download that this turn has begun starts in what the client receives, and what the client asked for. */
  function NextBase(base: map<nat, Start>, i: nat, s: Session, line: string, after: After): map<nat, Start> {
    if after.s.Some? && Downloading(after.s.value) && !Downloading(s) && i in after.m.wire
    then base[i := Start(|after.m.wire[i]|, AskedFor(line))] else base
  }

  predicate Completes(o: History, e: Event, s: Session, w': World)
    requires e.SlotEvent? && |w'.slots| == MAX_CONNECTIONS && e.i < MAX_CONNECTIONS
  {
    && s.mode == Download && s.fd in e.readable && s.file.Some?
    && w'.slots[e.i].Some? && w'.slots[e.i].value.mode == Wait
    && e.i in o.base && e.i in w'.m.wire && |w'.m.wire[e.i]| == o.base[e.i].from + s.file.value.size
  }

  /** The files saved from conforming uploads, after a turn that may have added a record. */
  function NextPaid(o: History, i: nat, s: Session, m': Machine): map<string, Paid> {
    if s.mode == Description && s.file.Some? && i in o.plans && |m'.records| > |o.w.m.records|
    then o.paid[s.file.value.path := Paid(o.plans[i].name, o.plans[i].whole)] else o.paid
  }

  function NextDelivered(o: History, e: Event, s: Session, w': World): seq<Delivery>
    requires e.SlotEvent? && |w'.slots| == MAX_CONNECTIONS && e.i < MAX_CONNECTIONS
  {
    if Completes(o, e, s, w') then
      var start := o.base[e.i];
      o.delivered + [Delivery(start.name, s.file.value.path, w'.m.wire[e.i][start.from..])]
    else o.delivered
  }

  function Observe(o: History, e: Event, s: Session, w': World): History
    requires e.SlotEvent? && |w'.slots| == MAX_CONNECTIONS && e.i < MAX_CONNECTIONS && Sound(s)
  {
    var s' := w'.slots[e.i];
    History(w', Put(o.plans, e.i, NextPlan(o, e, s, s')), NextPaid(o, e.i, s, w'.m),
            NextBase(o.base, e.i, s, LineRead(s, e.answers), After(s', w'.m)), NextDelivered(o, e, s, w'))
  }

  function Happen(o: History, e: Event, h: Hash): (o': History)
    requires Shaped(o.w)
    ensures Shaped(o'.w)
  {
    match e
    case Arrival(a) => o.(w := Accept(o.w, a))
    case SlotEvent(i, readable, a, _) =>
      if i >= MAX_CONNECTIONS || o.w.slots[i].None? then o
      else Observe(o, e, o.w.slots[i].value, Dispatch(o.w, i, readable, a, h))
  }

  function Happens(o: History, events: seq<Event>, h: Hash): (o': History)
    requires Shaped(o.w)
    ensures Shaped(o'.w)
    decreases |events|
  {
    if events == [] then o
    else
      var o' := Happen(o, events[0], h);
      Happens(o', events[1..], h)
  }

  lemma {:induction false} HappensAppend(o: History, before: seq<Event>, behind: seq<Event>, h: Hash)
    requires Shaped(o.w)
    ensures Happens(o, before + behind, h) == Happens(Happens(o, before, h), behind, h)
    decreases |before|
  {
    if before == [] {
      assert before + behind == behind;
    } else {
      assert (before + behind)[1..] == before[1..] + behind;
      HappensAppend(Happen(o, before[0], h), before[1..], behind, h);
    }
  }

  // ----- what the observer can count on -----

  /** Some record has this name and leads to this path. */
  ghost predicate Recorded(m: Machine, path: string, name: string) {
    exists r :: r in m.records && PathOf(r.hash) == path && r.name == name
  }

  /** Since its download began the client has received the first part of the file recorded under the name it asked for.
      */
  ghost predicate BaseOk(base: map<nat, Start>, s: Session, i: nat, m: Machine) {
    Downloading(s) && s.file.Some? && s.file.value.path in m.files && i in m.wire ==>
      && i in base && base[i].from <= |m.wire[i]|
      && 0 <= Downloads.Sent(s) <= |m.files[s.file.value.path]|
      && m.wire[i][base[i].from..] == m.files[s.file.value.path][..Downloads.Sent(s)]
      && Recorded(m, s.file.value.path, base[i].name)
  }

  ghost predicate StoredAs(m: Machine, path: string, bytes: Bytes) {
    IsSaved(m, path) && path in m.files && m.files[path] == bytes
  }

  /** The bytes are stored, and every record that leads to them has the name and the length. */
  ghost predicate PaidOk(m: Machine, path: string, p: Paid) {
    && StoredAs(m, path, p.bytes)
    && forall r <- m.records :: PathOf(r.hash) == path ==> r.name == p.name && r.size == |p.bytes|
  }

  ghost predicate DeliveredOk(m: Machine, d: Delivery) {
    StoredAs(m, d.path, d.bytes) && Recorded(m, d.path, d.name)
  }

  /** Every announcement is that of a slot's session, and right. */
  ghost predicate PlansOk(plans: map<nat, Announced>, w: World) {
    forall i <- plans :: i < |w.slots| && w.slots[i].Some? && PlanOk(plans[i], w.slots[i].value, w.m)
  }

  ghost predicate Consistent(o: History) {
    && Inv(o.w)
    && PlansOk(o.plans, o.w)
    && (forall i: nat | i < MAX_CONNECTIONS && o.w.slots[i].Some? :: BaseOk(o.base, o.w.slots[i].value, i, o.w.m))
    && (forall p <- o.paid :: PaidOk(o.w.m, p, o.paid[p]))
    && (forall d <- o.delivered :: DeliveredOk(o.w.m, d))
  }
}
