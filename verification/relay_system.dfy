/** The outbox relays as one transition system: any number of relay processes with a shared
    clock, the outbox collection, the lease document and the Kafka log.

    As for the service, `Next` is deterministic and an action that is not enabled does nothing.
    A relay's `now` is a clock reading it took earlier, so it may be arbitrarily stale. */
module RelaySystem {
  import opened Schema
  import opened Runs
  import opened OutboxHeads
  import opened RelayScan

  const MAX_PUBLISH_ATTEMPTS := 3
  const MAX_HEADS := 1000

  datatype Lease = Lease(owner: Id, until: Time)

  /** A record of the Kafka log. `row` and `fetchedAt` are history: the outbox document as it
      was fetched, and how many events had entered the outbox when its batch was fetched. */
  datatype Record = Record(key: Id, event: Event, row: Row, fetchedAt: nat)

  /** What a worker decided to write after its publish call returned. */
  datatype Verdict = Delivered | Retry(at: Time) | Park(attempts: int)

  /** A publish call may append its record at most once while it runs; what it then reports is
      only one-sided: success means appended, an error means nothing. */
  datatype Worker = Calling(appended: bool) | Settling(verdict: Verdict) | Settled

  datatype Phase =
    | Idle
    | Asking(now: Time)
    | Inserting(now: Time)
    | Leading(until: Time)
    | Fetched(until: Time, heads: seq<Row>, fetchedAt: nat)
    | Working(until: Time, batch: seq<Row>, workers: seq<Worker>, fetchedAt: nat)
    | Gone

  /** `arrivals` is history: the order in which events entered the outbox. */
  datatype World = World(
    duration: nat,
    clock: Time,
    rows: map<Id, Row>,
    arrivals: seq<Id>,
    lease: Option<Lease>,
    log: seq<Record>,
    relays: map<Id, Phase>)

  /** Time passes; the service puts an event in the outbox; a relay starts; it reads the clock;
      it asks for the lease, first to match the document, then to insert it; it fetches the
      channel heads; one of these calls fails; it reads the clock and takes a batch; its k-th
      worker's publish call appends, then returns, then its state write happens; all workers are
      done; the relay releases the lease and ends; or it crashes. `heard` is false when the
      driver reports an error for a write that took effect, `applied` when a state write failed. */
  datatype Action =
    | Tick(elapsed: nat)
    | Enqueue(event: Id, doc: OutboxDoc)
    | Join(relay: Id)
    | Poll(relay: Id)
    | MatchLease(relay: Id, heard: bool)
    | InsertLease(relay: Id, heard: bool)
    | Fetch(relay: Id, heads: seq<Row>)
    | Fail(relay: Id)
    | Take(relay: Id)
    | Append(relay: Id, k: nat)
    | Return(relay: Id, k: nat, ok: bool)
    | Settle(relay: Id, k: nat, applied: bool)
    | Finish(relay: Id)
    | Stop(relay: Id)
    | Crash(relay: Id)

  function Initial(duration: nat): World {
    World(duration, 0, map[], [], None, [], map[])
  }

  function Move(w: World, i: Id, phase: Phase): World {
    w.(relays := w.relays[i := phase])
  }

  function PhaseOf(w: World, i: Id): Phase {
    if i in w.relays then w.relays[i] else Gone
  }

  function Next(w: World, a: Action): World {
    match a
    case Tick(elapsed) => w.(clock := w.clock + elapsed)
    case Enqueue(e, doc) =>
      if e == 0 || e in w.rows then w
      else w.(rows := w.rows[e := Row(e, doc, Pending, 0, doc.createdAt)], arrivals := w.arrivals + [e])
    case Join(i) => if i in w.relays then w else Move(w, i, Idle)
    case Poll(i) => if PhaseOf(w, i).Idle? then Move(w, i, Asking(w.clock)) else w
    case MatchLease(i, heard) => if PhaseOf(w, i).Asking? then MatchLeaseStep(w, i, heard) else w
    case InsertLease(i, heard) => if PhaseOf(w, i).Inserting? then InsertLeaseStep(w, i, heard) else w
    case Fetch(i, heads) => if PhaseOf(w, i).Leading? then FetchStep(w, i, heads) else w
    case Fail(i) =>
      if PhaseOf(w, i).Asking? || PhaseOf(w, i).Inserting? || PhaseOf(w, i).Leading? then Move(w, i, Idle) else w
    case Take(i) => if PhaseOf(w, i).Fetched? then TakeStep(w, i) else w
    case Append(i, k) => if AtWorker(w, i, k) then AppendStep(w, i, k) else w
    case Return(i, k, ok) => if AtWorker(w, i, k) then ReturnStep(w, i, k, ok) else w
    case Settle(i, k, applied) => if AtWorker(w, i, k) then SettleStep(w, i, k, applied) else w
    case Finish(i) =>
      if PhaseOf(w, i).Working? && AllSettled(PhaseOf(w, i).workers) then Move(w, i, Idle) else w
    case Stop(i) =>
      if PhaseOf(w, i).Idle? then Move(w.(lease := Released(w.lease, i)), i, Gone) else w
    case Crash(i) => if i in w.relays then Move(w, i, Gone) else w
  }

  predicate AtWorker(w: World, i: Id, k: nat) {
    PhaseOf(w, i).Working? && k < |PhaseOf(w, i).workers| && k < |PhaseOf(w, i).batch|
  }

  predicate AllSettled(workers: seq<Worker>) {
    forall k :: 0 <= k < |workers| ==> workers[k].Settled?
  }

  /** The lease document matches the acquire filter. */
  predicate Takeable(lease: Option<Lease>, i: Id, now: Time) {
    lease.Some? && (lease.value.until <= now || lease.value.owner == i)
  }

  function MatchLeaseStep(w: World, i: Id, heard: bool): World
    requires PhaseOf(w, i).Asking?
  {
    var now := PhaseOf(w, i).now;
    if !Takeable(w.lease, i, now) then Move(w, i, Inserting(now))
    else Led(w, i, now, heard)
  }

  /** The insert phase of the upsert: a duplicate key if there is a lease document. */
  function InsertLeaseStep(w: World, i: Id, heard: bool): World
    requires PhaseOf(w, i).Inserting?
  {
    if w.lease.Some? then Move(w, i, Idle) else Led(w, i, PhaseOf(w, i).now, heard)
  }

  function Led(w: World, i: Id, now: Time, heard: bool): World {
    Move(w.(lease := Some(Lease(i, now + w.duration))), i, if heard then Leading(now + w.duration) else Idle)
  }

  function Released(lease: Option<Lease>, i: Id): Option<Lease> {
    if lease.Some? && lease.value.owner == i then None else lease
  }

  /** `heads` is what the aggregation yields. */
  function FetchStep(w: World, i: Id, heads: seq<Row>): World
    requires PhaseOf(w, i).Leading?
  {
    if !AreHeads(w.rows, MAX_HEADS, heads) then w
    else if heads == [] then Move(w, i, Idle)
    else Move(w, i, Fetched(PhaseOf(w, i).until, heads, |w.arrivals|))
  }

  function TakeStep(w: World, i: Id): World
    requires PhaseOf(w, i).Fetched?
  {
    var p := PhaseOf(w, i);
    var due := FirstDue(p.heads, w.clock);
    if due == [] then Move(w, i, Idle)
    else Move(w, i, Working(p.until, due, seq(|due|, _ => Calling(false)), p.fetchedAt))
  }

  /** Worker `k` of relay `i` moves on. */
  function Turn(w: World, i: Id, k: nat, worker: Worker): World
    requires AtWorker(w, i, k)
  {
    var p := PhaseOf(w, i);
    Move(w, i, p.(workers := p.workers[k := worker]))
  }

  function AppendStep(w: World, i: Id, k: nat): World
    requires AtWorker(w, i, k)
  {
    var p := PhaseOf(w, i);
    if p.workers[k] != Calling(false) then w
    else
      var r := p.batch[k];
      Turn(w.(log := w.log + [Record(r.doc.partitionKey, r.doc.event, r, p.fetchedAt)]), i, k, Calling(true))
  }

  function ReturnStep(w: World, i: Id, k: nat, ok: bool): World
    requires AtWorker(w, i, k)
  {
    var p := PhaseOf(w, i);
    if !p.workers[k].Calling? || (ok && !p.workers[k].appended) then w
    else Turn(w, i, k, Settling(if ok then Delivered else AfterFailure(p.batch[k].attempts + 1, w.clock)))
  }

  /** A failed attempt is retried later, unless it was the last one. */
  function AfterFailure(attempt: int, now: Time): Verdict {
    if attempt >= MAX_PUBLISH_ATTEMPTS then Park(attempt) else Retry(now + Backoff(attempt))
  }

  function SettleStep(w: World, i: Id, k: nat, applied: bool): World
    requires AtWorker(w, i, k)
  {
    var p := PhaseOf(w, i);
    if !p.workers[k].Settling? then w
    else Turn(if applied then w.(rows := Write(w.rows, p.batch[k].id, p.workers[k].verdict)) else w, i, k, Settled)
  }

  /** The three state writes; each matches the document only while it is pending. */
  function Write(rows: map<Id, Row>, e: Id, verdict: Verdict): map<Id, Row> {
    if e !in rows || !rows[e].status.Pending? then rows else rows[e := Marked(rows[e], verdict)]
  }

  function Marked(r: Row, verdict: Verdict): Row {
    match verdict
    case Delivered => r.(status := Published)
    case Retry(at) => r.(nextAttemptAt := at, attempts := r.attempts + 1)
    case Park(attempts) => r.(status := Parked, attempts := attempts)
  }

  function Run(w: World, run: seq<Action>): World {
    After(Next, w, run)
  }
}
