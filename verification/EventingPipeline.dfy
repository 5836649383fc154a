// The running pipeline: several publishers, a confirming broker and several
// consumers over one database. A step is one atomic action of one of them; the
// processes may interleave, crash or lose their connection between any two.
module EventingPipeline {
  import opened Prelude
  import opened EventingModel
  import CP = ConfirmPort

  // ------------------------------------------------------------------ topology

  datatype Route = Route(kind: MessageKind, messageType: string, messageVersion: nat)

  // A consumer adapter: whom it serves, and how many deliveries it handles at once.
  datatype Site = Site(consumers: set<string>, concurrency: nat)

  // How a consumer's queue is bound: whose queues its own routing key reaches, and
  // the delays it has retry layers for. A layer hands an expired copy back to the
  // consumer's exchange under that key.
  datatype Binding = Binding(reach: seq<string>, delays: set<nat>)

  datatype Topology = Topology(
    routes: map<Route, seq<string>>,   // the consumers whose queues a route reaches
    bindings: map<string, Binding>,    // the consumers with retry layers
    handlers: map<string, Handler>,    // the handler behind each consumer
    sites: seq<Site>,                  // the consumer adapters
    eventPolicy: JobPolicy,            // delivery retries of events
    maxAttempts: nat,                  // publication attempts
    backoffSeconds: seq<nat>)

  // A consumer's key reaches the consumer's own queue.
  ghost predicate ValidTopology(t: Topology) {
    && t.maxAttempts >= 1
    && |t.backoffSeconds| == t.maxAttempts - 1
    && (forall consumer :: consumer in t.bindings ==> consumer in t.bindings[consumer].reach)
    && (forall site :: 0 <= site < |t.sites| ==> t.sites[site].concurrency >= 1)
  }

  function RouteOf(e: Envelope): Route { Route(e.Kind(), e.messageType, e.messageVersion) }

  function Bound(t: Topology, e: Envelope): seq<string> {
    if RouteOf(e) in t.routes then t.routes[RouteOf(e)] else []
  }

  function Reach(t: Topology, consumer: string): seq<string> {
    if consumer in t.bindings then t.bindings[consumer].reach else [consumer]
  }

  predicate HasLayer(t: Topology, consumer: string, delaySeconds: nat) {
    consumer in t.bindings && delaySeconds in t.bindings[consumer].delays
  }

  predicate Serves(t: Topology, site: nat, consumer: string) {
    site < |t.sites| && consumer in t.sites[site].consumers && consumer in t.handlers
  }

  // --------------------------------------------------------------------- state

  // Where a broker copy is: in its queue, delivered under a delivery tag, in a
  // retry layer, or dead-lettered. An acknowledged copy is gone.
  datatype Place = Ready | Unacked(tag: nat) | Delayed | DeadLettered

  datatype Copy = Copy(envelope: Envelope, consumer: string, attempt: nat, place: Place)

  // A confirm channel: of a publisher, or the one all consumers of one running
  // consumer adapter share for their retries.
  datatype Line = Outgoing(publisher: nat) | Retrying(site: nat, instance: nat)

  // What went out under a ticket of a channel and what the broker did with it.
  datatype Key = Key(line: Line, ticket: nat)

  datatype Cargo = Original(envelope: Envelope) | Again(copy: Copy)

  datatype Stage = Sent | Routed | Returned

  datatype Passage = Passage(cargo: Cargo, stage: Stage)

  function CargoId(c: Cargo): Uuid {
    match c
    case Original(e) => e.messageId
    case Again(copy) => copy.envelope.messageId
  }

  // A claimed row in a publisher's memory.
  datatype PublicationPhase = Held | Sending(publisher: nat) | Awaiting(publisher: nat, ticket: nat) | Confirmed | Failed

  datatype Publication = Publication(row: OutboxRow, phase: PublicationPhase)

  // One delivery being handled by a worker.
  datatype WorkerPhase = Fetched | Consuming | Settled | Errored | Resent | RetryAwaited(ticket: nat) | Republished

  datatype Worker = Worker(copyId: nat, delivery: Delivery, line: Line, phase: WorkerPhase)

  datatype Pipeline = Pipeline(
    db: Store,
    publications: map<Token, Publication>,
    usedTokens: set<Token>,
    latestClaim: map<Uuid, Token>,
    copies: map<nat, Copy>,
    nextCopy: nat,
    workers: map<nat, Worker>,
    nextTag: nat,
    stopped: set<Line>,
    ports: map<Line, CP.Port>,
    wire: map<Key, Passage>)

  const Start := Pipeline(EmptyStore, map[], {}, map[], map[], 0, map[], 0, {}, map[], map[])

  datatype Step =
    // clients
    | AppendEvent(event: Envelope)
    | SubmitJob(job: Envelope)
    | CancelJob(jobId: Uuid, reason: string)
    | Replay(messageId: Uuid, at: int)
    // publishers
    | Claim(messageId: Uuid, token: Token, at: int, staleBefore: int)
    | Send(token: Token, publisher: nat, writable: bool, throws: bool)
    | Await(token: Token)
    | Learn(token: Token)
    | GiveUp(token: Token)
    | MarkDone(token: Token, at: int)
    | MarkFailed(token: Token, at: int, errorCode: string)
    | PublisherCrash(token: Token)
    // broker
    | Inject(copy: Envelope, consumer: string, attempt: nat)
    | Deliver(copyId: nat, isolationId: Uuid, site: nat, instance: nat)
    | DelayOver(copyId: nat)
    | ConnectionLost(copyId: nat)
    | Accept(key: Key)
    | Return(key: Key)
    | Settle(key: Key, refused: bool)
    | Drained(line: Line)
    | ChannelFails(line: Line)
    // workers
    | Check(tag: nat, fails: bool)
    | Transact(tag: nat, run: HandlerRun, reported: bool)
    | Ack(tag: nat)
    | AckThrows(tag: nat)
    | Recover(tag: nat, retryable: bool, writable: bool, throws: bool)
    | AwaitRetry(tag: nat)
    | LearnRetry(tag: nat)
    | WorkerCrash(tag: nat)

  // ------------------------------------------------------------- broker actions

  // One new copy per consumer, numbered from `next`.
  function Enqueue(copies: map<nat, Copy>, next: nat, e: Envelope, attempt: nat, consumers: seq<string>): map<nat, Copy> {
    copies + map k: nat | next <= k < next + |consumers| :: QueuedCopy(e, attempt, consumers, next, k)
  }

  function QueuedCopy(e: Envelope, attempt: nat, consumers: seq<string>, next: nat, k: nat): Copy
    requires next <= k < next + |consumers|
  {
    Copy(e, consumers[k - next], attempt, Ready)
  }

  predicate Owns(s: Pipeline, tag: nat) {
    && tag in s.workers
    && s.workers[tag].copyId in s.copies
    && s.copies[s.workers[tag].copyId].place == Unacked(tag)
  }

  // An acknowledgement under a dead tag is ignored by the broker.
  function AckCopy(s: Pipeline, tag: nat): Pipeline {
    if Owns(s, tag) then s.(copies := s.copies - {s.workers[tag].copyId}) else s
  }

  function DeadLetterCopy(s: Pipeline, tag: nat): Pipeline {
    if Owns(s, tag) then
      var id := s.workers[tag].copyId;
      s.(copies := s.copies[id := s.copies[id].(place := DeadLettered)])
    else s
  }

  function MoveCopy(s: Pipeline, id: nat, place: Place): Pipeline
    requires id in s.copies
  {
    s.(copies := s.copies[id := s.copies[id].(place := place)])
  }

  function WithDb(s: Pipeline, db: Store): Pipeline {
    s.(db := db)
  }

  function DoInject(s: Pipeline, copy: Copy): Pipeline {
    s.(copies := s.copies[s.nextCopy := copy], nextCopy := s.nextCopy + 1)
  }

  // A delay is over: the broker routes the copy by its consumer's key once more.
  function DoExpire(t: Topology, s: Pipeline, copyId: nat): Pipeline {
    if copyId !in s.copies || s.copies[copyId].place != Delayed then s
    else
      var c := s.copies[copyId];
      s.(copies := Enqueue(s.copies - {copyId}, s.nextCopy, c.envelope, c.attempt, Reach(t, c.consumer)),
         nextCopy := s.nextCopy + |Reach(t, c.consumer)|)
  }

  // A connection is gone: its copy goes back to its queue.
  function DoRequeue(s: Pipeline, copyId: nat): Pipeline {
    if copyId in s.copies && s.copies[copyId].place.Unacked? then MoveCopy(s, copyId, Ready) else s
  }

  function DropWorker(s: Pipeline, tag: nat): Pipeline {
    s.(workers := s.workers - {tag})
  }

  // A delivery that throws stops its adapter: it takes in nothing more.
  function FailWorker(s: Pipeline, tag: nat): Pipeline {
    if tag in s.workers then DropWorker(s.(stopped := s.stopped + {s.workers[tag].line}), tag) else s
  }

  function SetPhase(s: Pipeline, tag: nat, phase: WorkerPhase): Pipeline
    requires tag in s.workers
  {
    s.(workers := s.workers[tag := s.workers[tag].(phase := phase)])
  }

  // ----------------------------------------------------------- confirm channels

  function PortOf(s: Pipeline, line: Line): CP.Port {
    if line in s.ports then s.ports[line] else CP.Fresh
  }

  // Whether a publication gets onto the channel at all.
  predicate Takes(port: CP.Port, throws: bool) {
    port.open && !port.backpressured && !throws
  }

  function Post(s: Pipeline, line: Line, cargo: Cargo, writable: bool): Pipeline {
    var port := PortOf(s, line);
    s.(ports := s.ports[line := CP.DoPublish(port, CargoId(cargo), writable, false)],
       wire := s.wire[Key(line, port.nextTicket) := Passage(cargo, Sent)])
  }

  // A publisher starts to wait for the oldest publication nobody waits for. One
  // already refused is taken off the queue, and nobody waits.
  function Wait(port: CP.Port): (CP.Port, Option<nat>) {
    var next := CP.NextClaim(port);
    if next.None? then (port, None)
    else
      var claimed := CP.DoClaim(port);
      var kept := CP.DoResume(claimed, next.value);
      (kept, if kept == claimed then next else None)
  }

  // A refusal, and the reaction of whoever waits for it.
  function Answer(port: CP.Port, ticket: nat, refused: bool): CP.Port {
    if refused then CP.DoResume(CP.DoSettled(port, ticket, true), ticket) else CP.DoSettled(port, ticket, false)
  }

  predicate Queued(port: CP.Port, ticket: nat) {
    exists o | o in port.operations :: o.ticket == ticket
  }

  // Whoever waits for `ticket` has something to react to.
  predicate Answered(port: CP.Port, ticket: nat) {
    !port.open || ticket in port.resolved || !Queued(port, ticket)
  }

  // Asks for the outcome of a publication of the message once the confirmation
  // waited for is there; None when the wait has failed.
  function Taken(port: CP.Port, ticket: nat, id: Uuid): Option<CP.Operation> {
    if port.open && ticket in port.resolved && CP.TakeIndex(port, id) < |port.operations|
    then Some(port.operations[CP.TakeIndex(port, id)]) else None
  }

  predicate ToldRouted(port: CP.Port, ticket: nat, id: Uuid) {
    Taken(port, ticket, id).Some? && !Taken(port, ticket, id).value.returned
  }

  // The broker has nothing more to say about what was taken.
  function Ask(s: Pipeline, line: Line, ticket: nat, id: Uuid): Pipeline {
    var port := PortOf(s, line);
    var taken := Taken(port, ticket, id);
    if taken.None? then s
    else s.(ports := s.ports[line := CP.DoTake(port, id).0], wire := s.wire - {Key(line, taken.value.ticket)})
  }

  // The broker routes what it was sent: an original to the queues its route
  // reaches, a retry to its retry layer.
  predicate Routable(t: Topology, cargo: Cargo) { cargo.Again? || Bound(t, cargo.envelope) != [] }

  function Enqueued(t: Topology, copies: map<nat, Copy>, next: nat, cargo: Cargo): (map<nat, Copy>, nat) {
    match cargo
    case Original(e) => (Enqueue(copies, next, e, 1, Bound(t, e)), next + |Bound(t, e)|)
    case Again(copy) => (copies[next := copy], next + 1)
  }

  function DoAccept(t: Topology, s: Pipeline, key: Key): Pipeline {
    if key !in s.wire || s.wire[key].stage != Sent || !Routable(t, s.wire[key].cargo) then s
    else
      var (copies, next) := Enqueued(t, s.copies, s.nextCopy, s.wire[key].cargo);
      s.(copies := copies, nextCopy := next, wire := s.wire[key := s.wire[key].(stage := Routed)])
  }

  // What it cannot route it sends back.
  function DoReturn(t: Topology, s: Pipeline, key: Key): Pipeline {
    if key !in s.wire || s.wire[key].stage != Sent then s
    else if s.wire[key].cargo.Original? && Bound(t, s.wire[key].cargo.envelope) != [] then s
    else
      s.(wire := s.wire[key := s.wire[key].(stage := Returned)],
         ports := s.ports[key.line := CP.DoReturned(PortOf(s, key.line), key.ticket)])
  }

  // It confirms only what it routed or returned, and may refuse anything.
  function DoSettle(s: Pipeline, key: Key, refused: bool): Pipeline {
    if key !in s.wire || (!refused && s.wire[key].stage == Sent) then s
    else s.(ports := s.ports[key.line := Answer(PortOf(s, key.line), key.ticket, refused)])
  }

  function DoDrained(s: Pipeline, line: Line): Pipeline {
    var port := PortOf(s, line);
    s.(ports := s.ports[line := CP.Apply(port, CP.Drained)])
  }

  function DoChannelFails(s: Pipeline, line: Line): Pipeline {
    s.(ports := s.ports[line := CP.DoFail(PortOf(s, line))])
  }

  // ---------------------------------------------------------------- publishers

  function DoClaim(s: Pipeline, id: Uuid, token: Token, at: int, staleBefore: int): Pipeline {
    if token in s.usedTokens || id !in s.db.outbox || !Claimable(s.db.outbox[id], at, staleBefore) then s
    else
      var db := ClaimOne(s.db, id, token, at);
      s.(db := db, usedTokens := s.usedTokens + {token}, latestClaim := s.latestClaim[id := token],
         publications := s.publications[token := Publication(db.outbox[id], Held)])
  }

  function SetPublication(s: Pipeline, token: Token, phase: PublicationPhase): Pipeline
    requires token in s.publications
  {
    s.(publications := s.publications[token := s.publications[token].(phase := phase)])
  }

  // `publish` as far as the confirm channel.
  function DoSend(t: Topology, s: Pipeline, token: Token, publisher: nat, writable: bool, throws: bool): Pipeline {
    if token !in s.publications || s.publications[token].phase != Held then s
    else
      var e, line := s.publications[token].row.envelope, Outgoing(publisher);
      if RouteOf(e) !in t.routes || !Takes(PortOf(s, line), throws) then SetPublication(s, token, Failed)
      else SetPublication(Post(s, line, Original(e), writable), token, Sending(publisher))
  }

  function DoAwait(s: Pipeline, token: Token): Pipeline {
    if token !in s.publications || !s.publications[token].phase.Sending? then s
    else
      var publisher := s.publications[token].phase.publisher;
      var line := Outgoing(publisher);
      var (port, ticket) := Wait(PortOf(s, line));
      SetPublication(s.(ports := s.ports[line := port]), token, if ticket.Some? then Awaiting(publisher, ticket.value) else Failed)
  }

  function DoLearn(s: Pipeline, token: Token): Pipeline {
    if token !in s.publications || !s.publications[token].phase.Awaiting? then s
    else
      var id, line, ticket := s.publications[token].row.envelope.messageId, Outgoing(s.publications[token].phase.publisher), s.publications[token].phase.ticket;
      if !Answered(PortOf(s, line), ticket) then s
      else SetPublication(Ask(s, line, ticket, id), token, if ToldRouted(PortOf(s, line), ticket, id) then Confirmed else Failed)
  }

  // A blocked connection, or a channel that closes while it should drain.
  function DoGiveUp(s: Pipeline, token: Token): Pipeline {
    if token in s.publications && (s.publications[token].phase.Sending? || s.publications[token].phase.Awaiting?) then SetPublication(s, token, Failed)
    else s
  }

  function DropPublication(s: Pipeline, token: Token): Pipeline {
    s.(publications := s.publications - {token})
  }

  function DoMarkDone(s: Pipeline, token: Token, at: int): Pipeline {
    if token !in s.publications || s.publications[token].phase != Confirmed then s
    else
      DropPublication(s.(db := MarkPublished(s.db, s.publications[token].row.envelope.messageId, token, at)), token)
  }

  function DoMarkFailed(t: Topology, s: Pipeline, token: Token, at: int, errorCode: string): Pipeline {
    if token !in s.publications || s.publications[token].phase != Failed then s
    else
      var row := s.publications[token].row;
      DropPublication(s.(db := MarkFailure(s.db, row.envelope.messageId, token, at, at + 1000 * BackoffSeconds(t.backoffSeconds, row), errorCode, Exhausted(t.maxAttempts, row))), token)
  }

  // ------------------------------------------------------------------- workers

  function ActiveOn(s: Pipeline, line: Line): set<nat> {
    set tag | tag in s.workers && s.workers[tag].line == line
  }

  predicate Admits(t: Topology, s: Pipeline, site: nat, instance: nat)
    requires site < |t.sites|
  {
    Retrying(site, instance) !in s.stopped && |ActiveOn(s, Retrying(site, instance))| < t.sites[site].concurrency
  }

  function DoDeliver(t: Topology, s: Pipeline, copyId: nat, isolationId: Uuid, site: nat, instance: nat): Pipeline {
    if copyId !in s.copies || s.copies[copyId].place != Ready || !Serves(t, site, s.copies[copyId].consumer) then s
    else if !Admits(t, s, site, instance) then s
    else
      var c := s.copies[copyId];
      MoveCopy(s, copyId, Unacked(s.nextTag)).(
        workers := s.workers[s.nextTag := Worker(copyId, Delivery(c.envelope, c.consumer, c.attempt, isolationId), Retrying(site, instance), Fetched)],
        nextTag := s.nextTag + 1)
  }

  // handleRabbitDelivery and consume, up to the inbox transaction; the store may
  // fail. None is a delivery over its limit.
  function Checked(t: Topology, db: Store, d: Delivery, h: Handler, fails: bool): (Store, Option<WorkerPhase>) {
    if d.attempt < 1 then (db, Some(Errored))
    else if d.attempt > DeliveryPolicy(t.eventPolicy, d.envelope).maxAttempts then (db, None)
    else if d.attempt > 1000 || fails then (db, Some(Errored))
    else
      var (next, early) := Precheck(db, d, h);
      (next, Some(if early.Some? then Settled else Consuming))
  }

  function DoCheck(t: Topology, s: Pipeline, tag: nat, fails: bool): Pipeline {
    if tag !in s.workers || s.workers[tag].phase != Fetched || s.workers[tag].delivery.consumer !in t.handlers then s
    else
      var d := s.workers[tag].delivery;
      var (db, phase) := Checked(t, s.db, d, t.handlers[d.consumer], fails);
      if phase.None? then DropWorker(DeadLetterCopy(s, tag), tag) else SetPhase(s.(db := db), tag, phase.value)
  }

  // The transaction; its commit may go unreported to the worker.
  function DoTransact(t: Topology, s: Pipeline, tag: nat, run: HandlerRun, reported: bool): Pipeline {
    if tag !in s.workers || s.workers[tag].phase != Consuming || s.workers[tag].delivery.consumer !in t.handlers then s
    else
      var d := s.workers[tag].delivery;
      var (db, result) := InboxTransaction(s.db, d, t.handlers[d.consumer], run);
      SetPhase(s.(db := db), tag, if reported && !result.Thrown? then Settled else Errored)
  }

  function DoAck(s: Pipeline, tag: nat): Pipeline {
    if tag !in s.workers || (s.workers[tag].phase != Settled && s.workers[tag].phase != Republished) then s
    else DropWorker(AckCopy(s, tag), tag)
  }

  function DoAckThrows(s: Pipeline, tag: nat): Pipeline {
    if tag in s.workers && s.workers[tag].phase == Settled then SetPhase(s, tag, Errored) else s
  }

  function NextTry(w: Worker): Copy {
    Copy(w.delivery.envelope, w.delivery.consumer, w.delivery.attempt + 1, Delayed)
  }

  // A job's own policy counts only once its header has been read.
  function RecoveryPolicy(t: Topology, d: Delivery): JobPolicy {
    if d.attempt < 1 then t.eventPolicy else DeliveryPolicy(t.eventPolicy, d.envelope)
  }

  // The attempt headers can carry, and a layer for its delay.
  predicate Layered(t: Topology, policy: JobPolicy, consumer: string, attempt: nat) {
    1 <= attempt < 16 && HasLayer(t, consumer, RetryDelay(policy, attempt))
  }

  predicate CanResend(t: Topology, d: Delivery) {
    Layered(t, RecoveryPolicy(t, d), d.consumer, d.attempt)
  }

  predicate WillRetry(t: Topology, w: Worker, retryable: bool) {
    w.phase == Errored && retryable && w.delivery.attempt < RecoveryPolicy(t, w.delivery).maxAttempts
  }

  predicate WillResend(t: Topology, w: Worker, retryable: bool) {
    WillRetry(t, w, retryable) && CanResend(t, w.delivery)
  }

  // After an error: dead-letter, or send a copy to a retry layer through the
  // adapter's channel. A retry that throws leaves the delivery unacknowledged.
  function DoRecover(t: Topology, s: Pipeline, tag: nat, retryable: bool, writable: bool, throws: bool): Pipeline {
    if tag !in s.workers || s.workers[tag].phase != Errored then s
    else
      var w := s.workers[tag];
      if !WillRetry(t, w, retryable) then DropWorker(DeadLetterCopy(s, tag), tag)
      else if !CanResend(t, w.delivery) || !Takes(PortOf(s, w.line), throws) then FailWorker(s, tag)
      else SetPhase(Post(s, w.line, Again(NextTry(w)), writable), tag, Resent)
  }

  function DoAwaitRetry(s: Pipeline, tag: nat): Pipeline {
    if tag !in s.workers || s.workers[tag].phase != Resent then s
    else
      var line := s.workers[tag].line;
      var (port, ticket) := Wait(PortOf(s, line));
      var s1 := s.(ports := s.ports[line := port]);
      if ticket.Some? then SetPhase(s1, tag, RetryAwaited(ticket.value)) else FailWorker(s1, tag)
  }

  // Only when told that its copy was routed does the worker go on to acknowledge.
  function DoLearnRetry(s: Pipeline, tag: nat): Pipeline {
    if tag !in s.workers || !s.workers[tag].phase.RetryAwaited? then s
    else
      var id, line, ticket := s.workers[tag].delivery.envelope.messageId, s.workers[tag].line, s.workers[tag].phase.ticket;
      if !Answered(PortOf(s, line), ticket) then s
      else if ToldRouted(PortOf(s, line), ticket, id) then SetPhase(Ask(s, line, ticket, id), tag, Republished)
      else FailWorker(Ask(s, line, ticket, id), tag)
  }

  // ---------------------------------------------------------------------- runs

  function Apply(t: Topology, s: Pipeline, step: Step): Pipeline {
    match step
    case AppendEvent(e) => WithDb(s, if e.Event? then AppendRow(s.db, NewRow(e)) else s.db)
    case SubmitJob(e) => WithDb(s, if e.Job? then SubmitTransaction(s.db, e) else s.db)
    case CancelJob(id, reason) => WithDb(s, EventingModel.CancelJob(s.db, id, reason))
    case Replay(id, at) => WithDb(s, ReplayOutbox(s.db, id, at))
    case Claim(id, token, at, staleBefore) => DoClaim(s, id, token, at, staleBefore)
    case Send(token, publisher, writable, throws) => DoSend(t, s, token, publisher, writable, throws)
    case Await(token) => DoAwait(s, token)
    case Learn(token) => DoLearn(s, token)
    case GiveUp(token) => DoGiveUp(s, token)
    case MarkDone(token, at) => DoMarkDone(s, token, at)
    case MarkFailed(token, at, errorCode) => DoMarkFailed(t, s, token, at, errorCode)
    case PublisherCrash(token) => DropPublication(s, token)
    case Inject(e, consumer, attempt) => DoInject(s, Copy(e, consumer, attempt, Ready))
    case Deliver(copyId, isolationId, site, instance) => DoDeliver(t, s, copyId, isolationId, site, instance)
    case DelayOver(copyId) => DoExpire(t, s, copyId)
    case ConnectionLost(copyId) => DoRequeue(s, copyId)
    case Accept(key) => DoAccept(t, s, key)
    case Return(key) => DoReturn(t, s, key)
    case Settle(key, refused) => DoSettle(s, key, refused)
    case Drained(line) => DoDrained(s, line)
    case ChannelFails(line) => DoChannelFails(s, line)
    case Check(tag, fails) => DoCheck(t, s, tag, fails)
    case Transact(tag, run, reported) => DoTransact(t, s, tag, run, reported)
    case Ack(tag) => DoAck(s, tag)
    case AckThrows(tag) => DoAckThrows(s, tag)
    case Recover(tag, retryable, writable, throws) => DoRecover(t, s, tag, retryable, writable, throws)
    case AwaitRetry(tag) => DoAwaitRetry(s, tag)
    case LearnRetry(tag) => DoLearnRetry(s, tag)
    case WorkerCrash(tag) => FailWorker(s, tag)
  }

  function Run(t: Topology, s: Pipeline, steps: seq<Step>): Pipeline
    decreases |steps|
  {
    if steps == [] then s else Apply(t, Run(t, s, steps[..|steps| - 1]), steps[|steps| - 1])
  }
}
