// Durable facts of the eventing module as values: outbox rows, inbox receipts,
// jobs and isolations, and what every store operation does to them.
// Each operation here is the meaning of one store call or one transaction.
module EventingModel {
  import opened Prelude

  // UUIDs are compared and nothing else, so a number stands for each.
  type Uuid = nat

  type Token = nat

  datatype JobPolicy = JobPolicy(maxAttempts: nat, backoffSeconds: seq<nat>, timeoutMs: nat)

  datatype MessageKind = EventKind | JobKind

  // A validated message. `body` stands for every field not named.
  datatype Envelope =
    | Event(messageId: Uuid, messageType: string, messageVersion: nat, availableAt: int, body: string)
    | Job(messageId: Uuid, messageType: string, messageVersion: nat, availableAt: int,
          idempotencyKey: string, policy: JobPolicy, body: string)
  {
    function Kind(): MessageKind { if Event? then EventKind else JobKind }
  }

  // SHA-256 of the serialized envelope, taken to be injective.
  datatype Digest = Sha256(envelope: Envelope)

  datatype OutboxStatus = Pending | Publishing | Published | Isolated

  datatype OutboxRow = OutboxRow(
    envelope: Envelope, availableAt: int, attemptCount: nat, status: OutboxStatus,
    claimToken: Option<Token>, claimedAt: Option<int>,
    publishedAt: Option<int>, isolatedAt: Option<int>, lastErrorCode: Option<string>)

  datatype JobStatus = Queued | Processing | Cancelled | Completed | IsolatedJob

  datatype JobRecord = JobRecord(
    envelope: Envelope, fingerprint: Digest, status: JobStatus, cancelReason: Option<string>)

  datatype IsolationReason = PayloadConflict | UnsupportedMessage | AuthoritativeStateRejected

  datatype IsolationKey = IsolationKey(messageId: Uuid, consumer: string, digest: Digest, reason: IsolationReason)

  datatype Isolation = Isolation(isolationId: Uuid, attempt: nat)

  datatype ReceiptKey = ReceiptKey(messageId: Uuid, consumer: string)

  // One committed run of a handler: its local writes share the inbox transaction.
  datatype Effect = Effect(envelope: Envelope, consumer: string)

  // `order` is the insertion order of the outbox map.
  datatype Store = Store(
    outbox: map<Uuid, OutboxRow>,
    order: seq<Uuid>,
    inbox: map<ReceiptKey, Digest>,
    jobs: map<Uuid, JobRecord>,
    isolations: map<IsolationKey, Isolation>,
    effects: seq<Effect>)

  const EmptyStore := Store(map[], [], map[], map[], map[], [])

  function NewRow(e: Envelope): OutboxRow {
    OutboxRow(e, e.availableAt, 0, Pending, None, None, None, None, None)
  }

  function NewJob(e: Envelope): JobRecord {
    JobRecord(e, Sha256(e), Queued, None)
  }

  // ----------------------------------------------------------------- outbox

  function AppendRow(s: Store, row: OutboxRow): Store {
    if row.envelope.messageId in s.outbox then s
    else s.(outbox := s.outbox[row.envelope.messageId := row], order := s.order + [row.envelope.messageId])
  }

  predicate Claimable(row: OutboxRow, at: int, staleBefore: int) {
    || (row.status == Pending && row.availableAt <= at)
    || (row.status == Publishing && row.claimedAt.Some? && row.claimedAt.value <= staleBefore)
  }

  function ClaimedRow(row: OutboxRow, token: Token, at: int): OutboxRow {
    row.(status := Publishing, attemptCount := row.attemptCount + 1, claimToken := Some(token), claimedAt := Some(at))
  }

  function ClaimOne(s: Store, id: Uuid, token: Token, at: int): Store
    requires id in s.outbox
  {
    s.(outbox := s.outbox[id := ClaimedRow(s.outbox[id], token, at)])
  }

  predicate HoldsClaim(s: Store, id: Uuid, token: Token) {
    id in s.outbox && s.outbox[id].status == Publishing && s.outbox[id].claimToken == Some(token)
  }

  function MarkPublished(s: Store, id: Uuid, token: Token, at: int): Store {
    if !HoldsClaim(s, id, token) then s
    else s.(outbox := s.outbox[id := s.outbox[id].(
      status := Published, publishedAt := Some(at), claimToken := None, claimedAt := None)])
  }

  function MarkFailure(s: Store, id: Uuid, token: Token, at: int, availableAt: int, errorCode: string, isolate: bool): Store {
    if !HoldsClaim(s, id, token) then s
    else s.(outbox := s.outbox[id := s.outbox[id].(
      status := if isolate then Isolated else Pending, availableAt := availableAt,
      lastErrorCode := Some(errorCode), isolatedAt := if isolate then Some(at) else None,
      claimToken := None, claimedAt := None)])
  }

  predicate Exhausted(maxAttempts: nat, row: OutboxRow) { row.attemptCount >= maxAttempts }

  // The delay before the next publication, none when the schedule has no entry.
  function BackoffSeconds(schedule: seq<nat>, row: OutboxRow): nat {
    if 1 <= row.attemptCount <= |schedule| then schedule[row.attemptCount - 1] else 0
  }

  // The delay before a failed delivery comes again, a second without an entry.
  function RetryDelay(policy: JobPolicy, attempt: int): nat {
    if 1 <= attempt <= |policy.backoffSeconds| then policy.backoffSeconds[attempt - 1] else 1
  }

  predicate Replayable(s: Store, id: Uuid) {
    id in s.outbox && s.outbox[id].status == Isolated
  }

  function ReplayOutbox(s: Store, id: Uuid, at: int): Store {
    if !Replayable(s, id) then s
    else s.(outbox := s.outbox[id := s.outbox[id].(
      status := Pending, attemptCount := 0, availableAt := at, isolatedAt := None, lastErrorCode := None)])
  }

  // ------------------------------------------------------------------- jobs

  predicate KeyTaken(s: Store, key: string) {
    exists id :: id in s.jobs && s.jobs[id].envelope.Job? && s.jobs[id].envelope.idempotencyKey == key
  }

  predicate JobConflict(s: Store, e: Envelope)
    requires e.Job?
  {
    e.messageId in s.jobs || KeyTaken(s, e.idempotencyKey)
  }

  function CreateJob(s: Store, e: Envelope): Store
    requires e.Job?
  {
    if JobConflict(s, e) then s else s.(jobs := s.jobs[e.messageId := NewJob(e)])
  }

  // The job row and its outbox row, both or neither.
  function SubmitTransaction(s: Store, e: Envelope): Store
    requires e.Job?
  {
    if JobConflict(s, e) || e.messageId in s.outbox then s
    else AppendRow(CreateJob(s, e), NewRow(e))
  }

  predicate HasJob(s: Store, id: Uuid, status: JobStatus) {
    id in s.jobs && s.jobs[id].status == status
  }

  function SetJob(s: Store, id: Uuid, from: JobStatus, to: JobStatus): Store {
    if !HasJob(s, id, from) then s else s.(jobs := s.jobs[id := s.jobs[id].(status := to)])
  }

  function CancelJob(s: Store, id: Uuid, reason: string): Store {
    if !HasJob(s, id, Queued) then s
    else s.(jobs := s.jobs[id := s.jobs[id].(status := Cancelled, cancelReason := Some(reason))])
  }

  // ------------------------------------------------------ inbox, isolations

  function AddReceipt(s: Store, key: ReceiptKey, digest: Digest): Store {
    if key in s.inbox then s else s.(inbox := s.inbox[key := digest])
  }

  function AddIsolation(s: Store, key: IsolationKey, record: Isolation): Store {
    if key in s.isolations then s else s.(isolations := s.isolations[key := record])
  }

  function AddEffect(s: Store, effect: Effect): Store {
    s.(effects := s.effects + [effect])
  }

  // ------------------------------------------------------------ consumption

  datatype Handler = Handler(kind: MessageKind, messageType: string, messageVersion: nat, rechecks: bool)

  predicate Matches(h: Handler, e: Envelope) {
    h.kind == e.Kind() && h.messageType == e.messageType && h.messageVersion == e.messageVersion
  }

  // What the handler's own code does in one run; throwing includes timing out.
  datatype RecheckOutcome = Allows | Rejects | RecheckThrows

  datatype HandlerRun = HandlerRun(recheck: RecheckOutcome, succeeds: bool)

  datatype SkipReason = JobCancelled | StateRejected

  datatype ConsumeResult =
    | Handled
    | Duplicate
    | Skipped(skip: SkipReason)
    | SetAside(reason: IsolationReason)
    | Thrown(errorCode: string)

  // Everything one delivery contributes to a consume call.
  datatype Delivery = Delivery(envelope: Envelope, consumer: string, attempt: nat, isolationId: Uuid)
  {
    function Key(): ReceiptKey { ReceiptKey(envelope.messageId, consumer) }
    function Fingerprint(): Digest { Sha256(envelope) }
  }

  // A job brings its own delivery policy; events share one.
  function DeliveryPolicy(eventPolicy: JobPolicy, e: Envelope): JobPolicy {
    if e.Job? then e.policy else eventPolicy
  }

  function Isolate(s: Store, d: Delivery, reason: IsolationReason): Store {
    AddIsolation(s, IsolationKey(d.envelope.messageId, d.consumer, d.Fingerprint(), reason), Isolation(d.isolationId, d.attempt))
  }

  function IsolateResult(reason: IsolationReason): ConsumeResult {
    if reason == AuthoritativeStateRejected then Skipped(StateRejected) else SetAside(reason)
  }

  // The checks made before the transaction; None means the transaction decides.
  function Precheck(s: Store, d: Delivery, h: Handler): (Store, Option<ConsumeResult>) {
    if !Matches(h, d.envelope) then (Isolate(s, d, UnsupportedMessage), Some(SetAside(UnsupportedMessage)))
    else if d.Key() in s.inbox then
      if s.inbox[d.Key()] == d.Fingerprint() then (s, Some(Duplicate))
      else (Isolate(s, d, PayloadConflict), Some(SetAside(PayloadConflict)))
    else (s, None)
  }

  function JobTransaction(s: Store, d: Delivery, h: Handler, run: HandlerRun): (Store, ConsumeResult) {
    var id := d.envelope.messageId;
    if id !in s.jobs || s.jobs[id].fingerprint != d.Fingerprint() then
      (Isolate(s, d, PayloadConflict), SetAside(PayloadConflict))
    else match s.jobs[id].status
      case Queued =>
        if !h.rechecks || run.recheck == Rejects then
          (AddReceipt(Isolate(SetJob(s, id, Queued, IsolatedJob), d, AuthoritativeStateRejected), d.Key(), d.Fingerprint()),
           Skipped(StateRejected))
        else if run.recheck == RecheckThrows || !run.succeeds then (s, Thrown("handler_failed"))
        else
          (AddReceipt(AddEffect(SetJob(s, id, Queued, Completed), Effect(d.envelope, d.consumer)), d.Key(), d.Fingerprint()),
           Handled)
      case Cancelled => (AddReceipt(s, d.Key(), d.Fingerprint()), Skipped(JobCancelled))
      case Completed => (AddReceipt(s, d.Key(), d.Fingerprint()), Skipped(JobCancelled))
      case IsolatedJob => (AddReceipt(s, d.Key(), d.Fingerprint()), Skipped(StateRejected))
      case Processing => (s, Thrown("eventing_conflict"))
  }

  // The inbox transaction, serialized by the lock on (message, consumer).
  function InboxTransaction(s: Store, d: Delivery, h: Handler, run: HandlerRun): (Store, ConsumeResult) {
    if d.Key() in s.inbox then
      if s.inbox[d.Key()] == d.Fingerprint() then (s, Duplicate)
      else (Isolate(s, d, PayloadConflict), SetAside(PayloadConflict))
    else if h.kind == JobKind then JobTransaction(s, d, h, run)
    else if !run.succeeds then (s, Thrown("handler_failed"))
    else (AddReceipt(AddEffect(s, Effect(d.envelope, d.consumer)), d.Key(), d.Fingerprint()), Handled)
  }

  // A whole consume call with nothing in between.
  function Consume(s: Store, d: Delivery, h: Handler, run: HandlerRun): (Store, ConsumeResult) {
    var (s1, early) := Precheck(s, d, h);
    match early
    case Some(result) => (s1, result)
    case None => InboxTransaction(s1, d, h, run)
  }
}
