// What every step of the running pipeline keeps: rows, jobs, effects, claims,
// copies, workers and confirm channels agree.
module EventingGuarantees {
  import opened Prelude
  import opened EventingModel
  import opened EventingInvariants
  import opened EventingPipeline

  // ------------------------------------------------------------ the invariant

  // A publisher's copy of a row is the row itself as long as its claim stands.
  ghost predicate PublicationsSound(s: Pipeline) {
    forall tok :: tok in s.publications ==>
      var row := s.publications[tok].row;
      && tok in s.usedTokens
      && row.attemptCount >= 1
      && row.envelope.messageId in s.db.outbox
      && s.db.outbox[row.envelope.messageId].envelope == row.envelope
      && (s.db.outbox[row.envelope.messageId].claimToken == Some(tok) ==> s.db.outbox[row.envelope.messageId] == row)
  }

  // The token on a row is the latest one ever issued for it.
  ghost predicate ClaimsLatest(s: Pipeline) {
    forall id :: id in s.db.outbox && s.db.outbox[id].claimToken.Some? ==>
      && s.db.outbox[id].claimToken.value in s.usedTokens
      && id in s.latestClaim && s.latestClaim[id] == s.db.outbox[id].claimToken.value
  }

  ghost predicate Numbered(s: Pipeline) {
    && (forall k :: k in s.copies ==> k < s.nextCopy)
    && (forall tag :: tag in s.workers ==> tag < s.nextTag && s.workers[tag].copyId < s.nextCopy)
  }

  datatype Pair = Pair(envelope: Envelope, consumer: string)

  function PairOf(c: Copy): Pair { Pair(c.envelope, c.consumer) }

  function WorkerPair(w: Worker): Pair { Pair(w.delivery.envelope, w.delivery.consumer) }

  ghost predicate WorkerSound(t: Topology, db: Store, copies: map<nat, Copy>, w: Worker) {
    && w.line.Retrying? && Serves(t, w.line.site, w.delivery.consumer)
    && (w.copyId in copies ==> PairOf(copies[w.copyId]) == WorkerPair(w) && copies[w.copyId].attempt == w.delivery.attempt)
    && (w.phase == Consuming ==> Matches(t.handlers[w.delivery.consumer], w.delivery.envelope))
    && (w.phase == Settled ==> Recorded(db, w.delivery.envelope, w.delivery.consumer))
  }

  ghost predicate WorkersSound(t: Topology, s: Pipeline) {
    forall tag :: tag in s.workers ==> WorkerSound(t, s.db, s.copies, s.workers[tag])
  }

  // A publication in the queue of a channel is on the wire under its ticket; it
  // is confirmed and not returned only if the broker routed it.
  ghost predicate OpLinked(wire: map<Key, Passage>, line: Line, o: CP.Operation) {
    var k := Key(line, o.ticket);
    && k in wire
    && CargoId(wire[k].cargo) == o.messageId
    && (o.status.Confirmed? && !o.returned ==> wire[k].stage == Routed)
    && (wire[k].stage == Returned ==> o.returned)
    && !CP.Rejected(o)
  }

  ghost predicate PortLinked(port: CP.Port, wire: map<Key, Passage>, line: Line) {
    && CP.InOrder(port)
    && (forall o :: o in port.operations ==> OpLinked(wire, line, o))
    && (forall k :: k in wire && k.line == line ==> k.ticket < port.nextTicket && (wire[k].cargo.Original? <==> line.Outgoing?))
  }

  ghost predicate PortsLinked(ports: map<Line, CP.Port>, wire: map<Key, Passage>) {
    && (forall line :: line in ports ==> PortLinked(ports[line], wire, line))
    && (forall k :: k in wire ==> k.line in ports)
  }

  // An original on the wire is the message of its outbox row.
  ghost predicate CargoSound(wire: map<Key, Passage>, outbox: map<Uuid, OutboxRow>) {
    forall k :: k in wire && wire[k].cargo.Original? ==>
      var e := wire[k].cargo.envelope;
      e.messageId in outbox && outbox[e.messageId].envelope == e
  }

  ghost predicate Inv(t: Topology, s: Pipeline) {
    && DbSound(s.db, t.maxAttempts)
    && PublicationsSound(s)
    && ClaimsLatest(s)
    && Numbered(s)
    && WorkersSound(t, s)
    && PortsLinked(s.ports, s.wire)
    && CargoSound(s.wire, s.db.outbox)
  }

  // -------------------------------------------------------- what a step touches

  ghost predicate SameOutbox(s: Pipeline, s': Pipeline) {
    && s'.db.outbox == s.db.outbox && s'.publications == s.publications
    && s'.usedTokens == s.usedTokens && s'.latestClaim == s.latestClaim
  }

  ghost predicate SameQueues(s: Pipeline, s': Pipeline) {
    s'.copies == s.copies && s'.nextCopy == s.nextCopy && s'.nextTag == s.nextTag
  }

  // A publisher on its way to an answer: only its phase and the channels move.
  ghost predicate SendingEffect(s: Pipeline, s': Pipeline) {
    && s'.db == s.db && s'.usedTokens == s.usedTokens && s'.latestClaim == s.latestClaim
    && SameQueues(s, s') && s'.workers == s.workers && s'.stopped == s.stopped
    && s'.publications.Keys == s.publications.Keys
    && (forall tok :: tok in s.publications ==> s'.publications[tok].row == s.publications[tok].row)
  }

  lemma {:induction false} PostLeavesCopies(s: Pipeline, line: Line, cargo: Cargo, writable: bool)
    ensures var s' := Post(s, line, cargo, writable); s' == s.(ports := s'.ports, wire := s'.wire)
  {
    hide PortOf;
  }

  lemma {:induction false} SendEffect(t: Topology, s: Pipeline, token: Token, publisher: nat, writable: bool, throws: bool)
    ensures SendingEffect(s, DoSend(t, s, token, publisher, writable, throws))
  {
    hide PortOf, Takes, Post;
    if token in s.publications {
      PostLeavesCopies(s, Outgoing(publisher), Original(s.publications[token].row.envelope), writable);
    }
  }

  lemma {:induction false} AwaitEffect(s: Pipeline, token: Token)
    ensures SendingEffect(s, DoAwait(s, token)) && DoAwait(s, token).wire == s.wire
  {
    hide PortOf, Wait;
  }

  lemma {:induction false} LearnEffect(s: Pipeline, token: Token)
    ensures SendingEffect(s, DoLearn(s, token))
  {
    hide PortOf, Answered, Taken, ToldRouted;
  }

  lemma {:induction false} GiveUpEffect(s: Pipeline, token: Token)
    ensures SendingEffect(s, DoGiveUp(s, token))
  {
  }

  lemma {:induction false} SendingStepsEffect(t: Topology, s: Pipeline, step: Step)
    requires step.Send? || step.Await? || step.Learn? || step.GiveUp?
    ensures SendingEffect(s, Apply(t, s, step))
  {
    hide SendingEffect, DoSend, DoAwait, DoLearn, DoGiveUp;
    match step
    case Send(token, publisher, writable, throws) => SendEffect(t, s, token, publisher, writable, throws);
    case Await(token) => AwaitEffect(s, token);
    case Learn(token) => LearnEffect(s, token);
    case GiveUp(token) => GiveUpEffect(s, token);
  }

  // The broker and the channels: rows, claims and workers stay.
  ghost predicate BrokerEffect(s: Pipeline, s': Pipeline) {
    s'.db == s.db && SameOutbox(s, s') && s'.workers == s.workers && s'.nextTag == s.nextTag && s'.stopped == s.stopped
  }

  predicate ChannelEvent(step: Step) {
    step.Return? || step.Settle? || step.Drained? || step.ChannelFails?
  }

  lemma {:induction false} ReturnEffect(t: Topology, s: Pipeline, key: Key)
    ensures BrokerEffect(s, DoReturn(t, s, key)) && SameQueues(s, DoReturn(t, s, key))
  {
    hide PortOf, Bound, CP.DoReturned;
  }

  lemma {:induction false} SettlingEffect(s: Pipeline, key: Key, refused: bool, line: Line)
    ensures BrokerEffect(s, DoSettle(s, key, refused)) && SameQueues(s, DoSettle(s, key, refused))
    ensures BrokerEffect(s, DoDrained(s, line)) && SameQueues(s, DoDrained(s, line))
    ensures BrokerEffect(s, DoChannelFails(s, line)) && SameQueues(s, DoChannelFails(s, line))
  {
    hide PortOf, Answer, CP.DoFail, CP.Apply;
  }

  lemma {:induction false} ChannelEventsEffect(t: Topology, s: Pipeline, step: Step)
    requires ChannelEvent(step)
    ensures BrokerEffect(s, Apply(t, s, step)) && SameQueues(s, Apply(t, s, step))
  {
    hide DoReturn, DoSettle, DoDrained, DoChannelFails, BrokerEffect, SameQueues;
    match step
    case Return(key) => ReturnEffect(t, s, key);
    case Settle(key, refused) => SettlingEffect(s, key, refused, key.line);
    case Drained(line) => SettlingEffect(s, Key(line, 0), true, line);
    case ChannelFails(line) => SettlingEffect(s, Key(line, 0), true, line);
  }

  lemma {:induction false} AcceptEffect(t: Topology, s: Pipeline, key: Key)
    ensures BrokerEffect(s, DoAccept(t, s, key)) && DoAccept(t, s, key).ports == s.ports
  {
    hide Routable, Enqueued;
  }

  lemma {:induction false} BrokerStepsEffect(t: Topology, s: Pipeline, step: Step)
    requires ChannelEvent(step) || step.Accept? || step.Inject? || step.DelayOver? || step.ConnectionLost?
    ensures BrokerEffect(s, Apply(t, s, step))
  {
    if ChannelEvent(step) {
      ChannelEventsEffect(t, s, step);
      hide Apply;
    } else {
      hide DoAccept;
      if step.Accept? {
        AcceptEffect(t, s, step.key);
      }
    }
  }

  // A worker goes on with its delivery or is gone; another is left alone.
  ghost predicate WorkersKept(workers: map<nat, Worker>, after: map<nat, Worker>, acting: nat) {
    && (forall tag :: tag in after ==> tag in workers && after[tag] == workers[tag].(phase := after[tag].phase))
    && (forall tag :: tag in workers && tag != acting ==> tag in after && after[tag] == workers[tag])
  }

  lemma {:induction false} PhaseKeepsOthers(workers: map<nat, Worker>, acting: nat, phase: WorkerPhase)
    requires acting in workers
    ensures WorkersKept(workers, workers[acting := workers[acting].(phase := phase)], acting)
  {
  }

  lemma {:induction false} LeavingKeepsOthers(workers: map<nat, Worker>, acting: nat)
    ensures WorkersKept(workers, workers, acting) && WorkersKept(workers, workers - {acting}, acting)
  {
  }

  // Nobody is newly told that a retry was routed.
  predicate NoneTold(workers: map<nat, Worker>, after: map<nat, Worker>, acting: nat) {
    acting in after && after[acting].phase == Republished ==> acting in workers && after[acting] == workers[acting]
  }

  // An adapter stops only as a delivery of its own fails for good.
  ghost predicate StopsWith(s: Pipeline, s': Pipeline, acting: nat) {
    || s'.stopped == s.stopped
    || (acting in s.workers && acting !in s'.workers && s'.stopped == s.stopped + {s.workers[acting].line})
  }

  ghost predicate WorkerEffect(s: Pipeline, s': Pipeline, acting: nat) {
    && SameOutbox(s, s') && WorkersKept(s.workers, s'.workers, acting) && StopsWith(s, s', acting)
    && s'.nextTag == s.nextTag && s'.nextCopy == s.nextCopy
  }

  // Every other phase has to be earned.
  predicate FreePhase(w: Worker) { w.phase != Consuming && w.phase != Settled }

  ghost predicate RetryEffect(s: Pipeline, s': Pipeline, acting: nat) {
    && WorkerEffect(s, s', acting) && s'.db == s.db
    && (acting in s'.workers ==> acting in s.workers && (s'.workers[acting] == s.workers[acting] || FreePhase(s'.workers[acting])))
  }

  lemma {:induction false} AckEffect(s: Pipeline, tag: nat)
    ensures RetryEffect(s, DoAck(s, tag), tag) && NoneTold(s.workers, DoAck(s, tag).workers, tag)
  {
    hide WorkersKept;
    LeavingKeepsOthers(s.workers, tag);
  }

  lemma {:induction false} AckThrowsEffect(t: Topology, s: Pipeline, tag: nat)
    ensures RetryEffect(s, Apply(t, s, AckThrows(tag)), tag) && NoneTold(s.workers, Apply(t, s, AckThrows(tag)).workers, tag)
  {
    hide WorkersKept;
    LeavingKeepsOthers(s.workers, tag);
    if tag in s.workers {
      PhaseKeepsOthers(s.workers, tag, Errored);
    }
  }

  lemma {:induction false} RecoverEffect(t: Topology, s: Pipeline, tag: nat, retryable: bool, writable: bool, throws: bool)
    ensures RetryEffect(s, DoRecover(t, s, tag, retryable, writable, throws), tag)
    ensures NoneTold(s.workers, DoRecover(t, s, tag, retryable, writable, throws).workers, tag)
  {
    hide PortOf, Takes, WillRetry, CanResend, WorkersKept, Post, DeadLetterCopy, SetPhase, DropWorker, FailWorker, RetryEffect, NoneTold;
    CrashEffect(s, tag);
    DeadLetterEffect(s, tag);
    StillEffect(s, tag);
    if tag in s.workers {
      PostEffect(s, tag, writable);
    }
  }

  lemma {:induction false} StillEffect(s: Pipeline, tag: nat)
    ensures RetryEffect(s, s, tag) && NoneTold(s.workers, s.workers, tag)
  {
  }

  lemma {:induction false} PostEffect(s: Pipeline, tag: nat, writable: bool)
    requires tag in s.workers
    ensures var s1 := Post(s, s.workers[tag].line, Again(NextTry(s.workers[tag])), writable);
      tag in s1.workers && RetryEffect(s, SetPhase(s1, tag, Resent), tag) && NoneTold(s.workers, SetPhase(s1, tag, Resent).workers, tag)
  {
    hide PortOf, WorkersKept;
    PhaseKeepsOthers(s.workers, tag, Resent);
  }

  lemma {:induction false} DeadLetterEffect(s: Pipeline, tag: nat)
    ensures var s' := DropWorker(DeadLetterCopy(s, tag), tag);
      RetryEffect(s, s', tag) && NoneTold(s.workers, s'.workers, tag)
  {
    hide WorkersKept;
    LeavingKeepsOthers(s.workers, tag);
  }

  lemma {:induction false} AwaitRetryEffect(s: Pipeline, tag: nat)
    ensures RetryEffect(s, DoAwaitRetry(s, tag), tag) && SameQueues(s, DoAwaitRetry(s, tag)) && DoAwaitRetry(s, tag).wire == s.wire
    ensures NoneTold(s.workers, DoAwaitRetry(s, tag).workers, tag)
  {
    hide PortOf, Wait, WorkersKept;
    LeavingKeepsOthers(s.workers, tag);
    if tag in s.workers {
      var ticket := Wait(PortOf(s, s.workers[tag].line)).1;
      if ticket.Some? {
        PhaseKeepsOthers(s.workers, tag, RetryAwaited(ticket.value));
      }
    }
  }

  // Asking for an answer touches the channels and nothing else.
  lemma {:induction false} AskEffect(s: Pipeline, line: Line, ticket: nat, id: Uuid)
    ensures var s' := Ask(s, line, ticket, id); s' == s.(ports := s'.ports, wire := s'.wire)
  {
    hide PortOf, Taken;
  }

  lemma {:induction false} LearnRetryEffect(s: Pipeline, tag: nat)
    ensures RetryEffect(s, DoLearnRetry(s, tag), tag) && SameQueues(s, DoLearnRetry(s, tag))
  {
    hide PortOf, Answered, ToldRouted, WorkersKept, Ask;
    LeavingKeepsOthers(s.workers, tag);
    if tag in s.workers {
      PhaseKeepsOthers(s.workers, tag, Republished);
      if s.workers[tag].phase.RetryAwaited? {
        var w := s.workers[tag];
        AskEffect(s, w.line, w.phase.ticket, w.delivery.envelope.messageId);
      }
    }
  }

  predicate RetryStep(step: Step) {
    step.Ack? || step.AckThrows? || step.Recover? || step.AwaitRetry? || step.LearnRetry? || step.WorkerCrash?
  }

  lemma {:induction false} RetryStepsEffect(t: Topology, s: Pipeline, step: Step)
    requires RetryStep(step)
    ensures RetryEffect(s, Apply(t, s, step), step.tag)
    ensures !step.LearnRetry? ==> NoneTold(s.workers, Apply(t, s, step).workers, step.tag)
  {
    hide RetryEffect, NoneTold, DoAck, DoRecover, DoAwaitRetry, DoLearnRetry;
    match step
    case Ack(tag) => AckEffect(s, tag);
    case AckThrows(tag) => AckThrowsEffect(t, s, tag);
    case Recover(tag, retryable, writable, throws) => RecoverEffect(t, s, tag, retryable, writable, throws);
    case AwaitRetry(tag) => AwaitRetryEffect(s, tag);
    case LearnRetry(tag) => LearnRetryEffect(s, tag);
    case WorkerCrash(tag) => CrashEffect(s, tag);
  }

  lemma {:induction false} CrashEffect(s: Pipeline, tag: nat)
    ensures RetryEffect(s, FailWorker(s, tag), tag) && NoneTold(s.workers, FailWorker(s, tag).workers, tag)
  {
    hide WorkersKept;
    LeavingKeepsOthers(s.workers, tag);
  }

  // A delivery, when it is admitted: one copy handed over, one worker more.
  function Newcomer(s: Pipeline, step: Step): Worker
    requires step.Deliver? && step.copyId in s.copies
  {
    var c := s.copies[step.copyId];
    Worker(step.copyId, Delivery(c.envelope, c.consumer, c.attempt, step.isolationId), Retrying(step.site, step.instance), Fetched)
  }

  lemma {:induction false} DeliverCases(t: Topology, s: Pipeline, step: Step)
    requires step.Deliver? && Apply(t, s, step) != s
    ensures step.copyId in s.copies && s.copies[step.copyId].place == Ready && Serves(t, step.site, s.copies[step.copyId].consumer) && Admits(t, s, step.site, step.instance)
    ensures var s', k := Apply(t, s, step), step.copyId;
      s' == s.(copies := s.copies[k := s.copies[k].(place := Unacked(s.nextTag))], workers := s.workers[s.nextTag := Newcomer(s, step)], nextTag := s.nextTag + 1)
  {
    hide Admits;
  }

  lemma {:induction false} DeliverEffect(t: Topology, s: Pipeline, step: Step)
    requires step.Deliver?
    ensures var s' := Apply(t, s, step); s'.db == s.db && SameOutbox(s, s') && s'.nextCopy == s.nextCopy && s'.stopped == s.stopped
  {
    hide Apply, Serves, Admits;
    if Apply(t, s, step) != s {
      DeliverCases(t, s, step);
    }
  }

  // ------------------------------------------------------------ the database

  predicate ClientStep(step: Step) {
    step.AppendEvent? || step.SubmitJob? || step.Replay? || step.CancelJob?
  }

  predicate PublisherStep(step: Step) {
    || step.Claim? || step.Send? || step.Await? || step.Learn? || step.GiveUp?
    || step.MarkDone? || step.MarkFailed? || step.PublisherCrash?
  }

  lemma {:induction false} ClientsKeepDb(t: Topology, s: Pipeline, step: Step)
    requires ValidTopology(t) && DbSound(s.db, t.maxAttempts) && ClientStep(step)
    ensures DbSound(Apply(t, s, step).db, t.maxAttempts)
    ensures Advances(s.db, Apply(t, s, step).db)
  {
    hide DbSound, Advances, AppendRow, SubmitTransaction, EventingModel.CancelJob, ReplayOutbox;
    AdvancesReflexive(s.db);
    match step
    case AppendEvent(e) => AppendKeeps(s.db, e, t.maxAttempts);
    case SubmitJob(e) => if e.Job? { SubmitKeeps(s.db, e, t.maxAttempts); }
    case CancelJob(id, reason) => CancelKeeps(s.db, id, reason, t.maxAttempts);
    case Replay(id, at) => ReplayKeeps(s.db, id, at, t.maxAttempts);
  }

  lemma {:induction false} ClaimsKeepDb(t: Topology, s: Pipeline, id: Uuid, token: Token, at: int, staleBefore: int)
    requires DbSound(s.db, t.maxAttempts)
    ensures DbSound(DoClaim(s, id, token, at, staleBefore).db, t.maxAttempts) && Advances(s.db, DoClaim(s, id, token, at, staleBefore).db)
  {
    hide DbSound, Advances;
    AdvancesReflexive(s.db);
    if token !in s.usedTokens && id in s.db.outbox && Claimable(s.db.outbox[id], at, staleBefore) {
      ClaimKeeps(s.db, id, token, at, staleBefore, t.maxAttempts);
    }
  }

  lemma {:induction false} MarksKeepDb(t: Topology, s: Pipeline, token: Token, at: int, errorCode: string)
    requires ValidTopology(t) && DbSound(s.db, t.maxAttempts) && PublicationsSound(s)
    ensures DbSound(DoMarkDone(s, token, at).db, t.maxAttempts) && Advances(s.db, DoMarkDone(s, token, at).db)
    ensures DbSound(DoMarkFailed(t, s, token, at, errorCode).db, t.maxAttempts) && Advances(s.db, DoMarkFailed(t, s, token, at, errorCode).db)
  {
    hide DbSound, Advances, MarkPublished, MarkFailure, BackoffSeconds;
    AdvancesReflexive(s.db);
    if token in s.publications {
      var row := s.publications[token].row;
      MarkPublishedKeeps(s.db, row.envelope.messageId, token, at, t.maxAttempts);
      MarkFailureKeeps(s.db, row.envelope.messageId, token, at, at + 1000 * BackoffSeconds(t.backoffSeconds, row), errorCode, Exhausted(t.maxAttempts, row), t.maxAttempts);
    }
  }

  lemma {:induction false} PublishersKeepDb(t: Topology, s: Pipeline, step: Step)
    requires ValidTopology(t) && DbSound(s.db, t.maxAttempts) && PublicationsSound(s) && PublisherStep(step)
    ensures DbSound(Apply(t, s, step).db, t.maxAttempts)
    ensures Advances(s.db, Apply(t, s, step).db)
  {
    hide DbSound, Advances, DoClaim, DoMarkDone, DoMarkFailed;
    AdvancesReflexive(s.db);
    match step
    case Claim(id, token, at, staleBefore) => ClaimsKeepDb(t, s, id, token, at, staleBefore);
    case MarkDone(token, at) => MarksKeepDb(t, s, token, at, "");
    case MarkFailed(token, at, errorCode) => MarksKeepDb(t, s, token, at, errorCode);
    case _ => hide Apply; SendingKeepsDb(t, s, step);
  }

  lemma {:induction false} SendingKeepsDb(t: Topology, s: Pipeline, step: Step)
    requires step.Send? || step.Await? || step.Learn? || step.GiveUp? || step.PublisherCrash?
    ensures Apply(t, s, step).db == s.db
  {
    hide DoSend, DoAwait, DoLearn, DoGiveUp;
    if !step.PublisherCrash? {
      SendingStepsEffect(t, s, step);
    }
  }

  lemma {:induction false} CheckKeepsDb(t: Topology, s: Pipeline, tag: nat, fails: bool)
    requires DbSound(s.db, t.maxAttempts)
    ensures DbSound(DoCheck(t, s, tag, fails).db, t.maxAttempts) && Advances(s.db, DoCheck(t, s, tag, fails).db)
  {
    hide DbSound, Advances, Checked;
    AdvancesReflexive(s.db);
    if tag in s.workers && s.workers[tag].delivery.consumer in t.handlers {
      CheckedKeepsDb(t, s.db, s.workers[tag].delivery, t.handlers[s.workers[tag].delivery.consumer], fails);
    }
  }

  lemma {:induction false} CheckedKeepsDb(t: Topology, db: Store, d: Delivery, h: Handler, fails: bool)
    requires DbSound(db, t.maxAttempts)
    ensures DbSound(Checked(t, db, d, h, fails).0, t.maxAttempts) && Advances(db, Checked(t, db, d, h, fails).0)
  {
    hide DbSound, Advances, Isolate, DeliveryPolicy;
    AdvancesReflexive(db);
    IsolateKeeps(db, d, UnsupportedMessage, t.maxAttempts);
    IsolateKeeps(db, d, PayloadConflict, t.maxAttempts);
  }

  lemma {:induction false} TransactKeepsDb(t: Topology, s: Pipeline, tag: nat, run: HandlerRun, reported: bool)
    requires DbSound(s.db, t.maxAttempts) && WorkersSound(t, s)
    ensures DbSound(DoTransact(t, s, tag, run, reported).db, t.maxAttempts)
    ensures Advances(s.db, DoTransact(t, s, tag, run, reported).db)
  {
    hide DbSound, Advances, InboxTransaction, Recorded;
    AdvancesReflexive(s.db);
    if tag in s.workers && s.workers[tag].phase == Consuming {
      assert WorkerSound(t, s.db, s.copies, s.workers[tag]);
      InboxTransactionKeeps(s.db, s.workers[tag].delivery, t.handlers[s.workers[tag].delivery.consumer], run, t.maxAttempts);
    }
  }

  lemma {:induction false} StepKeepsDb(t: Topology, s: Pipeline, step: Step)
    requires ValidTopology(t) && DbSound(s.db, t.maxAttempts) && PublicationsSound(s) && WorkersSound(t, s)
    ensures DbSound(Apply(t, s, step).db, t.maxAttempts)
    ensures Advances(s.db, Apply(t, s, step).db)
  {
    if ClientStep(step) {
      ClientsKeepDb(t, s, step);
    } else if PublisherStep(step) {
      PublishersKeepDb(t, s, step);
    } else {
      hide DbSound, Advances, DoCheck, DoTransact, PublicationsSound, WorkersSound, Apply;
      AdvancesReflexive(s.db);
      match step
      case Check(tag, fails) => CheckIs(t, s, tag, fails); CheckKeepsDb(t, s, tag, fails);
      case Transact(tag, run, reported) => TransactIs(t, s, tag, run, reported); TransactKeepsDb(t, s, tag, run, reported);
      case _ => OthersLeaveDb(t, s, step);
    }
  }

  lemma {:induction false} CheckIs(t: Topology, s: Pipeline, tag: nat, fails: bool)
    ensures Apply(t, s, Check(tag, fails)) == DoCheck(t, s, tag, fails)
  {
  }

  lemma {:induction false} TransactIs(t: Topology, s: Pipeline, tag: nat, run: HandlerRun, reported: bool)
    ensures Apply(t, s, Transact(tag, run, reported)) == DoTransact(t, s, tag, run, reported)
  {
  }

  // ------------------------------------------------------------------ fencing

  // Only clients and publishers touch the outbox.
  lemma {:induction false} ConsumptionLeavesOutbox(s: Store, d: Delivery, h: Handler, run: HandlerRun)
    ensures Precheck(s, d, h).0.outbox == s.outbox
    ensures InboxTransaction(s, d, h, run).0.outbox == s.outbox
  {
  }

  lemma {:induction false} OthersLeaveDb(t: Topology, s: Pipeline, step: Step)
    requires !ClientStep(step) && !PublisherStep(step) && !step.Check? && !step.Transact?
    ensures Apply(t, s, step).db == s.db && SameOutbox(s, Apply(t, s, step))
  {
    hide Apply, SameOutbox, WorkersKept, SameQueues;
    if step.Deliver? {
      DeliverEffect(t, s, step);
    } else if RetryStep(step) {
      RetryStepsEffect(t, s, step);
    } else {
      BrokerStepsEffect(t, s, step);
    }
  }

  lemma {:induction false} CheckedLeavesOutbox(t: Topology, db: Store, d: Delivery, h: Handler, fails: bool)
    ensures Checked(t, db, d, h, fails).0.outbox == db.outbox
    ensures Checked(t, db, d, h, fails).1 in {None, Some(Errored), Some(Settled), Some(Consuming)}
  {
    hide Precheck, DeliveryPolicy;
    ConsumptionLeavesOutbox(db, d, h, HandlerRun(Allows, true));
  }

  lemma {:induction false} CheckEffect(t: Topology, s: Pipeline, tag: nat, fails: bool)
    ensures WorkerEffect(s, DoCheck(t, s, tag, fails), tag) && NoneTold(s.workers, DoCheck(t, s, tag, fails).workers, tag)
  {
    hide Checked, WorkersKept;
    LeavingKeepsOthers(s.workers, tag);
    if tag in s.workers && s.workers[tag].delivery.consumer in t.handlers {
      var d := s.workers[tag].delivery;
      var h := t.handlers[d.consumer];
      CheckedLeavesOutbox(t, s.db, d, h, fails);
      var phase := Checked(t, s.db, d, h, fails).1;
      if phase.Some? {
        PhaseKeepsOthers(s.workers, tag, phase.value);
      }
    }
  }

  lemma {:induction false} TransactEffect(t: Topology, s: Pipeline, tag: nat, run: HandlerRun, reported: bool)
    ensures var s' := DoTransact(t, s, tag, run, reported); WorkerEffect(s, s', tag) && SameQueues(s, s') && s'.wire == s.wire && NoneTold(s.workers, s'.workers, tag)
  {
    hide InboxTransaction, WorkersKept;
    LeavingKeepsOthers(s.workers, tag);
    if tag in s.workers && s.workers[tag].delivery.consumer in t.handlers {
      var d := s.workers[tag].delivery;
      ConsumptionLeavesOutbox(s.db, d, t.handlers[d.consumer], run);
      PhaseKeepsOthers(s.workers, tag, Settled);
      PhaseKeepsOthers(s.workers, tag, Errored);
    }
  }

  lemma {:induction false} WorkersLeaveOutbox(t: Topology, s: Pipeline, step: Step)
    requires !ClientStep(step) && !PublisherStep(step)
    ensures SameOutbox(s, Apply(t, s, step))
  {
    hide DoCheck, DoTransact, Apply;
    match step
    case Check(tag, fails) => CheckIs(t, s, tag, fails); CheckEffect(t, s, tag, fails);
    case Transact(tag, run, reported) => TransactIs(t, s, tag, run, reported); TransactEffect(t, s, tag, run, reported);
    case _ => OthersLeaveDb(t, s, step);
  }

  ghost predicate ClaimsSound(s: Pipeline) {
    && PublicationsSound(s)
    && ClaimsLatest(s)
    && (forall id :: id in s.db.outbox ==> s.db.outbox[id].envelope.messageId == id)
    && (forall id :: id in s.db.outbox ==> (s.db.outbox[id].status == Publishing <==> s.db.outbox[id].claimToken.Some?))
  }

  lemma {:induction false} ClientsKeepClaims(t: Topology, s: Pipeline, step: Step)
    requires ClaimsSound(s) && ClientStep(step)
    ensures PublicationsSound(Apply(t, s, step)) && ClaimsLatest(Apply(t, s, step))
  {
  }

  lemma {:induction false} ClaimKeepsClaims(s: Pipeline, id: Uuid, token: Token, at: int, staleBefore: int)
    requires ClaimsSound(s)
    ensures PublicationsSound(DoClaim(s, id, token, at, staleBefore)) && ClaimsLatest(DoClaim(s, id, token, at, staleBefore))
  {
    hide Claimable;
  }

  lemma {:induction false} MarkDoneKeepsClaims(t: Topology, s: Pipeline, token: Token, at: int)
    requires ClaimsSound(s)
    ensures PublicationsSound(DoMarkDone(s, token, at)) && ClaimsLatest(DoMarkDone(s, token, at))
  {
  }

  lemma {:induction false} MarkFailedKeepsClaims(t: Topology, s: Pipeline, token: Token, at: int, errorCode: string)
    requires ClaimsSound(s)
    ensures PublicationsSound(DoMarkFailed(t, s, token, at, errorCode)) && ClaimsLatest(DoMarkFailed(t, s, token, at, errorCode))
  {
    hide BackoffSeconds, Exhausted;
  }

  lemma {:induction false} SendingKeepsClaims(t: Topology, s: Pipeline, step: Step)
    requires ClaimsSound(s) && (step.Send? || step.Await? || step.Learn? || step.GiveUp?)
    ensures PublicationsSound(Apply(t, s, step)) && ClaimsLatest(Apply(t, s, step))
  {
    hide Apply;
    SendingStepsEffect(t, s, step);
  }

  lemma {:induction false} CrashKeepsClaims(s: Pipeline, token: Token)
    requires ClaimsSound(s)
    ensures PublicationsSound(DropPublication(s, token)) && ClaimsLatest(DropPublication(s, token))
  {
  }

  lemma {:induction false} InvMeansClaimsSound(t: Topology, s: Pipeline)
    requires Inv(t, s)
    ensures ClaimsSound(s)
  {
    hide Numbered, WorkersSound, PortsLinked, CargoSound, PublicationsSound, ClaimsLatest;
  }

  lemma {:induction false} PublishersKeepClaims(t: Topology, s: Pipeline, step: Step)
    requires ClaimsSound(s) && PublisherStep(step)
    ensures PublicationsSound(Apply(t, s, step)) && ClaimsLatest(Apply(t, s, step))
  {
    hide ClaimsSound, PublicationsSound, ClaimsLatest, DoClaim, DoSend, DoAwait, DoLearn, DoGiveUp, DoMarkDone, DoMarkFailed, DropPublication;
    match step
    case Claim(id, token, at, staleBefore) => ClaimKeepsClaims(s, id, token, at, staleBefore);
    case MarkDone(token, at) => MarkDoneKeepsClaims(t, s, token, at);
    case MarkFailed(token, at, errorCode) => MarkFailedKeepsClaims(t, s, token, at, errorCode);
    case PublisherCrash(token) => CrashKeepsClaims(s, token);
    case _ => SendingKeepsClaims(t, s, step);
  }

  lemma {:induction false} StepKeepsClaims(t: Topology, s: Pipeline, step: Step)
    requires Inv(t, s)
    ensures PublicationsSound(Apply(t, s, step))
    ensures ClaimsLatest(Apply(t, s, step))
  {
    hide Apply, Inv;
    InvMeansClaimsSound(t, s);
    if ClientStep(step) {
      ClientsKeepClaims(t, s, step);
    } else if PublisherStep(step) {
      PublishersKeepClaims(t, s, step);
    } else {
      WorkersLeaveOutbox(t, s, step);
    }
  }

  // ------------------------------------------------------------ broker copies

  // Every copy numbered so far keeps its content as long as it is there.
  ghost predicate ContentKept(s: Pipeline, s': Pipeline) {
    && s.nextCopy <= s'.nextCopy
    && forall k :: k in s'.copies && k < s.nextCopy ==> k in s.copies && s'.copies[k] == s.copies[k].(place := s'.copies[k].place)
  }

  lemma {:induction false} DeliverKeepsNumbers(t: Topology, s: Pipeline, step: Step)
    requires Numbered(s) && step.Deliver?
    ensures Numbered(Apply(t, s, step)) && ContentKept(s, Apply(t, s, step))
  {
    hide Apply, Serves, Admits;
    if Apply(t, s, step) != s {
      DeliverCases(t, s, step);
    }
  }

  // The copies of a state and their numbers.
  ghost predicate CopiesNumbered(s: Pipeline) { forall k :: k in s.copies ==> k < s.nextCopy }

  lemma {:induction false} AcceptKeepsCopies(t: Topology, s: Pipeline, key: Key)
    requires Numbered(s)
    ensures ContentKept(s, DoAccept(t, s, key)) && CopiesNumbered(DoAccept(t, s, key))
  {
    hide Bound;
  }

  lemma {:induction false} DeadLetterKeepsCopies(s: Pipeline, s': Pipeline, tag: nat)
    requires Numbered(s) && s'.nextCopy == s.nextCopy
    requires s'.copies == s.copies || s'.copies == DeadLetterCopy(s, tag).copies
    ensures ContentKept(s, s') && CopiesNumbered(s')
  {
  }

  lemma {:induction false} DeadLetterMovesOneCopy(s: Pipeline, tag: nat)
    ensures var s' := DeadLetterCopy(s, tag); s' == s.(copies := s'.copies)
  {
  }

  lemma {:induction false} CheckMovesOneCopy(t: Topology, s: Pipeline, tag: nat, fails: bool)
    ensures var s' := DoCheck(t, s, tag, fails);
      s'.nextCopy == s.nextCopy && s'.wire == s.wire && (s'.copies == s.copies || s'.copies == DeadLetterCopy(s, tag).copies)
  {
    hide Checked, DeadLetterCopy;
    DeadLetterMovesOneCopy(s, tag);
  }

  lemma {:induction false} RecoverMovesOneCopy(t: Topology, s: Pipeline, tag: nat, retryable: bool, writable: bool, throws: bool)
    ensures var s' := DoRecover(t, s, tag, retryable, writable, throws);
      s'.nextCopy == s.nextCopy && (s'.copies == s.copies || s'.copies == DeadLetterCopy(s, tag).copies)
    ensures var s' := DoRecover(t, s, tag, retryable, writable, throws);
      s'.ports == s.ports || (tag in s.workers && s'.ports == Post(s, s.workers[tag].line, Again(NextTry(s.workers[tag])), writable).ports)
  {
    hide WillRetry, CanResend, Takes, PortOf, Post, DeadLetterCopy;
    DeadLetterMovesOneCopy(s, tag);
    if tag in s.workers {
      PostLeavesCopies(s, s.workers[tag].line, Again(NextTry(s.workers[tag])), writable);
    }
  }

  lemma {:induction false} RecoverIs(t: Topology, s: Pipeline, tag: nat, retryable: bool, writable: bool, throws: bool)
    ensures Apply(t, s, Recover(tag, retryable, writable, throws)) == DoRecover(t, s, tag, retryable, writable, throws)
  {
  }

  lemma {:induction false} CheckKeepsCopies(t: Topology, s: Pipeline, tag: nat, fails: bool)
    requires Numbered(s)
    ensures ContentKept(s, DoCheck(t, s, tag, fails)) && CopiesNumbered(DoCheck(t, s, tag, fails))
  {
    hide DoCheck, Numbered, ContentKept, CopiesNumbered;
    CheckMovesOneCopy(t, s, tag, fails);
    DeadLetterKeepsCopies(s, DoCheck(t, s, tag, fails), tag);
  }

  lemma {:induction false} RecoverKeepsCopies(t: Topology, s: Pipeline, tag: nat, retryable: bool, writable: bool, throws: bool)
    requires Numbered(s)
    ensures ContentKept(s, DoRecover(t, s, tag, retryable, writable, throws)) && CopiesNumbered(DoRecover(t, s, tag, retryable, writable, throws))
  {
    hide DoRecover, Numbered, ContentKept, CopiesNumbered;
    RecoverMovesOneCopy(t, s, tag, retryable, writable, throws);
    DeadLetterKeepsCopies(s, DoRecover(t, s, tag, retryable, writable, throws), tag);
  }

  lemma {:induction false} PlacesKeepCopies(s: Pipeline, s': Pipeline, k: nat)
    requires Numbered(s) && s'.nextCopy == s.nextCopy
    requires s'.copies == s.copies || s'.copies == s.copies - {k} || (k in s.copies && exists place :: s'.copies == s.copies[k := s.copies[k].(place := place)])
    ensures ContentKept(s, s') && CopiesNumbered(s')
  {
  }

  lemma {:induction false} MovesKeepCopies(t: Topology, s: Pipeline, step: Step)
    requires Numbered(s) && (step.ConnectionLost? || step.Ack? || step.AckThrows? || step.WorkerCrash?)
    ensures ContentKept(s, Apply(t, s, step)) && CopiesNumbered(Apply(t, s, step))
  {
    hide Numbered, ContentKept, CopiesNumbered;
    var s' := Apply(t, s, step);
    var k := if step.ConnectionLost? then step.copyId else if step.tag in s.workers then s.workers[step.tag].copyId else 0;
    assert s'.nextCopy == s.nextCopy;
    if step.ConnectionLost? && s' != s {
      assert s'.copies == s.copies[k := s.copies[k].(place := Ready)];
    }
    PlacesKeepCopies(s, s', k);
  }

  lemma {:induction false} ExpireKeepsCopies(t: Topology, s: Pipeline, k: nat)
    requires Numbered(s)
    ensures ContentKept(s, DoExpire(t, s, k)) && CopiesNumbered(DoExpire(t, s, k))
  {
    hide Reach;
  }

  lemma {:induction false} InjectKeepsCopies(t: Topology, s: Pipeline, step: Step)
    requires Numbered(s) && step.Inject?
    ensures ContentKept(s, Apply(t, s, step)) && CopiesNumbered(Apply(t, s, step))
  {
  }

  lemma {:induction false} ClientsLeaveBroker(t: Topology, s: Pipeline, step: Step)
    requires ClientStep(step) || step.Claim? || step.MarkDone? || step.MarkFailed? || step.PublisherCrash?
    ensures var s' := Apply(t, s, step);
      SameQueues(s, s') && s'.workers == s.workers && s'.stopped == s.stopped && s'.ports == s.ports && s'.wire == s.wire
  {
    hide ClaimOne, Claimable, SubmitTransaction, MarkPublished, MarkFailure, ReplayOutbox, BackoffSeconds, Exhausted;
  }

  lemma {:induction false} SameQueuesKeepCopies(s: Pipeline, s': Pipeline)
    requires Numbered(s) && SameQueues(s, s')
    ensures ContentKept(s, s') && CopiesNumbered(s')
  {
  }

  lemma {:induction false} WorkerStepsKeepCopies(t: Topology, s: Pipeline, step: Step)
    requires Numbered(s) && !ClientStep(step) && !PublisherStep(step) && !step.Deliver?
    ensures ContentKept(s, Apply(t, s, step)) && CopiesNumbered(Apply(t, s, step))
  {
    hide Numbered, ContentKept, CopiesNumbered, SameQueues, WorkerEffect, RetryEffect, BrokerEffect;
    hide DoCheck, DoTransact, DoRecover, DoAwaitRetry, DoLearnRetry, DoAccept, DoReturn, DoSettle, DoDrained, DoChannelFails, DoExpire;
    match step
    case Check(tag, fails) => CheckKeepsCopies(t, s, tag, fails);
    case Recover(tag, retryable, writable, throws) => RecoverKeepsCopies(t, s, tag, retryable, writable, throws);
    case Accept(key) => AcceptKeepsCopies(t, s, key);
    case Transact(tag, run, reported) => TransactEffect(t, s, tag, run, reported); SameQueuesKeepCopies(s, Apply(t, s, step));
    case AwaitRetry(tag) => AwaitRetryEffect(s, tag); SameQueuesKeepCopies(s, Apply(t, s, step));
    case LearnRetry(tag) => LearnRetryEffect(s, tag); SameQueuesKeepCopies(s, Apply(t, s, step));
    case Return(_) => ChannelEventsEffect(t, s, step); SameQueuesKeepCopies(s, Apply(t, s, step));
    case Settle(_, _) => ChannelEventsEffect(t, s, step); SameQueuesKeepCopies(s, Apply(t, s, step));
    case Drained(_) => ChannelEventsEffect(t, s, step); SameQueuesKeepCopies(s, Apply(t, s, step));
    case ChannelFails(_) => ChannelEventsEffect(t, s, step); SameQueuesKeepCopies(s, Apply(t, s, step));
    case Inject(_, _, _) => InjectKeepsCopies(t, s, step);
    case DelayOver(k) => ExpireKeepsCopies(t, s, k);
    case _ => MovesKeepCopies(t, s, step);
  }

  lemma {:induction false} StepKeepsCopies(t: Topology, s: Pipeline, step: Step)
    requires Numbered(s) && !step.Deliver?
    ensures ContentKept(s, Apply(t, s, step)) && CopiesNumbered(Apply(t, s, step))
  {
    hide Apply, Numbered, ContentKept, CopiesNumbered, SameQueues;
    if ClientStep(step) || step.Claim? || step.MarkDone? || step.MarkFailed? || step.PublisherCrash? {
      ClientsLeaveBroker(t, s, step);
      SameQueuesKeepCopies(s, Apply(t, s, step));
    } else if PublisherStep(step) {
      SendingStepsEffect(t, s, step);
      SameQueuesKeepCopies(s, Apply(t, s, step));
    } else {
      WorkerStepsKeepCopies(t, s, step);
    }
  }

  // Only a delivery starts a worker.
  lemma {:induction false} StepKeepsDeliveries(t: Topology, s: Pipeline, step: Step)
    requires !step.Deliver?
    ensures Apply(t, s, step).nextTag == s.nextTag
    ensures Apply(t, s, step).workers == s.workers || ((RetryStep(step) || step.Check? || step.Transact?) && WorkersKept(s.workers, Apply(t, s, step).workers, step.tag))
  {
    hide Apply, WorkersKept, SameOutbox, DoCheck, DoTransact;
    if ClientStep(step) || step.Claim? || step.MarkDone? || step.MarkFailed? || step.PublisherCrash? {
      ClientsLeaveBroker(t, s, step);
    } else if PublisherStep(step) {
      SendingStepsEffect(t, s, step);
    } else if step.Check? {
      CheckIs(t, s, step.tag, step.fails);
      CheckEffect(t, s, step.tag, step.fails);
    } else if step.Transact? {
      TransactIs(t, s, step.tag, step.run, step.reported);
      TransactEffect(t, s, step.tag, step.run, step.reported);
    } else if RetryStep(step) {
      RetryStepsEffect(t, s, step);
    } else {
      BrokerStepsEffect(t, s, step);
    }
  }

  lemma {:induction false} StepKeepsNumbers(t: Topology, s: Pipeline, step: Step)
    requires Numbered(s)
    ensures Numbered(Apply(t, s, step)) && ContentKept(s, Apply(t, s, step))
  {
    if step.Deliver? {
      DeliverKeepsNumbers(t, s, step);
    } else {
      hide Apply;
      StepKeepsDeliveries(t, s, step);
      StepKeepsCopies(t, s, step);
    }
  }

  // ------------------------------------------------------------------ workers

  lemma {:induction false} WorkerStaysSound(t: Topology, s: Pipeline, s': Pipeline, w: Worker)
    requires WorkerSound(t, s.db, s.copies, w) && w.copyId < s.nextCopy
    requires Advances(s.db, s'.db) && ContentKept(s, s')
    ensures WorkerSound(t, s'.db, s'.copies, w)
  {
    if w.phase == Settled {
      RecordedStays(s.db, s'.db, w.delivery.envelope, w.delivery.consumer);
    }
  }

  // What a worker has to show for the phase a step has brought it to.
  ghost predicate PhaseEarned(t: Topology, db: Store, w: Worker) {
    && (w.phase == Consuming ==> w.delivery.consumer in t.handlers && Matches(t.handlers[w.delivery.consumer], w.delivery.envelope))
    && (w.phase == Settled ==> Recorded(db, w.delivery.envelope, w.delivery.consumer))
  }

  lemma {:induction false} CheckedEarns(t: Topology, db: Store, d: Delivery, h: Handler, fails: bool)
    requires DbSound(db, t.maxAttempts)
    ensures var (next, phase) := Checked(t, db, d, h, fails);
      && (phase == Some(Settled) ==> Recorded(next, d.envelope, d.consumer))
      && (phase == Some(Consuming) ==> Matches(h, d.envelope))
      && (phase.Some? ==> phase.value in {Errored, Settled, Consuming})
  {
    if Precheck(db, d, h).1.Some? {
      PrecheckRecords(db, d, h);
    }
  }

  lemma {:induction false} CheckEarnsPhase(t: Topology, s: Pipeline, tag: nat, fails: bool)
    requires DbSound(s.db, t.maxAttempts) && tag in s.workers && tag in DoCheck(t, s, tag, fails).workers
    ensures var s' := DoCheck(t, s, tag, fails); s'.workers[tag] == s.workers[tag] || PhaseEarned(t, s'.db, s'.workers[tag])
  {
    hide DbSound, Recorded, Checked, Matches, DeadLetterCopy;
    var d := s.workers[tag].delivery;
    if d.consumer in t.handlers {
      CheckedEarns(t, s.db, d, t.handlers[d.consumer], fails);
    }
  }

  lemma {:induction false} TransactEarnsPhase(t: Topology, s: Pipeline, tag: nat, run: HandlerRun, reported: bool)
    requires tag in s.workers
    ensures var s' := DoTransact(t, s, tag, run, reported); s'.workers[tag] == s.workers[tag] || PhaseEarned(t, s'.db, s'.workers[tag])
  {
    var d := s.workers[tag].delivery;
    if s.workers[tag].phase == Consuming && d.consumer in t.handlers {
      if !InboxTransaction(s.db, d, t.handlers[d.consumer], run).1.Thrown? {
        TransactionRecords(s.db, d, t.handlers[d.consumer], run);
      }
      hide Recorded, InboxTransaction;
    }
  }

  lemma {:induction false} StepEarnsPhase(t: Topology, s: Pipeline, step: Step, tag: nat)
    requires DbSound(s.db, t.maxAttempts) && tag in s.workers && tag in Apply(t, s, step).workers && !step.Deliver?
    ensures var s' := Apply(t, s, step); s'.workers[tag] == s.workers[tag] || PhaseEarned(t, s'.db, s'.workers[tag])
  {
    hide Apply, PhaseEarned, DbSound, SameOutbox, DoCheck, DoTransact;
    StepKeepsDeliveries(t, s, step);
    if step.Check? {
      CheckIs(t, s, step.tag, step.fails);
      if step.tag == tag { CheckEarnsPhase(t, s, tag, step.fails); }
    } else if step.Transact? {
      TransactIs(t, s, step.tag, step.run, step.reported);
      if step.tag == tag { TransactEarnsPhase(t, s, tag, step.run, step.reported); }
    } else if RetryStep(step) {
      RetryStepsEffect(t, s, step);
      FreePhaseIsEarned(t, Apply(t, s, step).db, Apply(t, s, step).workers[tag]);
    }
  }

  lemma {:induction false} FreePhaseIsEarned(t: Topology, db: Store, w: Worker)
    ensures w.phase != Consuming && w.phase != Settled ==> PhaseEarned(t, db, w)
  {
  }

  lemma {:induction false} DeliveredWorkerSound(t: Topology, s: Pipeline, step: Step, tag: nat)
    requires step.Deliver? && Numbered(s) && tag in Apply(t, s, step).workers
    ensures tag in s.workers ==> Apply(t, s, step).workers[tag] == s.workers[tag]
    ensures tag !in s.workers ==> WorkerSound(t, Apply(t, s, step).db, Apply(t, s, step).copies, Apply(t, s, step).workers[tag])
  {
    hide Apply, Recorded, Admits;
    if Apply(t, s, step) != s {
      DeliverCases(t, s, step);
    }
  }

  lemma {:induction false} PhaseKeepsWorkerSound(t: Topology, db: Store, copies: map<nat, Copy>, w: Worker, w': Worker)
    requires w' == w.(phase := w'.phase) && WorkerSound(t, db, copies, w.(phase := Errored)) && PhaseEarned(t, db, w')
    ensures WorkerSound(t, db, copies, w')
  {
  }

  lemma {:induction false} ErroredStaysSound(t: Topology, db: Store, copies: map<nat, Copy>, w: Worker)
    requires WorkerSound(t, db, copies, w)
    ensures WorkerSound(t, db, copies, w.(phase := Errored))
  {
  }

  lemma {:induction false} StepKeepsWorkers(t: Topology, s: Pipeline, step: Step)
    requires ValidTopology(t) && DbSound(s.db, t.maxAttempts) && PublicationsSound(s) && Numbered(s) && WorkersSound(t, s)
    ensures WorkersSound(t, Apply(t, s, step))
  {
    hide Apply, WorkerSound, DbSound, PublicationsSound, PhaseEarned, Advances, ContentKept;
    var s' := Apply(t, s, step);
    StepKeepsDb(t, s, step);
    StepKeepsNumbers(t, s, step);
    forall tag | tag in s'.workers ensures WorkerSound(t, s'.db, s'.copies, s'.workers[tag]) {
      if step.Deliver? {
        DeliveredWorkerSound(t, s, step, tag);
      } else {
        StepKeepsDeliveries(t, s, step);
      }
      if tag in s.workers {
        var w, w' := s.workers[tag], s'.workers[tag];
        WorkerStaysSound(t, s, s', w);
        if w' != w {
          StepEarnsPhase(t, s, step, tag);
          ErroredStaysSound(t, s'.db, s'.copies, w);
          PhaseKeepsWorkerSound(t, s'.db, s'.copies, w, w');
        }
      }
    }
  }

  // ---------------------------------------------------------- confirm channels

  lemma {:induction false} PortIsLinked(s: Pipeline, line: Line)
    requires PortsLinked(s.ports, s.wire)
    ensures PortLinked(PortOf(s, line), s.wire, line)
  {
  }

  // One channel changes, and on the wire only what belongs to it.
  lemma {:induction false} PortReplaced(ports: map<Line, CP.Port>, wire: map<Key, Passage>, line: Line, port: CP.Port, wire': map<Key, Passage>)
    requires PortsLinked(ports, wire) && PortLinked(port, wire', line)
    requires forall k: Key :: k.line != line ==> (k in wire' <==> k in wire) && (k in wire ==> wire'[k] == wire[k])
    ensures PortsLinked(ports[line := port], wire')
  {
    hide CP.InOrder;
    forall other | other in ports && other != line ensures PortLinked(ports[other], wire', other) {
      assert PortLinked(ports[other], wire, other);
      assert forall o :: o in ports[other].operations ==> OpLinked(wire, other, o);
    }
  }

  lemma {:induction false} PostKeepsLinks(s: Pipeline, line: Line, cargo: Cargo, writable: bool)
    requires PortsLinked(s.ports, s.wire) && Takes(PortOf(s, line), false) && (cargo.Original? <==> line.Outgoing?)
    ensures PortsLinked(Post(s, line, cargo, writable).ports, Post(s, line, cargo, writable).wire)
  {
    var port, s' := PortOf(s, line), Post(s, line, cargo, writable);
    PortIsLinked(s, line);
    CP.AfterPublish(port, CargoId(cargo), writable, false);
    forall o | o in s'.ports[line].operations ensures OpLinked(s'.wire, line, o) {
      assert o in port.operations ==> OpLinked(s.wire, line, o);
    }
    hide PortsLinked, CP.InOrder, OpLinked;
    PortReplaced(s.ports, s.wire, line, s'.ports[line], s'.wire);
  }

  lemma {:induction false} WaitKeepsLinks(s: Pipeline, line: Line)
    requires PortsLinked(s.ports, s.wire)
    ensures PortsLinked(s.ports[line := Wait(PortOf(s, line)).0], s.wire)
  {
    var port := PortOf(s, line);
    PortIsLinked(s, line);
    CP.AfterClaim(port);
    var next := CP.NextClaim(port);
    if next.Some? {
      CP.AfterResume(CP.DoClaim(port), next.value);
    }
    var port' := Wait(port).0;
    hide CP.DoClaim, CP.DoResume, CP.NextClaim;
    forall o | o in port'.operations ensures OpLinked(s.wire, line, o) {
      assert o in port.operations || o.(claimed := false) in port.operations;
    }
    hide PortsLinked, CP.InOrder, OpLinked;
    PortReplaced(s.ports, s.wire, line, port', s.wire);
  }

  // The publication an answer is about was taken from the queue, and was routed
  // unless it was returned.
  lemma {:induction false} TakenIsLinked(s: Pipeline, line: Line, ticket: nat, id: Uuid)
    requires PortsLinked(s.ports, s.wire) && Taken(PortOf(s, line), ticket, id).Some?
    ensures var o := Taken(PortOf(s, line), ticket, id).value;
      && o in PortOf(s, line).operations && OpLinked(s.wire, line, o) && o.messageId == id && o.claimed
      && (!o.returned ==> s.wire[Key(line, o.ticket)].stage == Routed)
  {
    PortIsLinked(s, line);
    var port := PortOf(s, line);
    var o := Taken(port, ticket, id).value;
    assert o in port.operations;
    assert CP.Takeable(id)(o);
  }

  lemma {:induction false} TakenStaysLinked(port: CP.Port, wire: map<Key, Passage>, line: Line, id: Uuid)
    requires PortLinked(port, wire, line) && CP.TakeIndex(port, id) < |port.operations|
    ensures PortLinked(CP.DoTake(port, id).0, wire - {Key(line, port.operations[CP.TakeIndex(port, id)].ticket)}, line)
  {
    hide CP.DoTake, CP.TakeIndex, CP.InOrder;
    CP.AfterTake(port, id);
    var after, wire' := CP.DoTake(port, id).0, wire - {Key(line, port.operations[CP.TakeIndex(port, id)].ticket)};
    forall o | o in after.operations ensures OpLinked(wire', line, o) {
      assert OpLinked(wire, line, o);
    }
  }

  lemma {:induction false} AskKeepsLinks(s: Pipeline, line: Line, ticket: nat, id: Uuid)
    requires PortsLinked(s.ports, s.wire)
    ensures PortsLinked(Ask(s, line, ticket, id).ports, Ask(s, line, ticket, id).wire)
  {
    PortIsLinked(s, line);
    hide PortLinked, CP.DoTake, CP.TakeIndex, PortOf;
    var port, s' := PortOf(s, line), Ask(s, line, ticket, id);
    if Taken(port, ticket, id).Some? {
      TakenStaysLinked(port, s.wire, line, id);
      PortReplaced(s.ports, s.wire, line, s'.ports[line], s'.wire);
    }
  }

  lemma {:induction false} RoutedStaysLinked(port: CP.Port, wire: map<Key, Passage>, key: Key)
    requires PortLinked(port, wire, key.line) && key in wire && wire[key].stage == Sent
    ensures PortLinked(port, wire[key := wire[key].(stage := Routed)], key.line)
  {
    hide CP.InOrder;
    forall o | o in port.operations ensures OpLinked(wire[key := wire[key].(stage := Routed)], key.line, o) {
      assert OpLinked(wire, key.line, o);
    }
  }

  lemma {:induction false} AcceptOnWire(t: Topology, s: Pipeline, key: Key)
    ensures var s' := DoAccept(t, s, key);
      s'.ports == s.ports && (s'.wire == s.wire || (key in s.wire && s.wire[key].stage == Sent && s'.wire == s.wire[key := s.wire[key].(stage := Routed)]))
  {
    hide Routable, Enqueued;
  }

  lemma {:induction false} AcceptKeepsLinks(t: Topology, s: Pipeline, key: Key)
    requires PortsLinked(s.ports, s.wire)
    ensures PortsLinked(DoAccept(t, s, key).ports, DoAccept(t, s, key).wire)
  {
    AcceptOnWire(t, s, key);
    PortIsLinked(s, key.line);
    hide PortLinked, DoAccept;
    var s' := DoAccept(t, s, key);
    if s'.wire != s.wire {
      var port := PortOf(s, key.line);
      RoutedStaysLinked(port, s.wire, key);
      assert s.ports[key.line := port] == s.ports;
      PortReplaced(s.ports, s.wire, key.line, port, s'.wire);
    }
  }

  lemma {:induction false} ReturnedStaysLinked(port: CP.Port, wire: map<Key, Passage>, key: Key)
    requires PortLinked(port, wire, key.line) && key in wire && wire[key].stage == Sent
    ensures PortLinked(CP.DoReturned(port, key.ticket), wire[key := wire[key].(stage := Returned)], key.line)
  {
    hide CP.InOrder, CP.DoReturned;
    CP.AfterReturned(port, key.ticket);
    var wire' := wire[key := wire[key].(stage := Returned)];
    forall o | o in CP.DoReturned(port, key.ticket).operations ensures OpLinked(wire', key.line, o) {
      assert o in port.operations || o.(returned := false) in port.operations;
    }
  }

  lemma {:induction false} ReturnKeepsLinks(t: Topology, s: Pipeline, key: Key)
    requires PortsLinked(s.ports, s.wire)
    ensures PortsLinked(DoReturn(t, s, key).ports, DoReturn(t, s, key).wire)
  {
    hide PortLinked, Bound, CP.DoReturned;
    var port, s' := PortOf(s, key.line), DoReturn(t, s, key);
    if s'.wire != s.wire {
      PortIsLinked(s, key.line);
      ReturnedStaysLinked(port, s.wire, key);
      PortReplaced(s.ports, s.wire, key.line, s'.ports[key.line], s'.wire);
    }
  }

  lemma {:induction false} AnswerStaysLinked(port: CP.Port, wire: map<Key, Passage>, key: Key, refused: bool)
    requires PortLinked(port, wire, key.line) && key in wire && (refused || wire[key].stage != Sent)
    ensures PortLinked(Answer(port, key.ticket, refused), wire, key.line)
  {
    hide CP.InOrder, CP.DoSettled, CP.DoResume;
    CP.AfterSettled(port, key.ticket, refused);
    if refused {
      CP.AfterResume(CP.DoSettled(port, key.ticket, true), key.ticket);
    }
    forall o | o in Answer(port, key.ticket, refused).operations ensures OpLinked(wire, key.line, o) {
      assert o in port.operations || o.(status := CP.Waiting) in port.operations;
    }
  }

  lemma {:induction false} SettleKeepsLinks(s: Pipeline, key: Key, refused: bool)
    requires PortsLinked(s.ports, s.wire)
    ensures PortsLinked(DoSettle(s, key, refused).ports, s.wire) && DoSettle(s, key, refused).wire == s.wire
  {
    hide PortLinked, Answer;
    var port, s' := PortOf(s, key.line), DoSettle(s, key, refused);
    if s' != s {
      PortIsLinked(s, key.line);
      AnswerStaysLinked(port, s.wire, key, refused);
      PortReplaced(s.ports, s.wire, key.line, s'.ports[key.line], s.wire);
    }
  }

  lemma {:induction false} ChannelEventKeepsLinks(s: Pipeline, line: Line)
    requires PortsLinked(s.ports, s.wire)
    ensures PortsLinked(DoDrained(s, line).ports, s.wire) && PortsLinked(DoChannelFails(s, line).ports, s.wire)
  {
    var port := PortOf(s, line);
    PortIsLinked(s, line);
    CP.AfterFail(port);
    var drained, failed := CP.Apply(port, CP.Drained), CP.DoFail(port);
    assert PortLinked(drained, s.wire, line) && PortLinked(failed, s.wire, line) by {
      hide OpLinked, CP.DoFail;
    }
    hide PortsLinked, PortLinked;
    PortReplaced(s.ports, s.wire, line, drained, s.wire);
    PortReplaced(s.ports, s.wire, line, failed, s.wire);
  }

  // The steps that reach a confirm channel or the wire behind it.
  predicate ChannelStep(step: Step) {
    || step.Send? || step.Await? || step.Learn? || step.Accept? || step.Return? || step.Settle?
    || step.Drained? || step.ChannelFails? || step.Recover? || step.AwaitRetry? || step.LearnRetry?
  }

  lemma {:induction false} DeliveriesLeaveChannels(t: Topology, s: Pipeline, step: Step)
    requires step.GiveUp? || step.Inject? || step.Deliver? || step.DelayOver? || step.ConnectionLost?
    ensures Apply(t, s, step).ports == s.ports && Apply(t, s, step).wire == s.wire
  {
    hide Serves, Admits;
  }

  lemma {:induction false} CheckingLeavesChannels(t: Topology, s: Pipeline, tag: nat, fails: bool)
    ensures DoCheck(t, s, tag, fails).ports == s.ports && DoCheck(t, s, tag, fails).wire == s.wire
  {
    hide Checked, DeadLetterCopy;
    DeadLetterMovesOneCopy(s, tag);
  }

  lemma {:induction false} TransactingLeavesChannels(t: Topology, s: Pipeline, tag: nat, run: HandlerRun, reported: bool)
    ensures DoTransact(t, s, tag, run, reported).ports == s.ports && DoTransact(t, s, tag, run, reported).wire == s.wire
  {
    hide InboxTransaction;
  }

  lemma {:induction false} WorkersLeaveChannels(t: Topology, s: Pipeline, step: Step)
    requires step.Check? || step.Transact? || step.Ack? || step.AckThrows? || step.WorkerCrash?
    ensures Apply(t, s, step).ports == s.ports && Apply(t, s, step).wire == s.wire
  {
    if step.Check? {
      hide Apply, DoCheck;
      CheckIs(t, s, step.tag, step.fails);
      CheckingLeavesChannels(t, s, step.tag, step.fails);
    } else if step.Transact? {
      hide Apply, DoTransact;
      TransactIs(t, s, step.tag, step.run, step.reported);
      TransactingLeavesChannels(t, s, step.tag, step.run, step.reported);
    } else {
      hide DoAck, FailWorker;
      LeavingLeavesChannels(s, step.tag);
    }
  }

  lemma {:induction false} LeavingLeavesChannels(s: Pipeline, tag: nat)
    ensures DoAck(s, tag).ports == s.ports && DoAck(s, tag).wire == s.wire
    ensures FailWorker(s, tag).ports == s.ports && FailWorker(s, tag).wire == s.wire
  {
  }

  lemma {:induction false} OtherStepsLeaveChannels(t: Topology, s: Pipeline, step: Step)
    requires !ChannelStep(step)
    ensures Apply(t, s, step).ports == s.ports && Apply(t, s, step).wire == s.wire
  {
    hide Apply, SameQueues;
    if ClientStep(step) || step.Claim? || step.MarkDone? || step.MarkFailed? || step.PublisherCrash? {
      ClientsLeaveBroker(t, s, step);
    } else if step.Check? || step.Transact? || step.Ack? || step.AckThrows? || step.WorkerCrash? {
      WorkersLeaveChannels(t, s, step);
    } else {
      DeliveriesLeaveChannels(t, s, step);
    }
  }

  ghost predicate Linked(s: Pipeline) { PortsLinked(s.ports, s.wire) }

  lemma {:induction false} SendKeepsLinks(t: Topology, s: Pipeline, token: Token, publisher: nat, writable: bool, throws: bool)
    requires Linked(s)
    ensures Linked(DoSend(t, s, token, publisher, writable, throws))
  {
    hide PortsLinked, Post, PortOf;
    if token in s.publications && Takes(PortOf(s, Outgoing(publisher)), throws) {
      PostKeepsLinks(s, Outgoing(publisher), Original(s.publications[token].row.envelope), writable);
    }
  }

  lemma {:induction false} RecoverKeepsLinks(t: Topology, s: Pipeline, tag: nat, retryable: bool, writable: bool, throws: bool)
    requires Linked(s) && WorkersSound(t, s)
    ensures Linked(DoRecover(t, s, tag, retryable, writable, throws))
  {
    hide PortsLinked, Post, PortOf, WillRetry, CanResend, Recorded;
    if tag in s.workers && Takes(PortOf(s, s.workers[tag].line), throws) {
      assert WorkerSound(t, s.db, s.copies, s.workers[tag]);
      PostKeepsLinks(s, s.workers[tag].line, Again(NextTry(s.workers[tag])), writable);
    }
  }

  lemma {:induction false} WaitingKeepsLinks(s: Pipeline, token: Token, tag: nat)
    requires Linked(s)
    ensures Linked(DoAwait(s, token)) && Linked(DoAwaitRetry(s, tag))
  {
    hide PortsLinked, Wait, PortOf;
    if token in s.publications && s.publications[token].phase.Sending? {
      WaitKeepsLinks(s, Outgoing(s.publications[token].phase.publisher));
    }
    if tag in s.workers {
      WaitKeepsLinks(s, s.workers[tag].line);
    }
  }

  lemma {:induction false} AskingKeepsLinks(s: Pipeline, token: Token, tag: nat)
    requires Linked(s)
    ensures Linked(DoLearn(s, token)) && Linked(DoLearnRetry(s, tag))
  {
    hide PortsLinked, Ask, PortOf, Answered, ToldRouted;
    if token in s.publications && s.publications[token].phase.Awaiting? {
      var phase := s.publications[token].phase;
      AskKeepsLinks(s, Outgoing(phase.publisher), phase.ticket, s.publications[token].row.envelope.messageId);
    }
    if tag in s.workers && s.workers[tag].phase.RetryAwaited? {
      AskKeepsLinks(s, s.workers[tag].line, s.workers[tag].phase.ticket, s.workers[tag].delivery.envelope.messageId);
    }
  }

  lemma {:induction false} AskersKeepLinks(t: Topology, s: Pipeline, step: Step)
    requires Linked(s) && WorkersSound(t, s)
    requires step.Send? || step.Await? || step.Learn? || step.Recover? || step.AwaitRetry? || step.LearnRetry?
    ensures Linked(Apply(t, s, step))
  {
    hide Linked, WorkersSound, DoSend, DoAwait, DoLearn, DoRecover, DoAwaitRetry, DoLearnRetry;
    match step
    case Send(token, publisher, writable, throws) => SendKeepsLinks(t, s, token, publisher, writable, throws);
    case Await(token) => WaitingKeepsLinks(s, token, 0);
    case Learn(token) => AskingKeepsLinks(s, token, 0);
    case Recover(tag, retryable, writable, throws) => RecoverKeepsLinks(t, s, tag, retryable, writable, throws);
    case AwaitRetry(tag) => WaitingKeepsLinks(s, 0, tag);
    case LearnRetry(tag) => AskingKeepsLinks(s, 0, tag);
  }

  lemma {:induction false} BrokerKeepsLinks(t: Topology, s: Pipeline, step: Step)
    requires Linked(s) && (step.Accept? || ChannelEvent(step))
    ensures Linked(Apply(t, s, step))
  {
    hide PortsLinked, DoAccept, DoReturn, DoSettle, DoDrained, DoChannelFails;
    match step
    case Accept(key) => AcceptKeepsLinks(t, s, key);
    case Return(key) => ReturnKeepsLinks(t, s, key);
    case Settle(key, refused) => SettleKeepsLinks(s, key, refused);
    case Drained(line) => ChannelEventKeepsLinks(s, line); ChannelEventsLeaveWire(s, line);
    case ChannelFails(line) => ChannelEventKeepsLinks(s, line); ChannelEventsLeaveWire(s, line);
  }

  lemma {:induction false} StepKeepsLinks(t: Topology, s: Pipeline, step: Step)
    requires Linked(s) && WorkersSound(t, s)
    ensures Linked(Apply(t, s, step))
  {
    hide Apply, WorkersSound, PortsLinked;
    if !ChannelStep(step) {
      OtherStepsLeaveChannels(t, s, step);
    } else if step.Accept? || ChannelEvent(step) {
      BrokerKeepsLinks(t, s, step);
    } else {
      AskersKeepLinks(t, s, step);
    }
  }

  lemma {:induction false} ChannelEventsLeaveWire(s: Pipeline, line: Line)
    ensures DoDrained(s, line).wire == s.wire && DoChannelFails(s, line).wire == s.wire
  {
  }

  // What a step adds to the wire, or does with what was there.
  ghost predicate WireKept(s: Pipeline, s': Pipeline) {
    forall k :: k in s'.wire ==> k in s.wire && s'.wire[k].cargo == s.wire[k].cargo
  }

  ghost predicate WirePosted(s: Pipeline, s': Pipeline, line: Line, cargo: Cargo) {
    && Key(line, PortOf(s, line).nextTicket) !in s.wire
    && s'.wire == s.wire[Key(line, PortOf(s, line).nextTicket) := Passage(cargo, Sent)]
  }

  lemma {:induction false} PostAddsToWire(s: Pipeline, line: Line, cargo: Cargo, writable: bool)
    requires Linked(s)
    ensures WirePosted(s, Post(s, line, cargo, writable), line, cargo)
  {
    hide CP.InOrder, OpLinked;
    PortIsLinked(s, line);
  }

  lemma {:induction false} SendAddsToWire(t: Topology, s: Pipeline, step: Step)
    requires Linked(s) && step.Send?
    ensures
      || Apply(t, s, step).wire == s.wire
      || (step.token in s.publications && WirePosted(s, Apply(t, s, step), Outgoing(step.publisher), Original(s.publications[step.token].row.envelope)))
  {
    hide Post, Linked, PortOf;
    if step.token in s.publications {
      PostAddsToWire(s, Outgoing(step.publisher), Original(s.publications[step.token].row.envelope), step.writable);
    }
  }

  lemma {:induction false} RecoverOnWire(t: Topology, s: Pipeline, tag: nat, retryable: bool, writable: bool, throws: bool)
    ensures var s' := DoRecover(t, s, tag, retryable, writable, throws);
      || s'.wire == s.wire
      || (tag in s.workers && WillResend(t, s.workers[tag], retryable) && s'.wire == Post(s, s.workers[tag].line, Again(NextTry(s.workers[tag])), writable).wire)
  {
    hide WillRetry, CanResend, Takes, PortOf, Post, DeadLetterCopy;
    DeadLetterMovesOneCopy(s, tag);
  }

  lemma {:induction false} RecoverAddsToWire(t: Topology, s: Pipeline, step: Step)
    requires Linked(s) && step.Recover?
    ensures
      || Apply(t, s, step).wire == s.wire
      || (step.tag in s.workers && WillResend(t, s.workers[step.tag], step.retryable)
          && WirePosted(s, Apply(t, s, step), s.workers[step.tag].line, Again(NextTry(s.workers[step.tag]))))
  {
    hide Apply, DoRecover, Post, Linked, PortOf, WillRetry, CanResend;
    RecoverIs(t, s, step.tag, step.retryable, step.writable, step.throws);
    RecoverOnWire(t, s, step.tag, step.retryable, step.writable, step.throws);
    if step.tag in s.workers {
      PostAddsToWire(s, s.workers[step.tag].line, Again(NextTry(s.workers[step.tag])), step.writable);
    }
  }

  lemma {:induction false} AcceptKeepsWire(t: Topology, s: Pipeline, key: Key)
    ensures WireKept(s, DoAccept(t, s, key))
  {
    AcceptOnWire(t, s, key);
    hide DoAccept;
  }

  lemma {:induction false} ChannelEventKeepsWire(t: Topology, s: Pipeline, step: Step)
    requires ChannelEvent(step)
    ensures WireKept(s, Apply(t, s, step))
  {
    hide WireKept, DoReturn, DoSettle, DoDrained, DoChannelFails;
    match step
    case Return(key) => ReturnKeepsWire(t, s, key);
    case Settle(key, refused) => AnsweringLeavesWire(s, key, refused); SameWireIsKept(s, DoSettle(s, key, refused));
    case Drained(line) => ChannelEventsLeaveWire(s, line); SameWireIsKept(s, DoDrained(s, line));
    case ChannelFails(line) => ChannelEventsLeaveWire(s, line); SameWireIsKept(s, DoChannelFails(s, line));
  }

  lemma {:induction false} ReturnKeepsWire(t: Topology, s: Pipeline, key: Key)
    ensures WireKept(s, DoReturn(t, s, key))
  {
    hide PortOf, Bound, CP.DoReturned;
  }

  lemma {:induction false} AnsweringLeavesWire(s: Pipeline, key: Key, refused: bool)
    ensures DoSettle(s, key, refused).wire == s.wire
  {
    hide PortOf, Answer;
  }

  lemma {:induction false} AskKeepsWire(s: Pipeline, line: Line, ticket: nat, id: Uuid)
    ensures WireKept(s, Ask(s, line, ticket, id))
  {
  }

  lemma {:induction false} LearnersKeepWire(s: Pipeline, token: Token, tag: nat)
    ensures WireKept(s, DoLearn(s, token)) && WireKept(s, DoLearnRetry(s, tag))
  {
    hide WireKept, Ask, PortOf, Answered, ToldRouted;
    SameWireIsKept(s, s);
    if token in s.publications && s.publications[token].phase.Awaiting? {
      var phase, id := s.publications[token].phase, s.publications[token].row.envelope.messageId;
      AskKeepsWire(s, Outgoing(phase.publisher), phase.ticket, id);
      SameWireIsKept(s, DoLearn(s, token));
    }
    if tag in s.workers && s.workers[tag].phase.RetryAwaited? {
      var w := s.workers[tag];
      AskKeepsWire(s, w.line, w.phase.ticket, w.delivery.envelope.messageId);
      SameWireIsKept(s, DoLearnRetry(s, tag));
    }
  }

  lemma {:induction false} AskersKeepWire(t: Topology, s: Pipeline, step: Step)
    requires step.Await? || step.AwaitRetry? || step.Learn? || step.LearnRetry?
    ensures WireKept(s, Apply(t, s, step))
  {
    hide WireKept, DoAwait, DoAwaitRetry, DoLearn, DoLearnRetry, SendingEffect, RetryEffect, SameQueues, NoneTold;
    SameWireIsKept(s, Apply(t, s, step));
    match step
    case Await(token) => AwaitEffect(s, token);
    case AwaitRetry(tag) => AwaitRetryEffect(s, tag);
    case Learn(token) => LearnersKeepWire(s, token, 0);
    case LearnRetry(tag) => LearnersKeepWire(s, 0, tag);
  }

  lemma {:induction false} SameWireIsKept(s: Pipeline, s': Pipeline)
    ensures s'.wire == s.wire ==> WireKept(s, s')
    ensures forall a: Pipeline :: a.wire == s'.wire && WireKept(s, a) ==> WireKept(s, s')
  {
  }

  lemma {:induction false} AcceptIs(t: Topology, s: Pipeline, key: Key)
    ensures Apply(t, s, Accept(key)) == DoAccept(t, s, key)
  {
  }

  lemma {:induction false} OtherStepsKeepWire(t: Topology, s: Pipeline, step: Step)
    requires !step.Send? && !step.Recover?
    ensures WireKept(s, Apply(t, s, step))
  {
    hide Apply, WireKept;
    if !ChannelStep(step) {
      OtherStepsLeaveChannels(t, s, step);
      SameWireIsKept(s, Apply(t, s, step));
    } else if step.Accept? {
      AcceptKeepsWire(t, s, step.key);
      AcceptIs(t, s, step.key);
    } else if ChannelEvent(step) {
      ChannelEventKeepsWire(t, s, step);
    } else {
      AskersKeepWire(t, s, step);
    }
  }

  lemma {:induction false} CargoStaysSound(wire: map<Key, Passage>, db: Store, after: Store)
    requires CargoSound(wire, db.outbox) && Advances(db, after)
    ensures CargoSound(wire, after.outbox)
  {
  }

  lemma {:induction false} KeptCargoIsSound(s: Pipeline, s': Pipeline, outbox: map<Uuid, OutboxRow>)
    requires CargoSound(s.wire, outbox) && WireKept(s, s')
    ensures CargoSound(s'.wire, outbox)
  {
  }

  lemma {:induction false} PostedCargoIsSound(s: Pipeline, s': Pipeline, line: Line, cargo: Cargo, outbox: map<Uuid, OutboxRow>)
    requires CargoSound(s.wire, outbox) && WirePosted(s, s', line, cargo)
    requires cargo.Original? ==> cargo.envelope.messageId in outbox && outbox[cargo.envelope.messageId].envelope == cargo.envelope
    ensures CargoSound(s'.wire, outbox)
  {
    hide PortOf;
  }

  lemma {:induction false} StepKeepsCargo(t: Topology, s: Pipeline, step: Step)
    requires ValidTopology(t) && Inv(t, s)
    ensures CargoSound(Apply(t, s, step).wire, Apply(t, s, step).db.outbox)
  {
    hide Apply, DbSound, ClaimsLatest, Numbered, WorkersSound, PortsLinked, ValidTopology, CargoSound, WireKept, WirePosted, WillRetry, CanResend;
    var s' := Apply(t, s, step);
    StepKeepsDb(t, s, step);
    CargoStaysSound(s.wire, s.db, s'.db);
    assert Linked(s);
    if step.Send? {
      SendAddsToWire(t, s, step);
      if s'.wire != s.wire {
        SendingStepsEffect(t, s, step);
        PostedCargoIsSound(s, s', Outgoing(step.publisher), Original(s.publications[step.token].row.envelope), s'.db.outbox);
      }
    } else if step.Recover? {
      RecoverAddsToWire(t, s, step);
      if s'.wire != s.wire {
        PostedCargoIsSound(s, s', s.workers[step.tag].line, Again(NextTry(s.workers[step.tag])), s'.db.outbox);
      }
    } else {
      OtherStepsKeepWire(t, s, step);
      KeptCargoIsSound(s, s', s'.db.outbox);
    }
  }

  // ------------------------------------------------------------ the invariant

  lemma {:induction false} StepKeepsInv(t: Topology, s: Pipeline, step: Step)
    requires ValidTopology(t) && Inv(t, s)
    ensures Inv(t, Apply(t, s, step))
  {
    StepKeepsDb(t, s, step);
    StepKeepsClaims(t, s, step);
    StepKeepsNumbers(t, s, step);
    StepKeepsWorkers(t, s, step);
    StepKeepsLinks(t, s, step);
    StepKeepsCargo(t, s, step);
    hide Apply, DbSound, PublicationsSound, ClaimsLatest, Numbered, WorkersSound, PortsLinked, CargoSound, Advances;
  }

  lemma {:induction false} InvParts(t: Topology, s: Pipeline)
    requires Inv(t, s)
    ensures Numbered(s) && WorkersSound(t, s) && PublicationsSound(s) && Linked(s) && CargoSound(s.wire, s.db.outbox)
    ensures DbSound(s.db, t.maxAttempts) && ClaimsLatest(s)
  {
  }

  lemma {:induction false} RunKeepsInv(t: Topology, s: Pipeline, steps: seq<Step>)
    requires ValidTopology(t) && Inv(t, s)
    ensures Inv(t, Run(t, s, steps))
    ensures Advances(s.db, Run(t, s, steps).db)
    decreases |steps|
  {
    hide Inv, Advances, Apply, ValidTopology;
    if steps != [] {
      var n := |steps| - 1;
      RunKeepsInv(t, s, steps[..n]);
      StepKeepsInv(t, Run(t, s, steps[..n]), steps[n]);
      InvStepAdvances(t, Run(t, s, steps[..n]), steps[n]);
      AdvancesTransitive(s.db, Run(t, s, steps[..n]).db, Run(t, s, steps).db);
    } else {
      AdvancesReflexive(s.db);
    }
  }

  lemma {:induction false} InvStepAdvances(t: Topology, s: Pipeline, step: Step)
    requires ValidTopology(t) && Inv(t, s)
    ensures Advances(s.db, Apply(t, s, step).db)
  {
    hide Apply, Advances;
    StepKeepsDb(t, s, step);
  }

  lemma {:induction false} RunSplits(t: Topology, s: Pipeline, a: seq<Step>, b: seq<Step>)
    ensures Run(t, s, a + b) == Run(t, Run(t, s, a), b)
    decreases |b|
  {
    hide Apply;
    if b == [] {
      assert a + b == a;
    } else {
      var n := |b| - 1;
      RunSplits(t, s, a, b[..n]);
      assert (a + b)[..|a + b| - 1] == a + b[..n];
      assert (a + b)[|a + b| - 1] == b[n];
    }
  }

  lemma {:induction false} OneStep(t: Topology, s: Pipeline, a: Step)
    ensures Run(t, s, [a]) == Apply(t, s, a)
  {
    hide Apply;
    assert [a][..0] == [];
    assert Run(t, s, []) == s;
  }

  lemma {:induction false} TwoSteps(t: Topology, s: Pipeline, a: Step, b: Step)
    ensures Run(t, s, [a, b]) == Apply(t, Apply(t, s, a), b)
  {
    hide Apply;
    RunSplits(t, s, [a], [b]);
    assert [a] + [b] == [a, b];
    OneStep(t, s, a);
    OneStep(t, Run(t, s, [a]), b);
  }

  lemma {:induction false} FourSteps(t: Topology, s: Pipeline, a: Step, b: Step, c: Step, d: Step)
    ensures Run(t, s, [a, b, c, d]) == Apply(t, Apply(t, Apply(t, Apply(t, s, a), b), c), d)
  {
    hide Apply;
    RunSplits(t, s, [a, b], [c, d]);
    assert [a, b] + [c, d] == [a, b, c, d];
    TwoSteps(t, s, a, b);
    TwoSteps(t, Run(t, s, [a, b]), c, d);
  }
}
