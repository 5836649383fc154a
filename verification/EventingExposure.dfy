// When a consumer can lose a message to another one behind its adapter, and that
// no message is lost otherwise.
module EventingExposure {
  import opened EventingModel
  import opened EventingInvariants
  import opened EventingPipeline
  import opened EventingGuarantees
  import opened EventingAccounts
  import opened EventingNoLoss
  import opened EventingSingleFile

  // ------------------------------------------------------------------ the condition

  predicate Served(t: Topology, consumer: string) {
    exists site: nat | site < |t.sites| :: Serves(t, site, consumer)
  }

  // A delivery of the message that fails at its consumer goes on to a retry layer.
  predicate SendsOn(t: Topology, e: Envelope, consumer: string, attempt: nat) {
    var policy := DeliveryPolicy(t.eventPolicy, e);
    attempt < policy.maxAttempts && Layered(t, policy, consumer, attempt) && Served(t, consumer)
  }

  // `a` sends the message on, and so does `b` should it get a copy by that.
  predicate Passes(t: Topology, e: Envelope, b: string, attempt: nat, a: string) {
    SendsOn(t, e, a, attempt) && (b in Reach(t, a) ==> SendsOn(t, e, b, attempt + 1))
  }

  // The consumers a message can come to on its n-th delivery without a copy coming
  // to `b` on the way that `b` cannot send on.
  function Holders(t: Topology, e: Envelope, b: string, attempt: nat): set<string> {
    if attempt == 0 then {}
    else if attempt == 1 then set c | c in Bound(t, e) && SendsOn(t, e, b, 1)
    else set a, c | a in Holders(t, e, b, attempt - 1) && Passes(t, e, b, attempt - 1, a) && c in Reach(t, a) :: c
  }

  // At this adapter the answer to a retry of `a`, whose key does not reach `b`,
  // may be told to `b`.
  predicate Overtakes(t: Topology, e: Envelope, b: string, attempt: nat, site: nat, a: string) {
    && SendsOn(t, e, a, attempt) && b !in Reach(t, a)
    && Serves(t, site, a) && Serves(t, site, b) && t.sites[site].concurrency >= 2
  }

  predicate Exposed(t: Topology, e: Envelope, b: string) {
    && b in Bound(t, e)
    && exists attempt: nat, site: nat, a | attempt < DeliveryPolicy(t.eventPolicy, e).maxAttempts && site < |t.sites| && a in Holders(t, e, b, attempt) ::
         Overtakes(t, e, b, attempt, site, a)
  }

  // ------------------------------------------------------------- retries in all runs

  predicate Sender(w: Worker) { Waits(w) || w.phase == Republished }

  ghost predicate RetrySound(t: Topology, c: Copy) {
    c.attempt >= 2 && SendsOn(t, c.envelope, c.consumer, c.attempt - 1)
  }

  ghost predicate PostSound(t: Topology, line: Line, c: Copy) {
    c.place == Delayed && RetrySound(t, c) && line.Retrying? && Serves(t, line.site, c.consumer)
  }

  // Whoever is about a retry may send one, and every retry was sent so.
  ghost predicate RetriesSound(t: Topology, s: Pipeline) {
    && (forall tag :: tag in s.workers && Sender(s.workers[tag]) ==>
          SendsOn(t, s.workers[tag].delivery.envelope, s.workers[tag].delivery.consumer, s.workers[tag].delivery.attempt))
    && (forall k :: k in s.wire && s.wire[k].cargo.Again? ==> PostSound(t, k.line, s.wire[k].cargo.copy))
    && (forall k :: k in s.copies && s.copies[k].place == Delayed ==> RetrySound(t, s.copies[k]))
  }

  // Who acknowledges `k`.
  predicate Acks(s: Pipeline, step: Step, k: nat) {
    && step.Ack? && Owns(s, step.tag) && s.workers[step.tag].copyId == k
    && (s.workers[step.tag].phase == Settled || s.workers[step.tag].phase == Republished)
  }

  // The same copy, in a retry layer if it was in one.
  predicate SameCopy(c: Copy, c': Copy) {
    c' == c.(place := c'.place) && (c.place == Delayed <==> c'.place == Delayed)
  }

  lemma {:induction false} DeadLetterKeepsCopy(s: Pipeline, tag: nat, k: nat)
    requires k in s.copies
    ensures k in DeadLetterCopy(s, tag).copies && SameCopy(s.copies[k], DeadLetterCopy(s, tag).copies[k])
  {
  }

  lemma {:induction false} AckKeepsCopy(s: Pipeline, tag: nat, k: nat)
    requires k in s.copies && !Acks(s, Ack(tag), k)
    ensures k in DoAck(s, tag).copies && DoAck(s, tag).copies[k] == s.copies[k]
  {
  }

  lemma {:induction false} CrashKeepsCopies(t: Topology, s: Pipeline, tag: nat)
    ensures Apply(t, s, WorkerCrash(tag)).copies == s.copies && Apply(t, s, AckThrows(tag)).copies == s.copies
  {
  }

  // Any other step of a worker at most dead-letters its own copy.
  lemma {:induction false} WorkersMoveOneCopy(t: Topology, s: Pipeline, step: Step)
    requires (step.Check? || step.Transact? || RetryStep(step)) && !step.Ack?
    ensures Apply(t, s, step).copies == s.copies || Apply(t, s, step).copies == DeadLetterCopy(s, step.tag).copies
  {
    hide Apply, DoCheck, DoTransact, DoRecover, DoAwaitRetry, DoLearnRetry, DeadLetterCopy, WorkerEffect, RetryEffect, NoneTold;
    match step
    case Check(tag, fails) => CheckIs(t, s, tag, fails); CheckMovesOneCopy(t, s, tag, fails);
    case Transact(tag, run, reported) => TransactIs(t, s, tag, run, reported); TransactEffect(t, s, tag, run, reported);
    case Recover(tag, retryable, writable, throws) => RecoverIs(t, s, tag, retryable, writable, throws); RecoverMovesOneCopy(t, s, tag, retryable, writable, throws);
    case AwaitRetry(tag) => RetryIs(t, s, tag); AwaitRetryEffect(s, tag);
    case LearnRetry(tag) => RetryIs(t, s, tag); LearnRetryEffect(s, tag);
    case AckThrows(tag) => CrashKeepsCopies(t, s, tag);
    case WorkerCrash(tag) => CrashKeepsCopies(t, s, tag);
  }

  lemma {:induction false} WorkersKeepCopy(t: Topology, s: Pipeline, step: Step, k: nat)
    requires k in s.copies && (step.Check? || step.Transact? || RetryStep(step)) && !Acks(s, step, k)
    ensures k in Apply(t, s, step).copies && SameCopy(s.copies[k], Apply(t, s, step).copies[k])
  {
    hide Apply, DeadLetterCopy, DoAck, Acks;
    if step.Ack? {
      AckIs(t, s, step.tag);
      AckKeepsCopy(s, step.tag, k);
    } else {
      WorkersMoveOneCopy(t, s, step);
      DeadLetterKeepsCopy(s, step.tag, k);
    }
  }

  lemma {:induction false} BrokerKeepsCopy(t: Topology, s: Pipeline, step: Step, k: nat)
    requires Numbered(s) && k in s.copies && (step.Inject? || step.Deliver? || step.Accept? || step.ConnectionLost? || step.DelayOver?)
    requires !(step.DelayOver? && step.copyId == k)
    ensures k in Apply(t, s, step).copies && SameCopy(s.copies[k], Apply(t, s, step).copies[k])
  {
    hide Serves, Admits, Bound, Reach;
  }

  lemma {:induction false} CopyStays(t: Topology, s: Pipeline, step: Step, k: nat)
    requires Numbered(s) && k in s.copies && !Acks(s, step, k) && !(step.DelayOver? && step.copyId == k)
    ensures k in Apply(t, s, step).copies && SameCopy(s.copies[k], Apply(t, s, step).copies[k])
  {
    hide Apply, Acks, Numbered, BrokerEffect;
    if ClientStep(step) || step.Claim? || step.MarkDone? || step.MarkFailed? || step.PublisherCrash? {
      ClientsLeaveBroker(t, s, step);
    } else if PublisherStep(step) {
      SendingStepsEffect(t, s, step);
    } else if ChannelEvent(step) {
      ChannelEventsEffect(t, s, step);
    } else if step.Check? || step.Transact? || RetryStep(step) {
      WorkersKeepCopy(t, s, step, k);
    } else {
      BrokerKeepsCopy(t, s, step, k);
    }
  }

  // Where a new copy comes from.
  lemma {:induction false} NewCopies(t: Topology, s: Pipeline, step: Step, k: nat)
    requires Numbered(s) && k in Apply(t, s, step).copies && k !in s.copies
    ensures step.Inject? || step.Accept? || step.DelayOver?
    ensures step.Inject? ==> Apply(t, s, step).copies[k].envelope == step.copy
    ensures step.Accept? ==> step.key in s.wire && DoAccept(t, s, step.key) != s && (s.wire[step.key].cargo.Again? ==> Apply(t, s, step).copies[k] == s.wire[step.key].cargo.copy)
    ensures step.Accept? && s.wire[step.key].cargo.Original? ==>
              var e := s.wire[step.key].cargo.envelope; var c := Apply(t, s, step).copies[k]; c == Copy(e, c.consumer, 1, Ready) && c.consumer in Bound(t, e)
    ensures step.DelayOver? ==> step.copyId in s.copies && s.copies[step.copyId].place == Delayed
    ensures step.DelayOver? ==>
              var was, c := s.copies[step.copyId], Apply(t, s, step).copies[k]; c == Copy(was.envelope, c.consumer, was.attempt, Ready) && c.consumer in Reach(t, was.consumer)
  {
    if !step.Inject? && !step.Accept? && !step.DelayOver? {
      StepKeepsNumbers(t, s, step);
      NumbersStay(t, s, step);
      hide Apply;
    } else {
      hide Bound, Reach;
    }
  }

  lemma {:induction false} NumbersStay(t: Topology, s: Pipeline, step: Step)
    requires !step.Inject? && !step.Accept? && !step.DelayOver?
    ensures Apply(t, s, step).nextCopy == s.nextCopy
  {
    hide Apply, WorkersKept, SameOutbox, StopsWith, BrokerEffect;
    if ClientStep(step) || step.Claim? || step.MarkDone? || step.MarkFailed? || step.PublisherCrash? {
      ClientsLeaveBroker(t, s, step);
    } else if PublisherStep(step) {
      SendingStepsEffect(t, s, step);
    } else if step.Deliver? {
      DeliverEffect(t, s, step);
    } else if ChannelEvent(step) {
      ChannelEventsEffect(t, s, step);
    } else if step.ConnectionLost? {
      RequeuingKeepsNumbers(t, s, step);
    } else {
      WorkersActInTurn(t, s, step);
    }
  }

  lemma {:induction false} RequeuingKeepsNumbers(t: Topology, s: Pipeline, step: Step)
    requires step.ConnectionLost?
    ensures Apply(t, s, step).nextCopy == s.nextCopy
  {
  }

  // A copy that was there stays as it was, but for its place.
  lemma {:induction false} OldCopies(t: Topology, s: Pipeline, step: Step, k: nat)
    requires Numbered(s) && k in Apply(t, s, step).copies && k in s.copies
    ensures SameCopy(s.copies[k], Apply(t, s, step).copies[k])
  {
    if step.DelayOver? && step.copyId == k {
      hide Reach;
    } else if step.Ack? && Acks(s, step, k) {
    } else {
      hide Apply, Numbered, Acks;
      CopyStays(t, s, step, k);
    }
  }

  lemma {:induction false} ResendingSendsOn(t: Topology, s: Pipeline, w: Worker, retryable: bool)
    requires WorkerSound(t, s.db, s.copies, w) && WillResend(t, w, retryable)
    ensures SendsOn(t, w.delivery.envelope, w.delivery.consumer, w.delivery.attempt)
    ensures PostSound(t, w.line, NextTry(w))
  {
    hide HasLayer, Recorded;
    assert Serves(t, w.line.site, w.delivery.consumer);
  }

  lemma {:induction false} SendersWereSenders(t: Topology, s: Pipeline, step: Step, tag: nat)
    requires Numbered(s) && tag in Apply(t, s, step).workers && Sender(Apply(t, s, step).workers[tag])
    ensures tag in s.workers && s.workers[tag].delivery == Apply(t, s, step).workers[tag].delivery
    ensures Sender(s.workers[tag]) || (step.Recover? && step.tag == tag && WillResend(t, s.workers[tag], step.retryable))
  {
    hide Apply, Numbered, WillRetry, CanResend, Serves, Admits, NoneTold;
    if Waits(Apply(t, s, step).workers[tag]) {
      WaiterWaited(t, s, step, tag);
    } else if step.Deliver? {
      RepublishedIsOld(t, s, step, tag);
    } else {
      StepKeepsDeliveries(t, s, step);
      if Apply(t, s, step).workers[tag] != s.workers[tag] {
        TellingSteps(t, s, step, tag);
      }
    }
  }

  lemma {:induction false} RepublishedIsOld(t: Topology, s: Pipeline, step: Step, tag: nat)
    requires Numbered(s) && step.Deliver? && tag in Apply(t, s, step).workers && Apply(t, s, step).workers[tag].phase == Republished
    ensures tag in s.workers && s.workers[tag] == Apply(t, s, step).workers[tag]
  {
    hide Apply, Serves, Admits;
    if Apply(t, s, step) != s {
      DeliverCases(t, s, step);
    }
  }

  // Only a worker that waited is told.
  lemma {:induction false} TellingSteps(t: Topology, s: Pipeline, step: Step, tag: nat)
    requires RetryStep(step) || step.Check? || step.Transact?
    requires step.tag == tag && tag in s.workers && tag in Apply(t, s, step).workers && Apply(t, s, step).workers[tag].phase == Republished
    ensures Sender(s.workers[tag])
  {
    hide DoCheck, DoTransact, RetryEffect, WorkerEffect, SameQueues, Apply, DoLearnRetry, NoneTold;
    if step.Check? {
      CheckIs(t, s, tag, step.fails);
      CheckEffect(t, s, tag, step.fails);
      NobodyTold(s, Apply(t, s, step), tag);
    } else if step.Transact? {
      TransactIs(t, s, tag, step.run, step.reported);
      TransactEffect(t, s, tag, step.run, step.reported);
      NobodyTold(s, Apply(t, s, step), tag);
    } else if step.LearnRetry? {
      RetryIs(t, s, tag);
      TellingIsAwaited(s, tag);
    } else {
      RetryStepsEffect(t, s, step);
      NobodyTold(s, Apply(t, s, step), tag);
    }
  }

  lemma {:induction false} NobodyTold(s: Pipeline, s': Pipeline, tag: nat)
    requires NoneTold(s.workers, s'.workers, tag) && tag in s'.workers && s'.workers[tag].phase == Republished
    ensures tag in s.workers && Sender(s.workers[tag])
  {
  }

  lemma {:induction false} TellingIsAwaited(s: Pipeline, tag: nat)
    requires tag in s.workers && tag in DoLearnRetry(s, tag).workers && DoLearnRetry(s, tag).workers[tag].phase == Republished
    ensures Sender(s.workers[tag])
  {
    hide PortOf, Answered, ToldRouted, Ask;
  }

  lemma {:induction false} StepKeepsRetriesSound(t: Topology, s: Pipeline, step: Step)
    requires Inv(t, s) && RetriesSound(t, s)
    ensures RetriesSound(t, Apply(t, s, step))
  {
    hide Apply, Inv, WillRetry, CanResend, SendsOn, Serves, PortOf, Sender, Recorded, DoAccept, Numbered, Linked, Reach, Bound;
    InvParts(t, s);
    var s' := Apply(t, s, step);
    forall tag | tag in s'.workers && Sender(s'.workers[tag])
      ensures SendsOn(t, s'.workers[tag].delivery.envelope, s'.workers[tag].delivery.consumer, s'.workers[tag].delivery.attempt)
    {
      SendersWereSenders(t, s, step, tag);
      if !Sender(s.workers[tag]) {
        ResendingSendsOn(t, s, s.workers[tag], step.retryable);
      }
    }
    forall k | k in s'.wire && s'.wire[k].cargo.Again? ensures PostSound(t, k.line, s'.wire[k].cargo.copy) {
      RetriesComeFrom(t, s, step, k);
      if k !in s.wire {
        ResendingSendsOn(t, s, s.workers[step.tag], step.retryable);
      }
    }
    forall k | k in s'.copies && s'.copies[k].place == Delayed ensures RetrySound(t, s'.copies[k]) {
      DelayedStaySound(t, s, step, k);
    }
  }

  lemma {:induction false} DelayedStaySound(t: Topology, s: Pipeline, step: Step, k: nat)
    requires Numbered(s) && RetriesSound(t, s) && k in Apply(t, s, step).copies && Apply(t, s, step).copies[k].place == Delayed
    ensures RetrySound(t, Apply(t, s, step).copies[k])
  {
    hide Apply, Numbered, SendsOn, Serves, Sender, DoAccept, Reach, Bound;
    if k in s.copies {
      OldCopies(t, s, step, k);
    } else {
      NewCopies(t, s, step, k);
      if step.Accept? && s.wire[step.key].cargo.Again? {
        assert PostSound(t, step.key.line, s.wire[step.key].cargo.copy);
      } else if step.Inject? {
        InjectedIsReady(t, s, step, k);
      }
    }
  }

  lemma {:induction false} InjectedIsReady(t: Topology, s: Pipeline, step: Step, k: nat)
    requires step.Inject? && k in Apply(t, s, step).copies && k !in s.copies
    ensures Apply(t, s, step).copies[k].place == Ready
  {
  }

  lemma {:induction false} RetriesComeFrom(t: Topology, s: Pipeline, step: Step, k: Key)
    requires Linked(s) && k in Apply(t, s, step).wire && Apply(t, s, step).wire[k].cargo.Again?
    ensures k in s.wire ==> s.wire[k].cargo == Apply(t, s, step).wire[k].cargo
    ensures k !in s.wire ==> step.Recover? && step.tag in s.workers && WillResend(t, s.workers[step.tag], step.retryable)
    ensures k !in s.wire ==> k.line == s.workers[step.tag].line && Apply(t, s, step).wire[k].cargo == Again(NextTry(s.workers[step.tag]))
  {
    hide Apply, Linked, PortOf, WillRetry, CanResend;
    if step.Send? {
      SendAddsToWire(t, s, step);
    } else if step.Recover? {
      RecoverAddsToWire(t, s, step);
    } else {
      OtherStepsKeepWire(t, s, step);
    }
  }

  // ------------------------------------------------------- a copy that has to stay

  // On record, or in a copy that the consumer cannot send on.
  ghost predicate Stuck(t: Topology, s: Pipeline, p: Pair) {
    || Recorded(s.db, p.envelope, p.consumer)
    || (exists k :: k in s.copies && StuckCopy(t, p, s.copies[k]))
  }

  predicate StuckCopy(t: Topology, p: Pair, c: Copy) {
    CountsFor(t, Account(p, true), c) && !SendsOn(t, p.envelope, p.consumer, c.attempt)
  }

  // An expired copy is followed by one at every consumer it counts for.
  lemma {:induction false} ExpiryReaches(t: Topology, s: Pipeline, k: nat, p: Pair)
    requires ValidTopology(t) && Numbered(s) && k in s.copies && s.copies[k].place == Delayed && CountsFor(t, Account(p, true), s.copies[k])
    ensures exists n :: n in DoExpire(t, s, k).copies && DoExpire(t, s, k).copies[n] == Copy(p.envelope, p.consumer, s.copies[k].attempt, Ready)
  {
    var c := s.copies[k];
    OwnKeyReaches(t, c.consumer);
    hide Reach, ValidTopology;
    var i :| 0 <= i < |Reach(t, c.consumer)| && Reach(t, c.consumer)[i] == p.consumer;
    assert DoExpire(t, s, k).copies[s.nextCopy + i] == Copy(c.envelope, p.consumer, c.attempt, Ready);
  }

  lemma {:induction false} ExpireIs(t: Topology, s: Pipeline, k: nat)
    ensures Apply(t, s, DelayOver(k)) == DoExpire(t, s, k)
  {
  }

  lemma {:induction false} StuckStays(t: Topology, s: Pipeline, step: Step, p: Pair)
    requires ValidTopology(t) && Inv(t, s) && RetriesSound(t, s) && Stuck(t, s, p)
    ensures Stuck(t, Apply(t, s, step), p)
  {
    hide Apply, Inv, ValidTopology, Recorded, SendsOn, CountsFor, Numbered, Reach, DoExpire, Advances, PostSound, RetrySound;
    var s' := Apply(t, s, step);
    InvParts(t, s);
    InvStepAdvances(t, s, step);
    if Recorded(s.db, p.envelope, p.consumer) {
      RecordedStays(s.db, s'.db, p.envelope, p.consumer);
    } else {
      var k :| k in s.copies && StuckCopy(t, p, s.copies[k]);
      if Acks(s, step, k) {
        AckedIsNotStuck(t, s, step.tag, k, p);
      } else if step.DelayOver? && step.copyId == k {
        ExpireIs(t, s, k);
        ExpiredStaysStuck(t, s, k, p);
      } else {
        CopyStays(t, s, step, k);
        SameCopyCounts(t, Account(p, true), s.copies[k], s'.copies[k]);
      }
    }
  }

  lemma {:induction false} SameCopyCounts(t: Topology, a: Account, c: Copy, c': Copy)
    requires SameCopy(c, c')
    ensures CountsFor(t, a, c) <==> CountsFor(t, a, c')
  {
  }

  lemma {:induction false} ExpiredStaysStuck(t: Topology, s: Pipeline, k: nat, p: Pair)
    requires ValidTopology(t) && Numbered(s) && k in s.copies && StuckCopy(t, p, s.copies[k])
    ensures Stuck(t, DoExpire(t, s, k), p)
  {
    hide Numbered, ValidTopology, SendsOn, Recorded, Reach;
    if s.copies[k].place == Delayed {
      ExpiryReaches(t, s, k, p);
      hide DoExpire;
      var n :| n in DoExpire(t, s, k).copies && DoExpire(t, s, k).copies[n] == Copy(p.envelope, p.consumer, s.copies[k].attempt, Ready);
      assert StuckCopy(t, p, DoExpire(t, s, k).copies[n]);
    } else {
      assert DoExpire(t, s, k) == s;
    }
  }

  // Whoever acknowledges has put the message on record or could send it on.
  lemma {:induction false} AckedIsNotStuck(t: Topology, s: Pipeline, tag: nat, k: nat, p: Pair)
    requires WorkersSound(t, s) && RetriesSound(t, s) && Acks(s, Ack(tag), k) && !Recorded(s.db, p.envelope, p.consumer)
    ensures !StuckCopy(t, p, s.copies[k])
  {
    hide SendsOn, Recorded, Reach, Serves;
    assert WorkerSound(t, s.db, s.copies, s.workers[tag]);
  }

  // --------------------------------------------------------------- where it can be

  // A copy of the message is one it can come to.
  ghost predicate CopyHeld(t: Topology, p: Pair, c: Copy) {
    c.envelope.messageId == p.envelope.messageId ==>
      && c.envelope == p.envelope
      && (if c.place == Delayed then c.attempt >= 2 && c.consumer in Holders(t, p.envelope, p.consumer, c.attempt - 1)
          else c.consumer in Holders(t, p.envelope, p.consumer, c.attempt))
  }

  ghost predicate WorkerHolds(t: Topology, p: Pair, w: Worker) {
    w.delivery.envelope.messageId == p.envelope.messageId ==>
      w.delivery.envelope == p.envelope && w.delivery.consumer in Holders(t, p.envelope, p.consumer, w.delivery.attempt)
  }

  ghost predicate Held(t: Topology, s: Pipeline, p: Pair) {
    && (forall k :: k in s.copies ==> CopyHeld(t, p, s.copies[k]))
    && (forall tag :: tag in s.workers ==> WorkerHolds(t, p, s.workers[tag]))
    && (forall k :: k in s.wire && s.wire[k].cargo.Again? ==> CopyHeld(t, p, s.wire[k].cargo.copy))
  }

  // The row of the message id, if there is one, is the message's.
  predicate RowIs(db: Store, e: Envelope) {
    e.messageId in db.outbox ==> db.outbox[e.messageId].envelope == e
  }

  // Nothing is put into the queues by hand under the id of the message.
  predicate Clean(e: Envelope, step: Step) {
    step.Inject? ==> step.copy.messageId != e.messageId
  }

  lemma {:induction false} FirstHolders(t: Topology, p: Pair, c: string)
    requires c in Bound(t, p.envelope) && SendsOn(t, p.envelope, p.consumer, 1)
    ensures c in Holders(t, p.envelope, p.consumer, 1)
  {
  }

  lemma {:induction false} NextHolders(t: Topology, p: Pair, a: string, attempt: nat, c: string)
    requires attempt >= 1 && a in Holders(t, p.envelope, p.consumer, attempt) && Passes(t, p.envelope, p.consumer, attempt, a) && c in Reach(t, a)
    ensures c in Holders(t, p.envelope, p.consumer, attempt + 1)
  {
  }

  // The broker routes the message: the first copies.
  lemma {:induction false} RoutedIsHeldOrStuck(t: Topology, s: Pipeline, key: Key, p: Pair)
    requires Numbered(s) && DoAccept(t, s, key) != s && key in s.wire && s.wire[key].cargo == Original(p.envelope) && p.consumer in Bound(t, p.envelope)
    ensures SendsOn(t, p.envelope, p.consumer, 1) || Stuck(t, DoAccept(t, s, key), p)
  {
    hide SendsOn, Recorded;
    var i :| 0 <= i < |Bound(t, p.envelope)| && Bound(t, p.envelope)[i] == p.consumer;
    hide Bound;
    var s' := DoAccept(t, s, key);
    assert s'.copies[s.nextCopy + i] == Copy(p.envelope, p.consumer, 1, Ready);
    assert !SendsOn(t, p.envelope, p.consumer, 1) ==> StuckCopy(t, p, s'.copies[s.nextCopy + i]);
  }

  lemma {:induction false} NewCopyHeld(t: Topology, s: Pipeline, step: Step, p: Pair, k: nat)
    requires ValidTopology(t) && Inv(t, s) && RetriesSound(t, s) && Held(t, s, p) && !Stuck(t, s, p) && RowIs(s.db, p.envelope)
    requires p.consumer in Bound(t, p.envelope) && Clean(p.envelope, step) && k in Apply(t, s, step).copies && k !in s.copies
    ensures CopyHeld(t, p, Apply(t, s, step).copies[k]) || Stuck(t, Apply(t, s, step), p)
  {
    hide Apply, Inv, ValidTopology, Holders, SendsOn, Bound, DoAccept, RetriesSound;
    InvParts(t, s);
    hide Numbered;
    NewCopies(t, s, step, k);
    var c := Apply(t, s, step).copies[k];
    if c.envelope.messageId == p.envelope.messageId {
      if step.Accept? {
        AcceptIs(t, s, step.key);
        if s.wire[step.key].cargo.Original? {
          assert c.envelope == p.envelope;
          RoutedIsHeldOrStuck(t, s, step.key, p);
          if SendsOn(t, p.envelope, p.consumer, 1) {
            FirstHolders(t, p, c.consumer);
          }
        }
      } else if step.DelayOver? {
        DelayedIsSound(t, s, step.copyId);
        ExpiredIsHeld(t, s, step.copyId, p, c.consumer);
      }
    }
  }

  lemma {:induction false} DelayedIsSound(t: Topology, s: Pipeline, k: nat)
    requires RetriesSound(t, s) && k in s.copies && s.copies[k].place == Delayed
    ensures RetrySound(t, s.copies[k])
  {
  }

  lemma {:induction false} ExpiredIsHeld(t: Topology, s: Pipeline, k: nat, p: Pair, consumer: string)
    requires k in s.copies && s.copies[k].place == Delayed && s.copies[k].envelope.messageId == p.envelope.messageId
    requires CopyHeld(t, p, s.copies[k]) && RetrySound(t, s.copies[k]) && !Stuck(t, s, p) && consumer in Reach(t, s.copies[k].consumer)
    ensures consumer in Holders(t, p.envelope, p.consumer, s.copies[k].attempt)
  {
    hide Holders, SendsOn, Reach;
    var c := s.copies[k];
    assert !StuckCopy(t, p, c);
    NextHolders(t, p, c.consumer, c.attempt - 1, consumer);
  }

  lemma {:induction false} StepKeepsCopiesHeld(t: Topology, s: Pipeline, step: Step, p: Pair)
    requires ValidTopology(t) && Inv(t, s) && RetriesSound(t, s) && Held(t, s, p) && !Stuck(t, s, p) && RowIs(s.db, p.envelope)
    requires p.consumer in Bound(t, p.envelope) && Clean(p.envelope, step)
    ensures Stuck(t, Apply(t, s, step), p) || forall k :: k in Apply(t, s, step).copies ==> CopyHeld(t, p, Apply(t, s, step).copies[k])
  {
    hide Apply, Inv, ValidTopology, Holders, Bound, RetriesSound, Stuck, Numbered, SameCopy;
    InvParts(t, s);
    var s' := Apply(t, s, step);
    forall k | k in s'.copies ensures CopyHeld(t, p, s'.copies[k]) || Stuck(t, s', p) {
      if k in s.copies {
        OldCopies(t, s, step, k);
        SameCopyHeld(t, p, s.copies[k], s'.copies[k]);
      } else {
        NewCopyHeld(t, s, step, p, k);
      }
    }
  }

  lemma {:induction false} SameCopyHeld(t: Topology, p: Pair, c: Copy, c': Copy)
    requires SameCopy(c, c') && CopyHeld(t, p, c)
    ensures CopyHeld(t, p, c')
  {
    hide Holders;
  }

  // A worker's delivery is that of a copy in its queue, or the one it had.
  lemma {:induction false} WorkersComeFrom(t: Topology, s: Pipeline, step: Step, tag: nat)
    requires Numbered(s) && tag in Apply(t, s, step).workers
    ensures var w := Apply(t, s, step).workers[tag];
      || (tag in s.workers && w.delivery == s.workers[tag].delivery && w.line == s.workers[tag].line)
      || (exists k :: k in s.copies && s.copies[k].place == Ready && w.delivery.attempt == s.copies[k].attempt && WorkerPair(w) == PairOf(s.copies[k]))
  {
    if !step.Deliver? {
      StepKeepsDeliveries(t, s, step);
      hide Apply;
    } else {
      hide Serves, Admits;
    }
  }

  lemma {:induction false} StepKeepsWorkersHeld(t: Topology, s: Pipeline, step: Step, p: Pair)
    requires Inv(t, s) && Held(t, s, p)
    ensures forall tag :: tag in Apply(t, s, step).workers ==> WorkerHolds(t, p, Apply(t, s, step).workers[tag])
  {
    hide Apply, Inv, Holders, Numbered;
    InvParts(t, s);
    var s' := Apply(t, s, step);
    forall tag | tag in s'.workers ensures WorkerHolds(t, p, s'.workers[tag]) {
      WorkersComeFrom(t, s, step, tag);
    }
  }

  lemma {:induction false} StepKeepsRetriesHeld(t: Topology, s: Pipeline, step: Step, p: Pair)
    requires Inv(t, s) && Held(t, s, p)
    ensures forall k :: k in Apply(t, s, step).wire && Apply(t, s, step).wire[k].cargo.Again? ==> CopyHeld(t, p, Apply(t, s, step).wire[k].cargo.copy)
  {
    hide Apply, Inv, Holders, Linked, WillRetry;
    InvParts(t, s);
    var s' := Apply(t, s, step);
    forall k | k in s'.wire && s'.wire[k].cargo.Again? ensures CopyHeld(t, p, s'.wire[k].cargo.copy) {
      RetriesComeFrom(t, s, step, k);
      if k !in s.wire {
        assert WorkerHolds(t, p, s.workers[step.tag]);
        NextTryHeld(t, p, s.workers[step.tag]);
      }
    }
  }

  lemma {:induction false} NextTryHeld(t: Topology, p: Pair, w: Worker)
    requires WorkerHolds(t, p, w) && w.delivery.attempt >= 1
    ensures CopyHeld(t, p, NextTry(w))
  {
    hide Holders;
  }

  lemma {:induction false} StepKeepsHeld(t: Topology, s: Pipeline, step: Step, p: Pair)
    requires ValidTopology(t) && Inv(t, s) && RetriesSound(t, s) && Held(t, s, p) && !Stuck(t, s, p) && RowIs(s.db, p.envelope)
    requires p.consumer in Bound(t, p.envelope) && Clean(p.envelope, step)
    ensures Held(t, Apply(t, s, step), p) || Stuck(t, Apply(t, s, step), p)
  {
    hide Apply, Inv, ValidTopology, CopyHeld, WorkerHolds, RetriesSound, Stuck, Bound;
    StepKeepsCopiesHeld(t, s, step, p);
    StepKeepsWorkersHeld(t, s, step, p);
    StepKeepsRetriesHeld(t, s, step, p);
  }

  // ------------------------------------------------------------------ fair answers

  // Where `b` is not exposed, what it is told of counts for it.
  lemma {:induction false} UnexposedIsToldFairly(t: Topology, s: Pipeline, step: Step, p: Pair)
    requires Inv(t, s) && RetriesSound(t, s) && Held(t, s, p) && InFile(t, s)
    requires p.consumer in Bound(t, p.envelope) && !Exposed(t, p.envelope, p.consumer)
    ensures FairAnswer(t, s, step, Account(p, true))
  {
    hide Inv, RetriesSound, Held, InFile, Exposed, AnswerCopy, CountsFor, Bound;
    if step.LearnRetry? && HearsRouted(s, step.tag) && WorkerPair(s.workers[step.tag]) == p {
      ToldFairly(t, s, step.tag, p);
    }
  }

  lemma {:induction false} ToldFairly(t: Topology, s: Pipeline, tag: nat, p: Pair)
    requires Inv(t, s) && RetriesSound(t, s) && Held(t, s, p) && InFile(t, s)
    requires p.consumer in Bound(t, p.envelope) && !Exposed(t, p.envelope, p.consumer)
    requires HearsRouted(s, tag) && WorkerPair(s.workers[tag]) == p
    ensures CountsFor(t, Account(p, true), AnswerCopy(s, s.workers[tag]))
  {
    hide HearsRouted, Inv, RetriesSound, Held, InFile, SingleFile, Exposed, SendsOn, Serves, Holders, AnswerCopy, Reach, Bound, DeliveryPolicy, CountsFor;
    HearerWaits(s, tag);
    var w := s.workers[tag];
    AnswersAreHeld(t, s, tag, p);
    if t.sites[w.line.site].concurrency <= 1 {
      SiteInFile(t, s, w.line);
      InFileTellsOwn(t, s, tag);
      OwnCounts(t, p, AnswerCopy(s, w));
    } else {
      AnswersReach(t, p, w.line.site, AnswerCopy(s, w));
    }
  }

  lemma {:induction false} HearerWaits(s: Pipeline, tag: nat)
    requires HearsRouted(s, tag)
    ensures tag in s.workers && s.workers[tag].phase.RetryAwaited?
  {
    hide Answered, ToldRouted;
  }

  lemma {:induction false} OwnCounts(t: Topology, p: Pair, c: Copy)
    requires PairOf(c) == p
    ensures CountsFor(t, Account(p, true), c)
  {
  }

  lemma {:induction false} SiteInFile(t: Topology, s: Pipeline, line: Line)
    requires InFile(t, s) && line.Retrying? && line.site < |t.sites| && t.sites[line.site].concurrency <= 1
    ensures SingleFile(s, line)
  {
    hide SingleFile;
    assert OneAtATime(t, line);
  }

  lemma {:induction false} AnswersReach(t: Topology, p: Pair, site: nat, c: Copy)
    requires p.consumer in Bound(t, p.envelope) && !Exposed(t, p.envelope, p.consumer)
    requires Serves(t, site, p.consumer) && Serves(t, site, c.consumer) && t.sites[site].concurrency >= 2
    requires c.attempt >= 2 && c.attempt - 1 < DeliveryPolicy(t.eventPolicy, p.envelope).maxAttempts
    requires SendsOn(t, p.envelope, c.consumer, c.attempt - 1) && c.consumer in Holders(t, p.envelope, p.consumer, c.attempt - 1)
    requires c.place == Delayed && c.envelope == p.envelope && site < |t.sites|
    ensures CountsFor(t, Account(p, true), c)
  {
    hide SendsOn, Holders, Bound, Reach, DeliveryPolicy;
    assert !Overtakes(t, p.envelope, p.consumer, c.attempt - 1, site, c.consumer);
  }

  lemma {:induction false} AnswersAreHeld(t: Topology, s: Pipeline, tag: nat, p: Pair)
    requires Inv(t, s) && RetriesSound(t, s) && Held(t, s, p) && HearsRouted(s, tag) && WorkerPair(s.workers[tag]) == p
    ensures var w := s.workers[tag]; var c := AnswerCopy(s, w);
      && w.line.Retrying? && w.line.site < |t.sites| && Serves(t, w.line.site, p.consumer) && Serves(t, w.line.site, c.consumer)
      && c.place == Delayed && c.envelope == p.envelope && c.attempt >= 2 && c.attempt - 1 < DeliveryPolicy(t.eventPolicy, p.envelope).maxAttempts
      && SendsOn(t, p.envelope, c.consumer, c.attempt - 1) && c.consumer in Holders(t, p.envelope, p.consumer, c.attempt - 1)
  {
    hide Inv, Taken, PortOf, Answered, ToldRouted, Recorded, Holders, SendsOn, Layered, Served, Serves, HearsRouted;
    HearerWaits(s, tag);
    var w := s.workers[tag];
    RoutedAnswer(t, s, tag);
    InvParts(t, s);
    hide Numbered, Linked;
    AnswerOnWire(t, s, w);
    var k := Key(w.line, Taken(PortOf(s, w.line), w.phase.ticket, w.delivery.envelope.messageId).value.ticket);
    hide AnswerCopy;
    assert WorkerSound(t, s.db, s.copies, w);
    assert PostSound(t, w.line, s.wire[k].cargo.copy) && CopyHeld(t, p, s.wire[k].cargo.copy);
    ServingSites(t, w.line.site, p.consumer);
    SendersWithinPolicy(t, p.envelope, s.wire[k].cargo.copy);
  }

  lemma {:induction false} ServingSites(t: Topology, site: nat, consumer: string)
    requires Serves(t, site, consumer)
    ensures site < |t.sites|
  {
  }

  lemma {:induction false} SendersWithinPolicy(t: Topology, e: Envelope, c: Copy)
    requires c.attempt >= 2 && SendsOn(t, e, c.consumer, c.attempt - 1)
    ensures c.attempt - 1 < DeliveryPolicy(t.eventPolicy, e).maxAttempts
  {
  }

  // The copy an answer is about is on the wire, under the message id of the asker.
  lemma {:induction false} AnswerOnWire(t: Topology, s: Pipeline, w: Worker)
    requires Linked(s) && w.phase.RetryAwaited? && Taken(PortOf(s, w.line), w.phase.ticket, w.delivery.envelope.messageId).Some?
    requires var k := Key(w.line, Taken(PortOf(s, w.line), w.phase.ticket, w.delivery.envelope.messageId).value.ticket); k in s.wire && s.wire[k].cargo.Again?
    ensures var k := Key(w.line, Taken(PortOf(s, w.line), w.phase.ticket, w.delivery.envelope.messageId).value.ticket);
      AnswerCopy(s, w) == s.wire[k].cargo.copy && AnswerCopy(s, w).envelope.messageId == w.delivery.envelope.messageId
  {
    TakenIsLinked(s, w.line, w.phase.ticket, w.delivery.envelope.messageId);
    hide Taken, PortOf, PortsLinked;
  }

  // ------------------------------------------------------------------ nothing is lost

  ghost predicate CleanRun(e: Envelope, steps: seq<Step>) {
    forall i :: 0 <= i < |steps| ==> Clean(e, steps[i])
  }

  // Another message has the id, or the consumer keeps the message, or its account
  // is open and the message only where it can be.
  ghost predicate Kept(t: Topology, s: Pipeline, p: Pair) {
    || !RowIs(s.db, p.envelope)
    || Stuck(t, s, p)
    || (Books(t, s, Account(p, true)) && Held(t, s, p))
  }

  lemma {:induction false} RowStays(t: Topology, s: Pipeline, step: Step, e: Envelope)
    requires ValidTopology(t) && Inv(t, s) && !RowIs(s.db, e)
    ensures !RowIs(Apply(t, s, step).db, e)
  {
    hide Apply, Inv, ValidTopology;
    InvStepAdvances(t, s, step);
  }

  lemma {:induction false} StepKeepsKept(t: Topology, s: Pipeline, step: Step, p: Pair)
    requires ValidTopology(t) && Inv(t, s) && RetriesSound(t, s) && InFile(t, s) && Kept(t, s, p)
    requires p.consumer in Bound(t, p.envelope) && !Exposed(t, p.envelope, p.consumer) && Clean(p.envelope, step)
    ensures Kept(t, Apply(t, s, step), p)
  {
    hide Apply, Inv, ValidTopology, RetriesSound, InFile, Stuck, Books, Held, Exposed, Clean, RowIs, Bound, FairAnswer;
    if !RowIs(s.db, p.envelope) {
      RowStays(t, s, step, p.envelope);
    } else if Stuck(t, s, p) {
      StuckStays(t, s, step, p);
    } else {
      StepKeepsHeld(t, s, step, p);
      UnexposedIsToldFairly(t, s, step, p);
      StepKeepsBooks(t, s, step, Account(p, true));
    }
  }

  lemma {:induction false} CleanRunKeeps(t: Topology, steps: seq<Step>, p: Pair)
    requires ValidTopology(t) && CleanRun(p.envelope, steps) && p.consumer in Bound(t, p.envelope) && !Exposed(t, p.envelope, p.consumer)
    ensures var s := Run(t, Start, steps); Inv(t, s) && RetriesSound(t, s) && InFile(t, s) && Kept(t, s, p)
    decreases |steps|
  {
    hide Inv, Apply, ValidTopology, RetriesSound, InFile, Kept, Clean, Exposed, Bound;
    if steps == [] {
      StartIsKept(t, Account(p, true));
      StartIsInFile(t);
      StartHolds(t, p);
    } else {
      var n := |steps| - 1;
      CleanRunKeeps(t, steps[..n], p);
      var before := Run(t, Start, steps[..n]);
      StepKeepsInv(t, before, steps[n]);
      StepKeepsRetriesSound(t, before, steps[n]);
      StepKeepsFiles(t, before, steps[n]);
      StepKeepsKept(t, before, steps[n], p);
    }
  }

  lemma {:induction false} StartHolds(t: Topology, p: Pair)
    requires Books(t, Start, Account(p, true))
    ensures RetriesSound(t, Start) && Kept(t, Start, p)
  {
    hide Books;
  }

  // A clean run after which a published message has no copy left that is, or will
  // come back, in the queue of a consumer its route reaches, which has no record
  // of it either.
  ghost predicate Loses(t: Topology, steps: seq<Step>, e: Envelope, consumer: string) {
    var s := Run(t, Start, steps);
    && CleanRun(e, steps)
    && PublishedRow(s.db, e) && consumer in Bound(t, e)
    && (forall k :: k in s.copies ==> !CountsFor(t, Account(Pair(e, consumer), true), s.copies[k]))
    && !Recorded(s.db, e, consumer)
  }

  // A consumer that is not exposed loses the message in no run.
  lemma {:induction false} UnexposedNeverLoses(t: Topology, steps: seq<Step>, e: Envelope, consumer: string)
    requires ValidTopology(t) && !Exposed(t, e, consumer)
    ensures !Loses(t, steps, e, consumer)
  {
    if Loses(t, steps, e, consumer) {
      var p := Pair(e, consumer);
      CleanRunKeeps(t, steps, p);
      hide Run, Inv, ValidTopology, Recorded, CleanRun, Bound, Held, InFile, RetriesSound, Exposed, CountsFor, Accounted, RoutedOnWire, ConfirmedTo;
      var s := Run(t, Start, steps);
      if Books(t, s, Account(p, true)) {
        AccountedIsHeldOrRecorded(t, s, Account(p, true));
      }
      assert false;
    }
  }
}
