// Adapters that handle one delivery at a time: who waits on their retry channel
// waits for its own publication.
module EventingSingleFile {
  import opened EventingModel
  import opened EventingInvariants
  import opened EventingPipeline
  import opened EventingGuarantees
  import opened EventingAccounts
  import opened EventingNoLoss

  predicate OneAtATime(t: Topology, line: Line) {
    line.Retrying? && line.site < |t.sites| && t.sites[line.site].concurrency <= 1
  }

  // The one worker of a channel waits for the one publication in its queue.
  ghost predicate TurnOf(s: Pipeline, line: Line, tag: nat, ticket: nat) {
    tag in s.workers && s.workers[tag].line == line && Waits(s.workers[tag]) && Carries(s.wire, Key(line, ticket), WorkerPair(s.workers[tag]))
  }

  ghost predicate Alone(workers: map<nat, Worker>, line: Line) {
    forall a, b :: a in workers && b in workers && workers[a].line == line && workers[b].line == line ==> a == b
  }

  ghost predicate Empty(workers: map<nat, Worker>, line: Line) {
    forall a :: a in workers ==> workers[a].line != line
  }

  ghost predicate OneTicket(port: CP.Port) {
    forall n, m, id, other :: Queues(port, n, id) && Queues(port, m, other) ==> n == m
  }

  ghost predicate InTurn(s: Pipeline, line: Line) {
    && OneTicket(PortOf(s, line))
    && (forall n, id :: Queues(PortOf(s, line), n, id) ==> exists tag :: TurnOf(s, line, tag, n))
  }

  ghost predicate SingleFile(s: Pipeline, line: Line) {
    && Alone(s.workers, line)
    && (if line in s.stopped then Empty(s.workers, line) else InTurn(s, line))
  }

  ghost predicate InFile(t: Topology, s: Pipeline) {
    forall line :: OneAtATime(t, line) ==> SingleFile(s, line)
  }

  // The workers of a channel, as they were.
  ghost predicate SameOn(workers: map<nat, Worker>, after: map<nat, Worker>, line: Line) {
    && (forall tag :: tag in after && after[tag].line == line ==> tag in workers && workers[tag] == after[tag])
    && (forall tag :: tag in workers && workers[tag].line == line ==> tag in after && after[tag] == workers[tag])
  }

  // What a queue still holds is on the wire as before.
  ghost predicate QueueStays(s: Pipeline, s': Pipeline, line: Line) {
    && QueueKept(PortOf(s, line), PortOf(s', line))
    && (forall n, id, p :: Queues(PortOf(s', line), n, id) && Carries(s.wire, Key(line, n), p) ==> Carries(s'.wire, Key(line, n), p))
  }

  lemma {:induction false} UntouchedStaysInFile(s: Pipeline, s': Pipeline, line: Line)
    requires SingleFile(s, line) && SameOn(s.workers, s'.workers, line) && (line in s'.stopped <==> line in s.stopped) && QueueStays(s, s', line)
    ensures SingleFile(s', line)
  {
    hide PortOf, Queues, Carries;
    if line !in s.stopped {
      forall n, id | Queues(PortOf(s', line), n, id) ensures exists tag :: TurnOf(s', line, tag, n) {
        var tag :| TurnOf(s, line, tag, n);
        assert TurnOf(s', line, tag, n);
      }
    }
  }

  // A worker that waits for nothing leaves an empty queue behind and before it.
  lemma {:induction false} IdleQueueIsEmpty(s: Pipeline, line: Line, tag: nat)
    requires SingleFile(s, line) && tag in s.workers && s.workers[tag].line == line && !Waits(s.workers[tag])
    ensures line !in s.stopped && forall n, id :: !Queues(PortOf(s, line), n, id)
  {
    hide PortOf, Queues, Carries;
  }

  lemma {:induction false} ActingStaysAlone(s: Pipeline, s': Pipeline, line: Line, acting: nat)
    requires Alone(s.workers, line) && WorkersKept(s.workers, s'.workers, acting)
    ensures Alone(s'.workers, line)
  {
  }

  // An idle worker acts, or goes, without a publication.
  lemma {:induction false} IdleStaysInFile(s: Pipeline, s': Pipeline, line: Line, acting: nat)
    requires SingleFile(s, line) && acting in s.workers && s.workers[acting].line == line && !Waits(s.workers[acting])
    requires WorkersKept(s.workers, s'.workers, acting) && StopsWith(s, s', acting) && QueueKept(PortOf(s, line), PortOf(s', line))
    ensures SingleFile(s', line)
  {
    hide PortOf, Queues, Carries;
    IdleQueueIsEmpty(s, line, acting);
    ActingStaysAlone(s, s', line, acting);
  }

  // A worker fails, and the adapter with it.
  lemma {:induction false} FailingEmptiesFile(s: Pipeline, s': Pipeline, line: Line, acting: nat)
    requires SingleFile(s, line) && acting in s.workers && s.workers[acting].line == line
    requires WorkersKept(s.workers, s'.workers, acting) && acting !in s'.workers && line in s'.stopped
    ensures SingleFile(s', line)
  {
    hide PortOf, Queues, Carries;
    ActingStaysAlone(s, s', line, acting);
  }

  // A worker that waits goes on waiting.
  lemma {:induction false} WaiterStaysInFile(s: Pipeline, s': Pipeline, line: Line, acting: nat)
    requires SingleFile(s, line) && acting in s.workers && s.workers[acting].line == line && Waits(s.workers[acting])
    requires WorkersKept(s.workers, s'.workers, acting) && acting in s'.workers && Waits(s'.workers[acting])
    requires s'.stopped == s.stopped && QueueStays(s, s', line)
    ensures SingleFile(s', line)
  {
    hide PortOf, Queues, Carries;
    ActingStaysAlone(s, s', line, acting);
    forall n, id | Queues(PortOf(s', line), n, id) ensures exists tag :: TurnOf(s', line, tag, n) {
      var tag :| TurnOf(s, line, tag, n);
      assert tag == acting;
      assert TurnOf(s', line, tag, n);
    }
  }

  // A worker that is told takes the one publication with it.
  lemma {:induction false} TakerStaysInFile(s: Pipeline, s': Pipeline, line: Line, acting: nat, taken: nat, id: Uuid)
    requires SingleFile(s, line) && acting in s.workers && s.workers[acting].line == line
    requires WorkersKept(s.workers, s'.workers, acting) && s'.stopped == s.stopped
    requires QueueKept(PortOf(s, line), PortOf(s', line)) && Queues(PortOf(s, line), taken, id)
    requires forall other :: !Queues(PortOf(s', line), taken, other)
    ensures SingleFile(s', line)
  {
    hide PortOf, Queues, Carries;
    ActingStaysAlone(s, s', line, acting);
    assert forall n, other :: Queues(PortOf(s', line), n, other) ==> Queues(PortOf(s, line), n, other);
  }

  // A worker publishes into an empty queue.
  lemma {:induction false} PosterStaysInFile(s: Pipeline, s': Pipeline, line: Line, acting: nat, ticket: nat)
    requires SingleFile(s, line) && acting in s.workers && s.workers[acting].line == line && !Waits(s.workers[acting])
    requires WorkersKept(s.workers, s'.workers, acting) && s'.stopped == s.stopped && TurnOf(s', line, acting, ticket)
    requires forall n, id :: Queues(PortOf(s', line), n, id) ==> Queues(PortOf(s, line), n, id) || n == ticket
    ensures SingleFile(s', line)
  {
    hide PortOf, Queues, Carries;
    IdleQueueIsEmpty(s, line, acting);
    ActingStaysAlone(s, s', line, acting);
    forall n, id | Queues(PortOf(s', line), n, id) ensures TurnOf(s', line, acting, n) {
      assert n == ticket;
    }
  }

  // A delivery is admitted only where no other is in hand.
  lemma {:induction false} NewcomerStaysInFile(s: Pipeline, s': Pipeline, line: Line, tag: nat)
    requires SingleFile(s, line) && Empty(s.workers, line) && line !in s.stopped && s'.stopped == s.stopped
    requires forall a :: a in s'.workers && a != tag ==> a in s.workers && s'.workers[a] == s.workers[a]
    requires s'.ports == s.ports
    ensures SingleFile(s', line)
  {
    hide PortOf, Queues, Carries;
    SamePortsKeepQueue(s, s', line);
    assert forall n, id :: Queues(PortOf(s', line), n, id) ==> Queues(PortOf(s, line), n, id);
  }

  lemma {:induction false} SameCargoStays(s: Pipeline, s': Pipeline, line: Line)
    requires Linked(s') && QueueKept(PortOf(s, line), PortOf(s', line)) && WireKept(s, s')
    ensures QueueStays(s, s', line)
  {
    hide PortOf, Queues, Linked, QueueKept;
    forall n, id, p | Queues(PortOf(s', line), n, id) && Carries(s.wire, Key(line, n), p) ensures Carries(s'.wire, Key(line, n), p) {
      QueuedIsOnWire(s', line, n, id);
    }
  }

  lemma {:induction false} WorkersActInTurn(t: Topology, s: Pipeline, step: Step)
    requires step.Check? || step.Transact? || RetryStep(step)
    ensures WorkersKept(s.workers, Apply(t, s, step).workers, step.tag) && StopsWith(s, Apply(t, s, step), step.tag)
    ensures Apply(t, s, step).nextCopy == s.nextCopy
  {
    hide Apply, WorkersKept, SameOutbox, DoCheck, DoTransact, StopsWith;
    if step.Check? {
      CheckIs(t, s, step.tag, step.fails);
      CheckEffect(t, s, step.tag, step.fails);
    } else if step.Transact? {
      TransactIs(t, s, step.tag, step.run, step.reported);
      TransactEffect(t, s, step.tag, step.run, step.reported);
    } else {
      RetryStepsEffect(t, s, step);
    }
  }

  // Steps of nobody on the channel.
  lemma {:induction false} OthersKeepFile(t: Topology, s: Pipeline, step: Step, line: Line)
    requires Linked(s) && Linked(Apply(t, s, step)) && SingleFile(s, line) && line.Retrying?
    requires ClientStep(step) || PublisherStep(step) || ChannelEvent(step) || step.Accept? || step.Inject? || step.DelayOver? || step.ConnectionLost?
    ensures SingleFile(Apply(t, s, step), line)
  {
    hide Apply, PortOf, Queues, Linked, SingleFile, QueueKept, SameOutbox, SameQueues, WireKept;
    var s' := Apply(t, s, step);
    if ClientStep(step) || step.Claim? || step.MarkDone? || step.MarkFailed? || step.PublisherCrash? {
      ClientsLeaveBroker(t, s, step);
    } else if PublisherStep(step) {
      SendingStepsEffect(t, s, step);
    } else {
      BrokerStepsEffect(t, s, step);
    }
    if step.Send? {
      SendLeavesRetries(t, s, step, line);
    } else {
      OtherStepsKeepWire(t, s, step);
      QuietStepsKeepQueue(t, s, step, line);
      SameCargoStays(s, s', line);
    }
    UntouchedStaysInFile(s, s', line);
  }

  lemma {:induction false} SendLeavesRetries(t: Topology, s: Pipeline, step: Step, line: Line)
    requires Linked(s) && step.Send? && line.Retrying?
    ensures QueueStays(s, Apply(t, s, step), line)
  {
    hide Apply, Linked, Queues, PortOf;
    var s' := Apply(t, s, step);
    SendLeavesPorts(t, s, step, line);
    SendAddsToWire(t, s, step);
  }

  lemma {:induction false} SendLeavesPorts(t: Topology, s: Pipeline, step: Step, line: Line)
    requires step.Send? && line.Retrying?
    ensures PortOf(Apply(t, s, step), line) == PortOf(s, line)
  {
    hide CP.DoPublish, Takes;
  }

  // A worker's step as seen from a channel it does not use.
  lemma {:induction false} ElsewhereKeepsFile(t: Topology, s: Pipeline, step: Step, line: Line)
    requires Linked(s) && Linked(Apply(t, s, step)) && SingleFile(s, line)
    requires step.Check? || step.Transact? || RetryStep(step)
    requires step.tag !in s.workers || s.workers[step.tag].line != line
    requires WorkersKept(s.workers, Apply(t, s, step).workers, step.tag) && StopsWith(s, Apply(t, s, step), step.tag)
    ensures SingleFile(Apply(t, s, step), line)
  {
    hide Apply, PortOf, Queues, Linked, SingleFile, QueueKept, WireKept, WillRetry, CanResend;
    var s' := Apply(t, s, step);
    if step.Recover? {
      RecoverLeavesOthers(t, s, step, line);
    } else {
      OtherStepsKeepWire(t, s, step);
      QuietStepsKeepQueue(t, s, step, line);
      SameCargoStays(s, s', line);
    }
    UntouchedStaysInFile(s, s', line);
  }

  lemma {:induction false} RecoverLeavesOthers(t: Topology, s: Pipeline, step: Step, line: Line)
    requires Linked(s) && step.Recover? && (step.tag !in s.workers || s.workers[step.tag].line != line)
    ensures QueueStays(s, Apply(t, s, step), line)
  {
    hide Apply, Linked, Queues, PortOf, WillRetry, CanResend;
    RecoverLeavesPorts(t, s, step, line);
    RecoverAddsToWire(t, s, step);
  }

  lemma {:induction false} RecoverLeavesPorts(t: Topology, s: Pipeline, step: Step, line: Line)
    requires step.Recover? && (step.tag !in s.workers || s.workers[step.tag].line != line)
    ensures PortOf(Apply(t, s, step), line) == PortOf(s, line)
  {
    hide Apply, DoRecover, Post;
    RecoverIs(t, s, step.tag, step.retryable, step.writable, step.throws);
    RecoverMovesOneCopy(t, s, step.tag, step.retryable, step.writable, step.throws);
    if step.tag in s.workers {
      PostLeavesOthers(s, s.workers[step.tag].line, Again(NextTry(s.workers[step.tag])), step.writable, line);
    }
  }

  lemma {:induction false} PostLeavesOthers(s: Pipeline, posted: Line, cargo: Cargo, writable: bool, line: Line)
    requires line != posted
    ensures PortOf(Post(s, posted, cargo, writable), line) == PortOf(s, line)
  {
  }

  // A step of the worker on the channel other than those about a retry.
  lemma {:induction false} IdleStepKeepsFile(t: Topology, s: Pipeline, step: Step)
    requires Linked(s) && (step.Check? || step.Transact? || step.Ack? || step.AckThrows? || step.WorkerCrash?)
    requires step.tag in s.workers && SingleFile(s, s.workers[step.tag].line)
    requires WorkersKept(s.workers, Apply(t, s, step).workers, step.tag) && StopsWith(s, Apply(t, s, step), step.tag)
    ensures SingleFile(Apply(t, s, step), s.workers[step.tag].line)
  {
    hide PortOf, Queues, Linked, SingleFile, QueueKept, Carries, WorkersKept, DoCheck;
    var line, s' := s.workers[step.tag].line, Apply(t, s, step);
    QuietStepsKeepQueue(t, s, step, line);
    OtherStepsLeaveChannels(t, s, step);
    if step.WorkerCrash? {
      FailingEmptiesFile(s, s', line, step.tag);
    } else if !Waits(s.workers[step.tag]) {
      IdleStaysInFile(s, s', line, step.tag);
    } else {
      WaitersDoNotAct(t, s, step);
    }
  }

  lemma {:induction false} WaitersDoNotAct(t: Topology, s: Pipeline, step: Step)
    requires step.Check? || step.Transact? || step.Ack? || step.AckThrows?
    requires step.tag in s.workers && Waits(s.workers[step.tag])
    ensures Apply(t, s, step) == s
  {
  }

  lemma {:induction false} RecoverCases(t: Topology, s: Pipeline, step: Step)
    requires step.Recover? && step.tag in s.workers && Apply(t, s, step) != s
    ensures var w, s' := s.workers[step.tag], Apply(t, s, step);
      && w.phase == Errored
      && (|| (step.tag !in s'.workers && s'.ports == s.ports)
          || (step.tag in s'.workers && s'.workers[step.tag] == w.(phase := Resent) && s'.stopped == s.stopped && s'.wire == Post(s, w.line, Again(NextTry(w)), step.writable).wire))
  {
    hide Apply, DoRecover, Post, DeadLetterCopy, DropWorker, FailWorker, SetPhase;
    RecoverIs(t, s, step.tag, step.retryable, step.writable, step.throws);
    GivingUpDrops(s, step.tag);
    PostingWaits(s, step.tag, step.writable);
    RecoverEnds(t, s, step.tag, step.retryable, step.writable, step.throws);
  }

  lemma {:induction false} GivingUpDrops(s: Pipeline, tag: nat)
    ensures var s' := DropWorker(DeadLetterCopy(s, tag), tag); tag !in s'.workers && s'.ports == s.ports
    ensures var s' := FailWorker(s, tag); tag !in s'.workers && s'.ports == s.ports
  {
  }

  lemma {:induction false} PostingWaits(s: Pipeline, tag: nat, writable: bool)
    requires tag in s.workers
    ensures var w := s.workers[tag]; var s1 := Post(s, w.line, Again(NextTry(w)), writable);
      && tag in s1.workers
      && var s' := SetPhase(s1, tag, Resent); tag in s'.workers && s'.workers[tag] == w.(phase := Resent) && s'.stopped == s.stopped && s'.wire == s1.wire
  {
    hide Post;
    PostLeavesCopies(s, s.workers[tag].line, Again(NextTry(s.workers[tag])), writable);
  }

  // The ways a recovery ends.
  lemma {:induction false} RecoverEnds(t: Topology, s: Pipeline, tag: nat, retryable: bool, writable: bool, throws: bool)
    requires tag in s.workers && tag in Post(s, s.workers[tag].line, Again(NextTry(s.workers[tag])), writable).workers
    ensures var s', w := DoRecover(t, s, tag, retryable, writable, throws), s.workers[tag];
      || s' == s
      || (w.phase == Errored && (s' == DropWorker(DeadLetterCopy(s, tag), tag) || s' == FailWorker(s, tag) || s' == SetPhase(Post(s, w.line, Again(NextTry(w)), writable), tag, Resent)))
  {
    hide PortOf, Takes, WillRetry, CanResend, Post, DeadLetterCopy, DropWorker, FailWorker, SetPhase;
  }

  lemma {:induction false} RecoverKeepsFile(t: Topology, s: Pipeline, step: Step)
    requires Linked(s) && step.Recover? && step.tag in s.workers && SingleFile(s, s.workers[step.tag].line)
    requires WorkersKept(s.workers, Apply(t, s, step).workers, step.tag) && StopsWith(s, Apply(t, s, step), step.tag)
    ensures SingleFile(Apply(t, s, step), s.workers[step.tag].line)
  {
    hide Apply, PortOf, Queues, Linked, SingleFile, QueueKept, WorkersKept;
    var w, s' := s.workers[step.tag], Apply(t, s, step);
    var line := w.line;
    if s' != s {
      RecoverCases(t, s, step);
      if step.tag !in s'.workers {
        SamePortsKeepQueue(s, s', line);
        IdleStaysInFile(s, s', line, step.tag);
      } else {
        var ticket := PortOf(s, line).nextTicket;
        PostAddsToWire(s, line, Again(NextTry(w)), step.writable);
        forall n, id | Queues(PortOf(s', line), n, id) ensures Queues(PortOf(s, line), n, id) || n == ticket {
          RecoverAddsToQueue(t, s, step, line, n, id);
        }
        PosterStaysInFile(s, s', line, step.tag, ticket);
      }
    }
  }

  lemma {:induction false} AwaitRetryCases(s: Pipeline, tag: nat)
    requires tag in s.workers && DoAwaitRetry(s, tag) != s
    ensures var w, s' := s.workers[tag], DoAwaitRetry(s, tag);
      && w.phase == Resent
      && ((tag !in s'.workers && w.line in s'.stopped) || (tag in s'.workers && Waits(s'.workers[tag]) && s'.stopped == s.stopped))
  {
    hide PortOf, Wait;
  }

  lemma {:induction false} AwaitRetryKeepsFile(s: Pipeline, tag: nat)
    requires Linked(s) && Linked(DoAwaitRetry(s, tag)) && tag in s.workers && SingleFile(s, s.workers[tag].line)
    ensures SingleFile(DoAwaitRetry(s, tag), s.workers[tag].line)
  {
    var w, s' := s.workers[tag], DoAwaitRetry(s, tag);
    if s' != s {
      AwaitRetryCases(s, tag);
      AwaitRetryEffect(s, tag);
      hide DoAwaitRetry, PortOf, Queues, Linked, SingleFile, QueueKept, WorkersKept, SameOutbox;
      if tag !in s'.workers {
        FailingEmptiesFile(s, s', w.line, tag);
      } else {
        WaitingKeepsQueue(s, 0, tag, w.line);
        SameWireIsKept(s, s');
        SameCargoStays(s, s', w.line);
        WaiterStaysInFile(s, s', w.line, tag);
      }
    }
  }

  lemma {:induction false} LearnRetryCases(s: Pipeline, tag: nat)
    requires tag in s.workers && DoLearnRetry(s, tag) != s
    ensures var w, s' := s.workers[tag], DoLearnRetry(s, tag);
      && w.phase.RetryAwaited?
      && (|| (tag !in s'.workers && w.line in s'.stopped)
          || (HearsRouted(s, tag) && s'.stopped == s.stopped && s'.ports == Ask(s, w.line, w.phase.ticket, w.delivery.envelope.messageId).ports))
  {
    hide PortOf, ToldRouted, Answered, Ask;
    var w := s.workers[tag];
    if w.phase.RetryAwaited? {
      AskEffect(s, w.line, w.phase.ticket, w.delivery.envelope.messageId);
    }
  }

  lemma {:induction false} TakingEmptiesTicket(s: Pipeline, line: Line, ticket: nat, id: Uuid)
    requires Linked(s) && ToldRouted(PortOf(s, line), ticket, id)
    ensures var taken := Taken(PortOf(s, line), ticket, id).value.ticket;
      Queues(PortOf(s, line), taken, id) && forall other :: !Queues(PortOf(Ask(s, line, ticket, id), line), taken, other)
  {
    PortInOrder(s, line);
    var port := PortOf(s, line);
    var o := Taken(port, ticket, id).value;
    assert o in port.operations && CP.Takeable(id)(o);
    CP.AfterTake(port, id);
    hide CP.DoTake, CP.InOrder, CP.TakeIndex;
  }

  lemma {:induction false} LearnRetryKeepsFile(s: Pipeline, tag: nat)
    requires Linked(s) && tag in s.workers && SingleFile(s, s.workers[tag].line)
    ensures SingleFile(DoLearnRetry(s, tag), s.workers[tag].line)
  {
    var w, s' := s.workers[tag], DoLearnRetry(s, tag);
    if s' != s {
      LearnRetryCases(s, tag);
      LearnRetryEffect(s, tag);
      hide DoLearnRetry, PortOf, Queues, Linked, SingleFile, QueueKept, WorkersKept, SameOutbox, Ask, Taken, Answered;
      if tag !in s'.workers && w.line in s'.stopped {
        FailingEmptiesFile(s, s', w.line, tag);
      } else {
        var id := w.delivery.envelope.messageId;
        AskingKeepsQueue(s, 0, tag, w.line);
        TakingEmptiesTicket(s, w.line, w.phase.ticket, id);
        SamePorts(Ask(s, w.line, w.phase.ticket, id), s', w.line);
        TakerStaysInFile(s, s', w.line, tag, Taken(PortOf(s, w.line), w.phase.ticket, id).value.ticket, id);
      }
    }
  }

  lemma {:induction false} NobodyActive(t: Topology, s: Pipeline, site: nat, instance: nat)
    requires site < |t.sites| && Admits(t, s, site, instance) && OneAtATime(t, Retrying(site, instance))
    ensures Empty(s.workers, Retrying(site, instance)) && Retrying(site, instance) !in s.stopped
  {
    var active := ActiveOn(s, Retrying(site, instance));
    assert |active| == 0;
    forall a | a in s.workers ensures s.workers[a].line != Retrying(site, instance) {
      assert a !in active;
    }
  }

  lemma {:induction false} DeliverKeepsFile(t: Topology, s: Pipeline, step: Step, line: Line)
    requires Numbered(s) && step.Deliver? && OneAtATime(t, line) && SingleFile(s, line)
    ensures SingleFile(Apply(t, s, step), line)
  {
    hide Apply, PortOf, Queues, SingleFile, Admits, Serves;
    var s' := Apply(t, s, step);
    if s' != s {
      DeliverCases(t, s, step);
      if line == Retrying(step.site, step.instance) {
        NobodyActive(t, s, step.site, step.instance);
        NewcomerStaysInFile(s, s', line, s.nextTag);
      } else {
        SamePortsKeepQueue(s, s', line);
        UntouchedStaysInFile(s, s', line);
      }
    }
  }

  lemma {:induction false} RetryIs(t: Topology, s: Pipeline, tag: nat)
    ensures Apply(t, s, AwaitRetry(tag)) == DoAwaitRetry(s, tag) && Apply(t, s, LearnRetry(tag)) == DoLearnRetry(s, tag)
  {
  }

  lemma {:induction false} WorkerKeepsFile(t: Topology, s: Pipeline, step: Step, line: Line)
    requires Linked(s) && Linked(Apply(t, s, step)) && SingleFile(s, line)
    requires step.Check? || step.Transact? || RetryStep(step)
    ensures SingleFile(Apply(t, s, step), line)
  {
    hide Apply, Linked, SingleFile, WorkersKept, StopsWith, DoAwaitRetry, DoLearnRetry;
    WorkersActInTurn(t, s, step);
    if step.tag !in s.workers || s.workers[step.tag].line != line {
      ElsewhereKeepsFile(t, s, step, line);
    } else if step.Recover? {
      RecoverKeepsFile(t, s, step);
    } else if step.AwaitRetry? {
      RetryIs(t, s, step.tag);
      AwaitRetryKeepsFile(s, step.tag);
    } else if step.LearnRetry? {
      RetryIs(t, s, step.tag);
      LearnRetryKeepsFile(s, step.tag);
    } else {
      IdleStepKeepsFile(t, s, step);
    }
  }

  lemma {:induction false} StepKeepsFiles(t: Topology, s: Pipeline, step: Step)
    requires ValidTopology(t) && Inv(t, s) && InFile(t, s)
    ensures InFile(t, Apply(t, s, step))
  {
    hide Apply, Inv, SingleFile, ValidTopology;
    StepKeepsInv(t, s, step);
    InvParts(t, s);
    InvParts(t, Apply(t, s, step));
    hide Linked, Numbered;
    forall line | OneAtATime(t, line) ensures SingleFile(Apply(t, s, step), line) {
      if step.Deliver? {
        DeliverKeepsFile(t, s, step, line);
      } else if step.Check? || step.Transact? || RetryStep(step) {
        WorkerKeepsFile(t, s, step, line);
      } else {
        OthersKeepFile(t, s, step, line);
      }
    }
  }

  lemma {:induction false} StartIsInFile(t: Topology)
    ensures InFile(t, Start)
  {
    forall line | OneAtATime(t, line) ensures SingleFile(Start, line) {
    }
  }

  // Whoever is told of a retry on such a channel is told of its own.
  lemma {:induction false} InFileTellsOwn(t: Topology, s: Pipeline, tag: nat)
    requires Inv(t, s) && HearsRouted(s, tag) && SingleFile(s, s.workers[tag].line)
    ensures PairOf(AnswerCopy(s, s.workers[tag])) == WorkerPair(s.workers[tag])
  {
    var w := s.workers[tag];
    var id := w.delivery.envelope.messageId;
    RoutedAnswer(t, s, tag);
    InvParts(t, s);
    TakenIsLinked(s, w.line, w.phase.ticket, id);
    hide Inv, Taken, PortOf;
    var o := Taken(PortOf(s, w.line), w.phase.ticket, id).value;
    assert Queues(PortOf(s, w.line), o.ticket, id);
    var other :| TurnOf(s, w.line, other, o.ticket);
    assert other == tag;
  }
}
