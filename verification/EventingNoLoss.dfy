// No message is lost while nobody shares a retry channel for it.
module EventingNoLoss {
  import opened EventingModel
  import opened EventingInvariants
  import opened EventingPipeline
  import opened EventingGuarantees
  import opened EventingAccounts

  // --------------------------------------------- who shares a channel for a message

  predicate Waits(w: Worker) { w.phase == Resent || w.phase.RetryAwaited? }

  ghost predicate Queues(port: CP.Port, ticket: nat, id: Uuid) {
    exists o :: o in port.operations && o.ticket == ticket && o.messageId == id
  }

  // A retry of `p` stands in the queue of the channel, taken up or not.
  ghost predicate PostedFor(s: Pipeline, line: Line, id: Uuid, p: Pair) {
    exists ticket :: Queues(PortOf(s, line), ticket, id) && Carries(s.wire, Key(line, ticket), p)
  }

  predicate Carries(wire: map<Key, Passage>, k: Key, p: Pair) {
    k in wire && wire[k].cargo.Again? && PairOf(wire[k].cargo.copy) == p
  }

  // A worker is on its way to hear about its retry of `p` through the channel.
  ghost predicate WaitingFor(s: Pipeline, line: Line, id: Uuid, p: Pair) {
    exists tag :: tag in s.workers && WaitsFor(s.workers[tag], line, id, p)
  }

  predicate WaitsFor(w: Worker, line: Line, id: Uuid, p: Pair) {
    Waits(w) && w.line == line && w.delivery.envelope.messageId == id && WorkerPair(w) == p
  }

  ghost predicate Party(s: Pipeline, line: Line, id: Uuid, p: Pair) {
    PostedFor(s, line, id, p) || WaitingFor(s, line, id, p)
  }

  // All who use one channel for one message id do so for one message and consumer.
  ghost predicate Uniform(s: Pipeline) {
    forall line, id, p, q :: Party(s, line, id, p) && Party(s, line, id, q) ==> p == q
  }

  // A retry goes out only when the channel is used for its message id by nobody
  // else: no other publication of it is unsettled, and no other worker waits.
  ghost predicate Solo(t: Topology, s: Pipeline, step: Step) {
    step.Recover? && step.tag in s.workers && WillResend(t, s.workers[step.tag], step.retryable) ==>
      var w := s.workers[step.tag];
      forall p :: Party(s, w.line, w.delivery.envelope.messageId, p) ==> p == WorkerPair(w)
  }

  ghost predicate SoloRun(t: Topology, s: Pipeline, steps: seq<Step>)
    decreases |steps|
  {
    steps == [] || (SoloRun(t, s, steps[..|steps| - 1]) && Solo(t, Run(t, s, steps[..|steps| - 1]), steps[|steps| - 1]))
  }

  // ----------------------------------------------------- queues and waits shrink

  ghost predicate QueueKept(port: CP.Port, after: CP.Port) {
    forall ticket, id :: Queues(after, ticket, id) ==> Queues(port, ticket, id)
  }

  lemma {:induction false} ClosingKeepsQueue(port: CP.Port)
    requires CP.InOrder(port)
    ensures QueueKept(port, CP.DoFail(port)) && QueueKept(port, CP.Apply(port, CP.Drained)) && QueueKept(port, port)
  {
    CP.AfterFail(port);
    hide CP.DoFail;
  }

  lemma {:induction false} ReturnKeepsQueue(port: CP.Port, ticket: nat)
    requires CP.InOrder(port)
    ensures QueueKept(port, CP.DoReturned(port, ticket))
  {
    hide CP.DoReturned, CP.InOrder;
    CP.AfterReturned(port, ticket);
    var after := CP.DoReturned(port, ticket);
    forall n, id | Queues(after, n, id) ensures Queues(port, n, id) {
      var o :| o in after.operations && o.ticket == n && o.messageId == id;
      assert o in port.operations || o.(returned := false) in port.operations;
    }
  }

  lemma {:induction false} AnswerKeepsQueue(port: CP.Port, ticket: nat, refused: bool)
    requires CP.InOrder(port)
    ensures QueueKept(port, Answer(port, ticket, refused))
  {
    hide CP.DoSettled, CP.DoResume, CP.InOrder;
    CP.AfterSettled(port, ticket, refused);
    if refused {
      CP.AfterResume(CP.DoSettled(port, ticket, true), ticket);
    }
    var after := Answer(port, ticket, refused);
    forall n, id | Queues(after, n, id) ensures Queues(port, n, id) {
      var o :| o in after.operations && o.ticket == n && o.messageId == id;
      assert o in port.operations || o.(status := CP.Waiting) in port.operations;
    }
  }

  lemma {:induction false} WaitKeepsQueue(port: CP.Port)
    requires CP.InOrder(port)
    ensures QueueKept(port, Wait(port).0)
  {
    CP.AfterClaim(port);
    var next := CP.NextClaim(port);
    if next.Some? {
      CP.AfterResume(CP.DoClaim(port), next.value);
    }
    hide CP.DoClaim, CP.DoResume, CP.NextClaim, CP.InOrder;
    var after := Wait(port).0;
    forall n, id | Queues(after, n, id) ensures Queues(port, n, id) {
      var o :| o in after.operations && o.ticket == n && o.messageId == id;
      assert o in port.operations || o.(claimed := false) in port.operations;
    }
  }

  lemma {:induction false} AskKeepsQueue(s: Pipeline, asked: Line, ticket: nat, id: Uuid, line: Line)
    requires CP.InOrder(PortOf(s, asked))
    ensures QueueKept(PortOf(s, line), PortOf(Ask(s, asked, ticket, id), line))
  {
    var port := PortOf(s, asked);
    if Taken(port, ticket, id).Some? {
      CP.AfterTake(port, id);
      hide CP.DoTake, CP.InOrder, CP.TakeIndex;
    }
  }

  lemma {:induction false} PostAddsToQueue(s: Pipeline, posted: Line, cargo: Cargo, writable: bool, line: Line, ticket: nat, id: Uuid)
    requires CP.InOrder(PortOf(s, posted)) && Queues(PortOf(Post(s, posted, cargo, writable), line), ticket, id)
    ensures Queues(PortOf(s, line), ticket, id) || (line == posted && ticket == PortOf(s, line).nextTicket && id == CargoId(cargo))
  {
    CP.AfterPublish(PortOf(s, posted), CargoId(cargo), writable, false);
    hide CP.InOrder, CP.DoPublish;
  }

  lemma {:induction false} PortInOrder(s: Pipeline, line: Line)
    requires Linked(s)
    ensures CP.InOrder(PortOf(s, line))
  {
    hide CP.InOrder, OpLinked;
    PortIsLinked(s, line);
    assert PortLinked(PortOf(s, line), s.wire, line);
  }

  lemma {:induction false} SamePortsKeepQueue(s: Pipeline, s': Pipeline, line: Line)
    requires s'.ports == s.ports
    ensures QueueKept(PortOf(s, line), PortOf(s', line))
  {
  }

  // One channel changed.
  lemma {:induction false} OnePortKeepsQueue(s: Pipeline, s': Pipeline, changed: Line, port: CP.Port, line: Line)
    requires s'.ports == s.ports[changed := port] && QueueKept(PortOf(s, changed), port)
    ensures QueueKept(PortOf(s, line), PortOf(s', line))
  {
    hide Queues;
  }

  lemma {:induction false} AnswersKeepQueue(t: Topology, s: Pipeline, step: Step, line: Line)
    requires Linked(s) && (step.Return? || step.Settle?)
    ensures QueueKept(PortOf(s, line), PortOf(Apply(t, s, step), line))
  {
    hide QueueKept, Linked, CP.DoReturned, CP.InOrder, Answer, PortOf, Bound;
    var s', key := Apply(t, s, step), step.key;
    SamePortsKeepQueue(s, s, line);
    PortInOrder(s, key.line);
    if step.Return? {
      ReturnKeepsQueue(PortOf(s, key.line), key.ticket);
      if s' != s { OnePortKeepsQueue(s, s', key.line, CP.DoReturned(PortOf(s, key.line), key.ticket), line); }
    } else {
      AnswerKeepsQueue(PortOf(s, key.line), key.ticket, step.refused);
      if s' != s { OnePortKeepsQueue(s, s', key.line, Answer(PortOf(s, key.line), key.ticket, step.refused), line); }
    }
  }

  lemma {:induction false} BrokerKeepsQueue(t: Topology, s: Pipeline, step: Step, line: Line)
    requires Linked(s) && (step.Accept? || ChannelEvent(step))
    ensures QueueKept(PortOf(s, line), PortOf(Apply(t, s, step), line))
  {
    var s' := Apply(t, s, step);
    if step.Return? || step.Settle? {
      hide Apply;
      AnswersKeepQueue(t, s, step, line);
    } else if step.Accept? {
      hide DoAccept, QueueKept;
      AcceptEffect(t, s, step.key);
      SamePortsKeepQueue(s, s', line);
    } else {
      hide QueueKept, Linked, CP.DoFail, CP.Apply, CP.InOrder, PortOf;
      PortInOrder(s, step.line);
      ClosingKeepsQueue(PortOf(s, step.line));
      OnePortKeepsQueue(s, s', step.line, if step.Drained? then CP.Apply(PortOf(s, step.line), CP.Drained) else CP.DoFail(PortOf(s, step.line)), line);
    }
  }

  lemma {:induction false} WaitingKeepsQueue(s: Pipeline, token: Token, tag: nat, line: Line)
    requires Linked(s)
    ensures QueueKept(PortOf(s, line), PortOf(DoAwait(s, token), line)) && QueueKept(PortOf(s, line), PortOf(DoAwaitRetry(s, tag), line))
  {
    hide QueueKept, Linked, CP.InOrder, PortOf, Wait;
    SamePortsKeepQueue(s, s, line);
    if token in s.publications && s.publications[token].phase.Sending? {
      var asked := Outgoing(s.publications[token].phase.publisher);
      PortInOrder(s, asked);
      WaitKeepsQueue(PortOf(s, asked));
      OnePortKeepsQueue(s, DoAwait(s, token), asked, Wait(PortOf(s, asked)).0, line);
    }
    if tag in s.workers && s.workers[tag].phase == Resent {
      var asked := s.workers[tag].line;
      PortInOrder(s, asked);
      WaitKeepsQueue(PortOf(s, asked));
      OnePortKeepsQueue(s, DoAwaitRetry(s, tag), asked, Wait(PortOf(s, asked)).0, line);
    }
  }

  lemma {:induction false} AskingKeepsQueue(s: Pipeline, token: Token, tag: nat, line: Line)
    requires Linked(s)
    ensures QueueKept(PortOf(s, line), PortOf(DoLearn(s, token), line)) && QueueKept(PortOf(s, line), PortOf(DoLearnRetry(s, tag), line))
  {
    hide QueueKept, Linked, CP.InOrder, PortOf, Ask, Answered, ToldRouted;
    SamePortsKeepQueue(s, s, line);
    if token in s.publications && s.publications[token].phase.Awaiting? {
      var phase, id := s.publications[token].phase, s.publications[token].row.envelope.messageId;
      PortInOrder(s, Outgoing(phase.publisher));
      AskKeepsQueue(s, Outgoing(phase.publisher), phase.ticket, id, line);
      SamePorts(Ask(s, Outgoing(phase.publisher), phase.ticket, id), DoLearn(s, token), line);
    }
    if tag in s.workers && s.workers[tag].phase.RetryAwaited? {
      var w := s.workers[tag];
      PortInOrder(s, w.line);
      AskKeepsQueue(s, w.line, w.phase.ticket, w.delivery.envelope.messageId, line);
      SamePorts(Ask(s, w.line, w.phase.ticket, w.delivery.envelope.messageId), DoLearnRetry(s, tag), line);
    }
  }

  lemma {:induction false} SamePorts(s: Pipeline, s': Pipeline, line: Line)
    ensures s'.ports == s.ports ==> PortOf(s', line) == PortOf(s, line)
  {
  }

  lemma {:induction false} QuietStepsKeepQueue(t: Topology, s: Pipeline, step: Step, line: Line)
    requires Linked(s) && !step.Send? && !step.Recover?
    ensures QueueKept(PortOf(s, line), PortOf(Apply(t, s, step), line))
  {
    hide QueueKept, Linked, PortOf, DoAwait, DoAwaitRetry, DoLearn, DoLearnRetry;
    if !ChannelStep(step) {
      OtherStepsLeaveChannels(t, s, step);
      SamePortsKeepQueue(s, Apply(t, s, step), line);
      hide Apply;
    } else if step.Accept? || ChannelEvent(step) {
      BrokerKeepsQueue(t, s, step, line);
      hide Apply;
    } else {
      match step
      case Await(token) => WaitingKeepsQueue(s, token, 0, line);
      case AwaitRetry(tag) => WaitingKeepsQueue(s, 0, tag, line);
      case Learn(token) => AskingKeepsQueue(s, token, 0, line);
      case LearnRetry(tag) => AskingKeepsQueue(s, 0, tag, line);
    }
  }

  // What a retry newly in a queue is, and where it comes from.
  lemma {:induction false} SendAddsToQueue(t: Topology, s: Pipeline, step: Step, line: Line, ticket: nat, id: Uuid)
    requires Linked(s) && step.Send? && Queues(PortOf(Apply(t, s, step), line), ticket, id)
    ensures Queues(PortOf(s, line), ticket, id) || ticket == PortOf(s, line).nextTicket
  {
    hide Queues, Linked, CP.InOrder, PortOf, Post, Takes;
    var s' := Apply(t, s, step);
    SamePorts(s, s', line);
    if step.token in s.publications {
      var posted, cargo := Outgoing(step.publisher), Original(s.publications[step.token].row.envelope);
      PortInOrder(s, posted);
      PostedPorts(s, posted, cargo, step.writable, s', line, ticket, id);
    }
  }

  lemma {:induction false} RecoverAddsToQueue(t: Topology, s: Pipeline, step: Step, line: Line, ticket: nat, id: Uuid)
    requires Linked(s) && step.Recover? && Queues(PortOf(Apply(t, s, step), line), ticket, id)
    ensures Queues(PortOf(s, line), ticket, id) || ticket == PortOf(s, line).nextTicket
  {
    hide Apply, Queues, Linked, CP.InOrder, PortOf, Post, DoRecover;
    var s' := Apply(t, s, step);
    SamePorts(s, s', line);
    RecoverIs(t, s, step.tag, step.retryable, step.writable, step.throws);
    RecoverMovesOneCopy(t, s, step.tag, step.retryable, step.writable, step.throws);
    if step.tag in s.workers {
      var posted, cargo := s.workers[step.tag].line, Again(NextTry(s.workers[step.tag]));
      PortInOrder(s, posted);
      PostedPorts(s, posted, cargo, step.writable, s', line, ticket, id);
    }
  }

  lemma {:induction false} PostedPorts(s: Pipeline, posted: Line, cargo: Cargo, writable: bool, s': Pipeline, line: Line, ticket: nat, id: Uuid)
    requires CP.InOrder(PortOf(s, posted)) && Queues(PortOf(s', line), ticket, id)
    ensures s'.ports == Post(s, posted, cargo, writable).ports ==> Queues(PortOf(s, line), ticket, id) || ticket == PortOf(s, line).nextTicket
  {
    hide Queues, CP.InOrder, Post, PortOf;
    var after := Post(s, posted, cargo, writable);
    SamePorts(after, s', line);
    if s'.ports == after.ports {
      PostAddsToQueue(s, posted, cargo, writable, line, ticket, id);
    }
  }

  lemma {:induction false} NextTicketIsFree(s: Pipeline, line: Line)
    requires Linked(s)
    ensures Key(line, PortOf(s, line).nextTicket) !in s.wire
  {
    hide CP.InOrder, OpLinked;
    PortIsLinked(s, line);
  }

  lemma {:induction false} QueuedIsOnWire(s: Pipeline, line: Line, ticket: nat, id: Uuid)
    requires Linked(s) && Queues(PortOf(s, line), ticket, id)
    ensures Key(line, ticket) in s.wire && CargoId(s.wire[Key(line, ticket)].cargo) == id
  {
    hide CP.InOrder;
    PortIsLinked(s, line);
  }

  // A step starts no retry other than its own.
  lemma {:induction false} PostsShrink(t: Topology, s: Pipeline, step: Step, line: Line, id: Uuid, p: Pair)
    requires Linked(s) && Linked(Apply(t, s, step)) && PostedFor(Apply(t, s, step), line, id, p)
    ensures PostedFor(s, line, id, p) || OwnPost(t, s, step, line, id, p)
  {
    hide Apply, Queues, Linked, PortOf, WillRetry, CanResend;
    var s' := Apply(t, s, step);
    var ticket :| Queues(PortOf(s', line), ticket, id) && Carries(s'.wire, Key(line, ticket), p);
    QueuedIsOnWire(s', line, ticket, id);
    NextTicketIsFree(s, line);
    if step.Send? {
      SendAddsToWire(t, s, step);
      SendAddsToQueue(t, s, step, line, ticket, id);
    } else if step.Recover? {
      RecoverAddsToWire(t, s, step);
      RecoverAddsToQueue(t, s, step, line, ticket, id);
    } else {
      OtherStepsKeepWire(t, s, step);
      QuietStepsKeepQueue(t, s, step, line);
    }
    if Queues(PortOf(s, line), ticket, id) {
      QueuedIsOnWire(s, line, ticket, id);
      assert Carries(s.wire, Key(line, ticket), p);
    }
  }

  ghost predicate OwnPost(t: Topology, s: Pipeline, step: Step, line: Line, id: Uuid, p: Pair) {
    && step.Recover? && step.tag in s.workers && WillResend(t, s.workers[step.tag], step.retryable)
    && line == s.workers[step.tag].line && id == s.workers[step.tag].delivery.envelope.messageId && p == WorkerPair(s.workers[step.tag])
  }

  // Only a retry of its own sets a worker waiting.
  lemma {:induction false} RecoverSetsWaiting(t: Topology, s: Pipeline, step: Step)
    requires step.Recover? && step.tag in Apply(t, s, step).workers && step.tag in s.workers && Waits(Apply(t, s, step).workers[step.tag])
    ensures Waits(s.workers[step.tag]) || WillResend(t, s.workers[step.tag], step.retryable)
  {
    hide PortOf, Takes, WillRetry, CanResend;
  }

  lemma {:induction false} CheckSetsNobodyWaiting(t: Topology, s: Pipeline, tag: nat, fails: bool)
    requires tag in s.workers && tag in DoCheck(t, s, tag, fails).workers && Waits(DoCheck(t, s, tag, fails).workers[tag])
    ensures Waits(s.workers[tag])
  {
    hide Checked;
    if s.workers[tag].delivery.consumer in t.handlers {
      CheckedLeavesOutbox(t, s.db, s.workers[tag].delivery, t.handlers[s.workers[tag].delivery.consumer], fails);
    }
  }

  lemma {:induction false} WaitersAct(t: Topology, s: Pipeline, step: Step)
    requires step.Transact? || step.Ack? || step.AckThrows? || step.AwaitRetry? || step.LearnRetry? || step.WorkerCrash?
    requires step.tag in Apply(t, s, step).workers && step.tag in s.workers && Waits(Apply(t, s, step).workers[step.tag])
    ensures Waits(s.workers[step.tag])
  {
    hide PortOf, Answered, ToldRouted, Ask, Wait, InboxTransaction;
    if step.LearnRetry? && s.workers[step.tag].phase.RetryAwaited? {
      var w := s.workers[step.tag];
      AskLeavesOthers(s, w.line, w.phase.ticket, w.delivery.envelope.messageId);
    }
  }

  lemma {:induction false} DeliveredDoNotWait(t: Topology, s: Pipeline, step: Step, tag: nat)
    requires step.Deliver? && Numbered(s) && tag in Apply(t, s, step).workers && Waits(Apply(t, s, step).workers[tag])
    ensures tag in s.workers && s.workers[tag] == Apply(t, s, step).workers[tag]
  {
    hide Apply, Serves, Admits;
    if Apply(t, s, step) != s {
      DeliverCases(t, s, step);
    }
  }

  lemma {:induction false} WaiterWaited(t: Topology, s: Pipeline, step: Step, tag: nat)
    requires Numbered(s) && tag in Apply(t, s, step).workers && Waits(Apply(t, s, step).workers[tag])
    ensures tag in s.workers && Apply(t, s, step).workers[tag] == s.workers[tag].(phase := Apply(t, s, step).workers[tag].phase)
    ensures Waits(s.workers[tag]) || (step.Recover? && step.tag == tag && WillResend(t, s.workers[tag], step.retryable))
  {
    hide Apply, Numbered, WillRetry, CanResend, DoCheck;
    var s' := Apply(t, s, step);
    if step.Deliver? {
      DeliveredDoNotWait(t, s, step, tag);
    } else {
      StepKeepsDeliveries(t, s, step);
      if s'.workers[tag] != s.workers[tag] {
        if step.Recover? {
          RecoverSetsWaiting(t, s, step);
        } else if step.Check? {
          CheckIs(t, s, step.tag, step.fails);
          CheckSetsNobodyWaiting(t, s, tag, step.fails);
        } else {
          WaitersAct(t, s, step);
        }
      }
    }
  }

  lemma {:induction false} WaitsShrink(t: Topology, s: Pipeline, step: Step, line: Line, id: Uuid, p: Pair)
    requires Numbered(s) && WaitingFor(Apply(t, s, step), line, id, p)
    ensures WaitingFor(s, line, id, p) || OwnPost(t, s, step, line, id, p)
  {
    hide Apply, Numbered, WillRetry, CanResend;
    var s' := Apply(t, s, step);
    var tag :| tag in s'.workers && WaitsFor(s'.workers[tag], line, id, p);
    WaiterWaited(t, s, step, tag);
    assert Waits(s.workers[tag]) ==> WaitsFor(s.workers[tag], line, id, p);
  }

  lemma {:induction false} StepKeepsUniform(t: Topology, s: Pipeline, step: Step)
    requires ValidTopology(t) && Inv(t, s) && Uniform(s) && Solo(t, s, step)
    ensures Uniform(Apply(t, s, step))
  {
    hide Apply, Inv, PostedFor, WaitingFor, ValidTopology, WillRetry, CanResend;
    InvParts(t, s);
    StepKeepsInv(t, s, step);
    InvParts(t, Apply(t, s, step));
    hide Linked, Numbered;
    var s' := Apply(t, s, step);
    forall line, id, p, q | Party(s', line, id, p) && Party(s', line, id, q) ensures p == q {
      PartiesShrink(t, s, step, line, id, p);
      PartiesShrink(t, s, step, line, id, q);
    }
  }

  lemma {:induction false} PartiesShrink(t: Topology, s: Pipeline, step: Step, line: Line, id: Uuid, p: Pair)
    requires Linked(s) && Linked(Apply(t, s, step)) && Numbered(s) && Party(Apply(t, s, step), line, id, p)
    ensures Party(s, line, id, p) || OwnPost(t, s, step, line, id, p)
  {
    hide Apply, Linked, Numbered, PostedFor, WaitingFor, OwnPost;
    if PostedFor(Apply(t, s, step), line, id, p) {
      PostsShrink(t, s, step, line, id, p);
    } else {
      WaitsShrink(t, s, step, line, id, p);
    }
  }

  // Where all who use a channel for a message id agree, every answer is fair.
  lemma {:induction false} UniformMeansFair(t: Topology, s: Pipeline, step: Step, a: Account)
    requires Inv(t, s) && Uniform(s)
    ensures FairAnswer(t, s, step, a)
  {
    if step.LearnRetry? && HearsRouted(s, step.tag) {
      var w := s.workers[step.tag];
      var id := w.delivery.envelope.messageId;
      RoutedAnswer(t, s, step.tag);
      InvParts(t, s);
      TakenIsLinked(s, w.line, w.phase.ticket, id);
      hide Inv, Uniform, Taken, PortOf;
      var o, told := Taken(PortOf(s, w.line), w.phase.ticket, id).value, PairOf(AnswerCopy(s, w));
      assert Queues(PortOf(s, w.line), o.ticket, id);
      assert Carries(s.wire, Key(w.line, o.ticket), told);
      assert PostedFor(s, w.line, id, told);
      assert WaitsFor(w, w.line, id, WorkerPair(w));
      assert WaitingFor(s, w.line, id, WorkerPair(w));
      PartiesAgree(s, w.line, id, told, WorkerPair(w));
    }
  }

  lemma {:induction false} PartiesAgree(s: Pipeline, line: Line, id: Uuid, p: Pair, q: Pair)
    requires Uniform(s) && Party(s, line, id, p) && Party(s, line, id, q)
    ensures p == q
  {
  }

  // ------------------------------------------------------------------- no loss

  lemma {:induction false} StartIsKept(t: Topology, a: Account)
    ensures Inv(t, Start) && Books(t, Start, a) && Uniform(Start)
  {
  }

  lemma {:induction false} SoloRunStaysUniform(t: Topology, s: Pipeline, steps: seq<Step>)
    requires ValidTopology(t) && Inv(t, s) && Uniform(s) && SoloRun(t, s, steps)
    ensures Inv(t, Run(t, s, steps)) && Uniform(Run(t, s, steps))
    decreases |steps|
  {
    hide Inv, Uniform, Solo, Apply, ValidTopology;
    if steps != [] {
      var n := |steps| - 1;
      SoloRunStaysUniform(t, s, steps[..n]);
      StepKeepsInv(t, Run(t, s, steps[..n]), steps[n]);
      StepKeepsUniform(t, Run(t, s, steps[..n]), steps[n]);
    }
  }

  lemma {:induction false} SoloRunKeepsBooks(t: Topology, s: Pipeline, steps: seq<Step>, a: Account)
    requires ValidTopology(t) && Inv(t, s) && Uniform(s) && SoloRun(t, s, steps)
    requires Books(t, s, a) && a.pair.consumer in Bound(t, a.pair.envelope)
    ensures Books(t, Run(t, s, steps), a)
    decreases |steps|
  {
    hide Inv, Books, Uniform, Solo, Apply, ValidTopology, FairAnswer, Bound;
    if steps != [] {
      var n := |steps| - 1;
      SoloRunKeepsBooks(t, s, steps[..n], a);
      SoloRunStaysUniform(t, s, steps[..n]);
      var before := Run(t, s, steps[..n]);
      UniformMeansFair(t, before, steps[n], a);
      StepKeepsBooks(t, before, steps[n], a);
    }
  }

  lemma {:induction false} SoloRunSplits(t: Topology, s: Pipeline, a: seq<Step>, b: seq<Step>)
    requires SoloRun(t, s, a + b)
    ensures SoloRun(t, s, a) && SoloRun(t, Run(t, s, a), b)
    decreases |b|
  {
    hide Solo, Apply;
    if b == [] {
      assert a + b == a;
    } else {
      var n := |b| - 1;
      assert (a + b)[..|a + b| - 1] == a + b[..n];
      assert (a + b)[|a + b| - 1] == b[n];
      SoloRunSplits(t, s, a, b[..n]);
      RunSplits(t, s, a, b[..n]);
    }
  }

  // A row marked published is, for every consumer its route reaches, still held
  // by the broker in some copy, or on record at that consumer.
  lemma {:induction false} NoLoss(t: Topology, steps: seq<Step>, id: Uuid, consumer: string)
    requires ValidTopology(t) && SoloRun(t, Start, steps)
    requires id in Run(t, Start, steps).db.outbox && Run(t, Start, steps).db.outbox[id].status == Published
    requires consumer in Bound(t, Run(t, Start, steps).db.outbox[id].envelope)
    ensures var s := Run(t, Start, steps); var e := s.db.outbox[id].envelope;
      || (exists k :: k in s.copies && PairOf(s.copies[k]) == Pair(e, consumer))
      || Recorded(s.db, e, consumer)
  {
    hide Inv, Uniform, SoloRun, Accounted, Recorded, Bound, Run, ValidTopology;
    var s := Run(t, Start, steps);
    var a := Account(Pair(s.db.outbox[id].envelope, consumer), false);
    StartIsKept(t, a);
    SoloRunStaysUniform(t, Start, steps);
    SoloRunKeepsBooks(t, Start, steps, a);
    RowsKnowTheirId(t, s, id);
    AccountedIsHeldOrRecorded(t, s, a);
  }

  lemma {:induction false} RowsKnowTheirId(t: Topology, s: Pipeline, id: Uuid)
    requires Inv(t, s) && id in s.db.outbox
    ensures s.db.outbox[id].envelope.messageId == id
  {
    InvMeansClaimsSound(t, s);
  }

  // An account once open is kept by every continuation, counted wide or not.
  lemma {:induction false} AccountOutlivesRun(t: Topology, s: Pipeline, steps: seq<Step>, a: Account, n: nat)
    requires ValidTopology(t) && Inv(t, s) && Uniform(s) && SoloRun(t, s, steps) && Accounted(t, s, a, n)
    ensures Accounted(t, Run(t, s, steps), a, n)
    decreases |steps|
  {
    hide Inv, Uniform, Solo, Apply, ValidTopology, FairAnswer, Accounted;
    if steps != [] {
      var m := |steps| - 1;
      AccountOutlivesRun(t, s, steps[..m], a, n);
      SoloRunStaysUniform(t, s, steps[..m]);
      var before := Run(t, s, steps[..m]);
      UniformMeansFair(t, before, steps[m], a);
      AccountStays(t, before, steps[m], a, n);
    }
  }

  // The same holds from the moment a publisher hears that the broker confirmed.
  lemma {:induction false} NoLossAfterConfirm(t: Topology, steps: seq<Step>, more: seq<Step>, token: Token, consumer: string)
    requires ValidTopology(t) && SoloRun(t, Start, steps + more)
    requires token in Run(t, Start, steps).publications && Run(t, Start, steps).publications[token].phase == Confirmed
    requires consumer in Bound(t, Run(t, Start, steps).publications[token].row.envelope)
    ensures var s := Run(t, Start, steps + more); var e := Run(t, Start, steps).publications[token].row.envelope;
      || (exists k :: k in s.copies && PairOf(s.copies[k]) == Pair(e, consumer))
      || Recorded(s.db, e, consumer)
  {
    hide Inv, Uniform, SoloRun, Accounted, Recorded, Apply, Run, Bound, ValidTopology;
    SoloRunSplits(t, Start, steps, more);
    RunSplits(t, Start, steps, more);
    var s := Run(t, Start, steps);
    var a := Account(Pair(s.publications[token].row.envelope, consumer), false);
    StartIsKept(t, a);
    SoloRunStaysUniform(t, Start, steps);
    SoloRunKeepsBooks(t, Start, steps, a);
    assert ConfirmedTo(s, a.pair.envelope);
    AccountOutlivesRun(t, s, more, a, 1);
    AccountedIsHeldOrRecorded(t, Run(t, s, more), a);
  }
}
