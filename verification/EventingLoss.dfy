// How a consumer that is exposed loses a message, and that no other does.
module EventingLoss {
  import opened Prelude
  import opened EventingModel
  import opened EventingInvariants
  import opened EventingPipeline
  import opened EventingGuarantees
  import opened EventingAccounts
  import opened EventingExposure

  // ---------------------------------------------------------------- publication

  function Op(id: Uuid, ticket: nat): CP.Operation { CP.Operation(ticket, id, true, CP.Waiting, false) }

  function PortWith(operations: seq<CP.Operation>, next: nat): CP.Port {
    CP.Port(true, false, operations, next, {}, multiset{}, multiset{})
  }

  // A port whose only publication has been confirmed.
  function PortAnswered(id: Uuid): CP.Port {
    CP.Port(true, false, [Op(id, 0).(status := CP.Confirmed)], 1, {0}, multiset{id}, multiset{})
  }

  ghost predicate Stored(db: Store, e: Envelope, status: OutboxStatus) {
    db.inbox == map[] && db.isolations == map[] && e.messageId in db.outbox && db.outbox[e.messageId].envelope == e && db.outbox[e.messageId].status == status
  }

  const Press := Key(Outgoing(0), 0)

  function Submitting(e: Envelope): seq<Step> {
    [if e.Event? then AppendEvent(e) else SubmitJob(e), Claim(e.messageId, 0, e.availableAt, 0), Send(0, 0, true, false), Await(0)]
  }

  const Publishing: seq<Step> := [Accept(Press), Settle(Press, false), Learn(0), MarkDone(0, 0)]

  // A publisher takes up the first publication nobody waits for.
  lemma {:induction false} WaitTakesUp(id: Uuid, before: seq<CP.Operation>, o: CP.Operation)
    requires (before == [] || before == [Op(id, 0)]) && !o.claimed && o.status.Waiting?
    ensures var n := |before| + 1;
      Wait(PortWith(before + [o], n)) == (PortWith(before + [o.(claimed := true)], n), Some(o.ticket))
  {
    var ops := before + [o];
    if before == [Op(id, 0)] {
      assert ops[1..] == [o];
    }
    assert CP.IndexWhere(CP.Unclaimed, ops) == |before|;
    var next := before + [o.(claimed := true)];
    assert ops[|before| := o.(claimed := true)] == next;
    assert forall x :: x in next ==> !CP.RejectedAt(o.ticket)(x);
    assert CP.IndexWhere(CP.RejectedAt(o.ticket), next) == |next|;
  }

  // The message is stored and its row claimed.
  ghost predicate Claimed(s: Pipeline, e: Envelope) {
    var id := e.messageId;
    && Stored(s.db, e, OutboxStatus.Publishing) && s.db.outbox[id].claimToken == Some(0)
    && s == Start.(db := s.db, usedTokens := {0}, latestClaim := map[id := 0], publications := map[0 := Publication(s.db.outbox[id], Held)])
  }

  lemma {:induction false} RowIsClaimed(t: Topology, e: Envelope)
    ensures Claimed(Apply(t, Apply(t, Start, Submitting(e)[0]), Claim(e.messageId, 0, e.availableAt, 0)), e)
  {
    var s1 := Apply(t, Start, Submitting(e)[0]);
    assert s1 == Start.(db := s1.db) && Stored(s1.db, e, Pending) && s1.db.outbox[e.messageId] == NewRow(e);
  }

  // Its publication is on the channel and waited for.
  ghost predicate Pressed(s: Pipeline, e: Envelope) {
    var id := e.messageId;
    && Stored(s.db, e, OutboxStatus.Publishing) && s.db.outbox[id].claimToken == Some(0)
    && s == Start.(db := s.db, usedTokens := {0}, latestClaim := map[id := 0],
         publications := map[0 := Publication(s.db.outbox[id], Awaiting(0, 0))],
         ports := map[Outgoing(0) := PortWith([Op(id, 0)], 1)], wire := map[Press := Passage(Original(e), Sent)])
  }

  lemma {:induction false} RowIsPressed(t: Topology, s: Pipeline, e: Envelope)
    requires Claimed(s, e) && RouteOf(e) in t.routes
    ensures Pressed(Apply(t, Apply(t, s, Send(0, 0, true, false)), Await(0)), e)
  {
    hide Wait;
    var s1 := Apply(t, s, Send(0, 0, true, false));
    var sent := CP.Operation(0, e.messageId, false, CP.Waiting, false);
    assert [] + [sent] == [sent] && [] + [Op(e.messageId, 0)] == [Op(e.messageId, 0)];
    assert CP.DoPublish(CP.Fresh, e.messageId, true, false) == PortWith([sent], 1);
    assert s1.ports == map[Outgoing(0) := PortWith([sent], 1)] && s1.wire == map[Press := Passage(Original(e), Sent)];
    WaitTakesUp(e.messageId, [], sent);
  }

  lemma {:induction false} SubmittingRuns(t: Topology, e: Envelope)
    requires RouteOf(e) in t.routes
    ensures Pressed(Run(t, Start, Submitting(e)), e)
  {
    hide Apply, Claimed, Pressed;
    var steps := Submitting(e);
    FourSteps(t, Start, steps[0], steps[1], steps[2], steps[3]);
    RowIsClaimed(t, e);
    RowIsPressed(t, Apply(t, Apply(t, Start, steps[0]), steps[1]), e);
  }

  // The message is published, and its copies lie in their queues.
  ghost predicate Delivered(t: Topology, s: Pipeline, e: Envelope) {
    && Stored(s.db, e, Published)
    && s.copies == Enqueue(map[], 0, e, 1, Bound(t, e)) && s.workers == map[]
    && s.stopped == {} && s.ports.Keys == {Outgoing(0)}
  }

  lemma {:induction false} PressIsRouted(t: Topology, s: Pipeline, e: Envelope)
    requires Pressed(s, e) && Bound(t, e) != []
    ensures Apply(t, s, Accept(Press)) ==
            s.(copies := Enqueue(map[], 0, e, 1, Bound(t, e)), nextCopy := |Bound(t, e)|, wire := map[Press := Passage(Original(e), Routed)])
  {
    hide Bound, Enqueue, Stored;
  }

  lemma {:induction false} ConfirmArrives(t: Topology, s: Pipeline, k: Key)
    requires k in s.wire && s.wire[k].stage != Sent
    ensures Apply(t, s, Settle(k, false)) == s.(ports := s.ports[k.line := Answer(PortOf(s, k.line), k.ticket, false)])
  {
    hide Answer, PortOf;
  }

  lemma {:induction false} PressIsAnswered(id: Uuid)
    ensures Answer(PortWith([Op(id, 0)], 1), 0, false) == PortAnswered(id)
  {
    assert CP.IndexWhere(CP.HasTicket(0), [Op(id, 0)]) == 0;
    assert [Op(id, 0)][0 := Op(id, 0).(status := CP.Confirmed)] == [Op(id, 0).(status := CP.Confirmed)];
  }

  lemma {:induction false} PressIsSettled(t: Topology, s: Pipeline, id: Uuid)
    requires s.ports == map[Outgoing(0) := PortWith([Op(id, 0)], 1)] && Press in s.wire && s.wire[Press].stage == Routed
    ensures Apply(t, s, Settle(Press, false)) == s.(ports := map[Outgoing(0) := PortAnswered(id)])
  {
    hide Apply, Answer;
    PressIsAnswered(id);
    ConfirmArrives(t, s, Press);
  }

  lemma {:induction false} PublisherHears(t: Topology, s: Pipeline, e: Envelope)
    requires e.messageId in s.db.outbox && s.db.outbox[e.messageId].envelope == e
    requires s.publications == map[0 := Publication(s.db.outbox[e.messageId], Awaiting(0, 0))] && s.ports == map[Outgoing(0) := PortAnswered(e.messageId)]
    ensures var s' := Apply(t, s, Learn(0));
      s' == s.(publications := map[0 := Publication(s.db.outbox[e.messageId], Confirmed)], ports := s'.ports, wire := s'.wire) && s'.ports.Keys == {Outgoing(0)}
  {
    hide Apply, Ask;
    LearnIs(t, s, 0);
    AnswerIsThere(e.messageId);
    AskEffect(s, Outgoing(0), 0, e.messageId);
    AskingKeepsKeys(s, Outgoing(0), 0, e.messageId);
    hide ToldRouted, Answered;
  }

  lemma {:induction false} AnswerIsThere(id: Uuid)
    ensures ToldRouted(PortAnswered(id), 0, id) && Answered(PortAnswered(id), 0)
  {
    var port := PortAnswered(id);
    assert CP.TakeIndex(port, id) == 0;
    assert Taken(port, 0, id) == Some(port.operations[0]);
  }

  lemma {:induction false} AskingKeepsKeys(s: Pipeline, line: Line, ticket: nat, id: Uuid)
    requires line in s.ports
    ensures Ask(s, line, ticket, id).ports.Keys == s.ports.Keys
  {
    hide Taken, CP.DoTake;
  }

  lemma {:induction false} PublisherLearns(t: Topology, s: Pipeline, e: Envelope)
    requires Stored(s.db, e, OutboxStatus.Publishing) && s.db.outbox[e.messageId].claimToken == Some(0)
    requires s.publications == map[0 := Publication(s.db.outbox[e.messageId], Awaiting(0, 0))] && s.ports == map[Outgoing(0) := PortAnswered(e.messageId)]
    ensures var s' := Apply(t, Apply(t, s, Learn(0)), MarkDone(0, 0));
      Stored(s'.db, e, Published) && s'.copies == s.copies && s'.workers == s.workers && s'.stopped == s.stopped && s'.ports.Keys == {Outgoing(0)}
  {
    PublisherHears(t, s, e);
    hide DoLearn;
  }

  lemma {:induction false} PublishingRuns(t: Topology, s: Pipeline, e: Envelope)
    requires Pressed(s, e) && Bound(t, e) != []
    ensures Delivered(t, Run(t, s, Publishing), e)
  {
    hide Apply, Enqueue, Bound;
    FourSteps(t, s, Accept(Press), Settle(Press, false), Learn(0), MarkDone(0, 0));
    PressIsRouted(t, s, e);
    PressIsSettled(t, Apply(t, s, Accept(Press)), e.messageId);
    PublisherLearns(t, Apply(t, Apply(t, s, Accept(Press)), Settle(Press, false)), e);
  }

  // ------------------------------------------------------------- a failed delivery

  // A worker whose consumer could not reach the store.
  function FailedWorker(k: nat, c: Copy, line: Line): Worker {
    Worker(k, EventingModel.Delivery(c.envelope, c.consumer, c.attempt, 0), line, Errored)
  }

  // A delivery that fails, as the worker of the next tag.
  lemma {:induction false} DeliveryFails(t: Topology, s: Pipeline, k: nat, site: nat, n: nat)
    requires k in s.copies && s.copies[k].place == Ready && Serves(t, site, s.copies[k].consumer) && Admits(t, s, site, n)
    requires 1 <= s.copies[k].attempt <= DeliveryPolicy(t.eventPolicy, s.copies[k].envelope).maxAttempts && s.nextTag !in s.workers
    ensures Apply(t, Apply(t, s, Deliver(k, 0, site, n)), Check(s.nextTag, true)) ==
            s.(copies := s.copies[k := s.copies[k].(place := Unacked(s.nextTag))],
               workers := s.workers[s.nextTag := FailedWorker(k, s.copies[k], Retrying(site, n))], nextTag := s.nextTag + 1)
  {
    hide DeliveryPolicy, Admits;
    var c, s1 := s.copies[k], Apply(t, s, Deliver(k, 0, site, n));
    assert s1.workers[s.nextTag] == FailedWorker(k, c, Retrying(site, n)).(phase := Fetched);
    var d := s1.workers[s.nextTag].delivery;
    assert Checked(t, s.db, d, t.handlers[d.consumer], true) == (s.db, Some(Errored)) by { hide Precheck; }
  }

  predicate Fails(t: Topology, e: Envelope, c: Copy) {
    c.envelope == e && c.place == Ready && SendsOn(t, e, c.consumer, c.attempt)
  }

  function Retry(c: Copy): Copy { c.(attempt := c.attempt + 1, place := Delayed) }

  // It sends its copy on.
  lemma {:induction false} RetryIsPosted(t: Topology, s: Pipeline, w: Worker, c: Copy, tag: nat, before: seq<CP.Operation>)
    requires Fails(t, c.envelope, c) && w == FailedWorker(w.copyId, c, w.line)
    requires tag in s.workers && s.workers[tag] == w && PortOf(s, w.line) == PortWith(before, |before|)
    ensures Apply(t, s, Recover(tag, true, true, false)) ==
            s.(workers := s.workers[tag := w.(phase := Resent)],
               ports := s.ports[w.line := PortWith(before + [CP.Operation(|before|, c.envelope.messageId, false, CP.Waiting, false)], |before| + 1)],
               wire := s.wire[Key(w.line, |before|) := Passage(Again(Retry(c)), Sent)])
  {
    hide DeliveryPolicy, PortOf, HasLayer, Served;
    var n, id := |before|, c.envelope.messageId;
    assert CP.DoPublish(PortOf(s, w.line), id, true, false) == PortWith(before + [CP.Operation(n, id, false, CP.Waiting, false)], n + 1);
    assert WillResend(t, w, true) && Takes(PortOf(s, w.line), false);
    hide CP.DoPublish, WillResend, Takes, SendsOn;
  }

  // And waits for it.
  lemma {:induction false} RetryIsAwaited(t: Topology, s: Pipeline, w: Worker, tag: nat, id: Uuid, before: seq<CP.Operation>)
    requires tag in s.workers && s.workers[tag] == w.(phase := Resent) && (before == [] || before == [Op(id, 0)])
    requires PortOf(s, w.line) == PortWith(before + [CP.Operation(|before|, id, false, CP.Waiting, false)], |before| + 1)
    ensures Apply(t, s, AwaitRetry(tag)) ==
            s.(workers := s.workers[tag := w.(phase := RetryAwaited(|before|))],
               ports := s.ports[w.line := PortWith(before + [Op(id, |before|)], |before| + 1)])
  {
    hide Wait, PortOf;
    WaitTakesUp(id, before, CP.Operation(|before|, id, false, CP.Waiting, false));
  }

  lemma {:induction false} RetryGoesOut(t: Topology, s: Pipeline, w: Worker, c: Copy, tag: nat, before: seq<CP.Operation>)
    requires Fails(t, c.envelope, c) && w == FailedWorker(w.copyId, c, w.line)
    requires tag in s.workers && s.workers[tag] == w && PortOf(s, w.line) == PortWith(before, |before|)
    requires before == [] || before == [Op(c.envelope.messageId, 0)]
    ensures Apply(t, Apply(t, s, Recover(tag, true, true, false)), AwaitRetry(tag)) ==
            s.(workers := s.workers[tag := w.(phase := RetryAwaited(|before|))],
               ports := s.ports[w.line := PortWith(before + [Op(c.envelope.messageId, |before|)], |before| + 1)],
               wire := s.wire[Key(w.line, |before|) := Passage(Again(Retry(c)), Sent)])
  {
    hide Apply, Fails;
    RetryIsPosted(t, s, w, c, tag, before);
    RetryIsAwaited(t, Apply(t, s, Recover(tag, true, true, false)), w, tag, c.envelope.messageId, before);
  }

  lemma {:induction false} RetryIsRouted(t: Topology, s: Pipeline, k: Key, c: Copy)
    requires k in s.wire && s.wire[k] == Passage(Again(c), Sent)
    ensures Apply(t, s, Accept(k)) == s.(copies := s.copies[s.nextCopy := c], nextCopy := s.nextCopy + 1, wire := s.wire[k := Passage(Again(c), Routed)])
  {
  }

  // A worker dies with its adapter, and its copy goes back to its queue.
  lemma {:induction false} CrashRequeues(t: Topology, s: Pipeline, tag: nat, w: Worker, c: Copy)
    requires tag in s.workers && s.workers[tag] == w && w.copyId in s.copies && s.copies[w.copyId] == c.(place := Unacked(tag)) && c.place == Ready
    ensures Apply(t, Apply(t, s, WorkerCrash(tag)), ConnectionLost(w.copyId)) ==
            s.(copies := s.copies[w.copyId := c], workers := s.workers - {tag}, stopped := s.stopped + {w.line})
  {
  }

  // ------------------------------------------------------------- between the acts

  // The message is published and on no record, nobody works, no adapter has run
  // with number `n` or above, and the consumer can send on all its copies.
  ghost predicate Calm(t: Topology, s: Pipeline, p: Pair, n: nat) {
    && Inv(t, s) && Stored(s.db, p.envelope, Published) && s.workers == map[]
    && (forall line: Line :: line.Retrying? && line.instance >= n ==> line !in s.ports && line !in s.stopped)
    && (forall k :: k in s.copies && CountsFor(t, Account(p, true), s.copies[k]) ==> Fails(t, p.envelope, s.copies[k]) && s.copies[k].consumer == p.consumer)
  }

  // What one act leaves of the adapters: number `n` has run.
  ghost predicate After(s: Pipeline, s': Pipeline, n: nat) {
    && s'.db == s.db && s'.workers == map[]
    && (forall line: Line :: line.Retrying? && line.instance > n && line !in s.ports && line !in s.stopped ==> line !in s'.ports && line !in s'.stopped)
  }

  lemma {:induction false} RoomForOne(t: Topology, s: Pipeline, site: nat, n: nat)
    requires ValidTopology(t) && site < |t.sites| && Retrying(site, n) !in s.stopped && s.workers == map[]
    ensures Admits(t, s, site, n)
  {
    assert ActiveOn(s, Retrying(site, n)) == {};
  }

  lemma {:induction false} RoomForTwo(t: Topology, s: Pipeline, site: nat, n: nat, tag: nat)
    requires site < |t.sites| && t.sites[site].concurrency >= 2 && Retrying(site, n) !in s.stopped && s.workers.Keys == {tag}
    ensures Admits(t, s, site, n)
  {
    var active := ActiveOn(s, Retrying(site, n));
    assert active <= {tag};
    SubsetSize(active, {tag});
  }

  lemma {:induction false} FreshPort(s: Pipeline, line: Line)
    ensures line !in s.ports ==> PortOf(s, line) == PortWith([], 0)
  {
  }

  function Sending(k: nat, tag: nat, site: nat, n: nat): seq<Step> {
    [Deliver(k, 0, site, n), Check(tag, true), Recover(tag, true, true, false), AwaitRetry(tag)]
  }

  // A delivery fails, and its retry is on the channel, behind at most one other.
  lemma {:induction false} SendingRuns(t: Topology, s: Pipeline, k: nat, site: nat, n: nat, before: seq<CP.Operation>)
    requires k in s.copies && Fails(t, s.copies[k].envelope, s.copies[k]) && Serves(t, site, s.copies[k].consumer) && Admits(t, s, site, n)
    requires s.nextTag !in s.workers && PortOf(s, Retrying(site, n)) == PortWith(before, |before|)
    requires before == [] || before == [Op(s.copies[k].envelope.messageId, 0)]
    ensures var c, tag, line := s.copies[k], s.nextTag, Retrying(site, n);
      Run(t, s, Sending(k, tag, site, n)) ==
      s.(copies := s.copies[k := c.(place := Unacked(tag))], workers := s.workers[tag := FailedWorker(k, c, line).(phase := RetryAwaited(|before|))], nextTag := tag + 1,
         ports := s.ports[line := PortWith(before + [Op(c.envelope.messageId, |before|)], |before| + 1)], wire := s.wire[Key(line, |before|) := Passage(Again(Retry(c)), Sent)])
  {
    hide Run, Apply, Admits, PortOf, Fails;
    var c, tag := s.copies[k], s.nextTag;
    FourSteps(t, s, Deliver(k, 0, site, n), Check(tag, true), Recover(tag, true, true, false), AwaitRetry(tag));
    FailsSoon(t, c);
    DeliveryFails(t, s, k, site, n);
    var s1 := Apply(t, Apply(t, s, Deliver(k, 0, site, n)), Check(tag, true));
    SamePort(s, s1, Retrying(site, n));
    RetryGoesOut(t, s1, FailedWorker(k, c, Retrying(site, n)), c, tag, before);
  }

  lemma {:induction false} SamePort(s: Pipeline, s': Pipeline, line: Line)
    ensures s'.ports == s.ports ==> PortOf(s', line) == PortOf(s, line)
  {
  }

  // --------------------------------------------------------- the message moves on

  // The first act of an adapter that has not run.
  ghost predicate FirstSent(s: Pipeline, s': Pipeline, k: nat, c: Copy, line: Line) {
    var tag := s.nextTag;
    && s'.db == s.db && s'.nextCopy == s.nextCopy && s'.nextCopy !in s'.copies && s'.stopped == s.stopped && s'.nextTag == tag + 1
    && s'.copies == s.copies[k := c.(place := Unacked(tag))] && s'.copies[k := c] == s.copies && c.place == Ready
    && s'.workers == map[tag := FailedWorker(k, c, line).(phase := RetryAwaited(0))]
    && s'.ports == s.ports[line := PortWith([Op(c.envelope.messageId, 0)], 1)]
    && Key(line, 0) in s'.wire && s'.wire[Key(line, 0)] == Passage(Again(Retry(c)), Sent)
  }

  lemma {:induction false} FirstIsSent(t: Topology, s: Pipeline, k: nat, site: nat, n: nat)
    requires ValidTopology(t) && Numbered(s) && s.workers == map[] && Retrying(site, n) !in s.ports && Retrying(site, n) !in s.stopped
    requires k in s.copies && Fails(t, s.copies[k].envelope, s.copies[k]) && Serves(t, site, s.copies[k].consumer)
    ensures FirstSent(s, Run(t, s, Sending(k, s.nextTag, site, n)), k, s.copies[k], Retrying(site, n))
  {
    hide Run, Admits, PortOf, Fails;
    RoomForOne(t, s, site, n);
    FreshPort(s, Retrying(site, n));
    FailsSoon(t, s.copies[k]);
    SendingRuns(t, s, k, site, n, []);
    assert [] + [Op(s.copies[k].envelope.messageId, 0)] == [Op(s.copies[k].envelope.messageId, 0)];
  }

  function ComingBack(s: Pipeline, k: nat, line: Line): seq<Step> {
    [Accept(Key(line, 0)), WorkerCrash(s.nextTag), ConnectionLost(k), DelayOver(s.nextCopy)]
  }

  function Forwarding(s: Pipeline, k: nat, site: nat, n: nat): seq<Step> {
    Sending(k, s.nextTag, site, n) + ComingBack(s, k, Retrying(site, n))
  }

  // A delivery fails, its retry is routed, and the adapter dies before it has been
  // told: the copy is in its queue again, and the retry comes back in the end.
  lemma {:induction false} Forwards(t: Topology, s: Pipeline, k: nat, site: nat, n: nat)
    requires ValidTopology(t) && Numbered(s) && s.workers == map[] && Retrying(site, n) !in s.ports && Retrying(site, n) !in s.stopped
    requires k in s.copies && Fails(t, s.copies[k].envelope, s.copies[k]) && Serves(t, site, s.copies[k].consumer)
    ensures var s', c := Run(t, s, Forwarding(s, k, site, n)), s.copies[k];
      After(s, s', n) && s'.copies == Enqueue(s.copies, s.nextCopy + 1, c.envelope, c.attempt + 1, Reach(t, c.consumer))
  {
    hide Run, Reach, Enqueue, Fails, ValidTopology, Sending, ComingBack, Serves, After, Numbered, FirstSent;
    FirstIsSent(t, s, k, site, n);
    RoutedAndBack(t, s, Run(t, s, Sending(k, s.nextTag, site, n)), k, s.copies[k], site, n);
    RunSplits(t, s, Sending(k, s.nextTag, site, n), ComingBack(s, k, Retrying(site, n)));
  }

  lemma {:induction false} RoutedAndBack(t: Topology, s: Pipeline, s1: Pipeline, k: nat, c: Copy, site: nat, n: nat)
    requires FirstSent(s, s1, k, c, Retrying(site, n))
    ensures var s' := Run(t, s1, ComingBack(s, k, Retrying(site, n)));
      After(s, s', n) && s'.copies == Enqueue(s.copies, s.nextCopy + 1, c.envelope, c.attempt + 1, Reach(t, c.consumer))
  {
    hide Run, Apply, Reach, Enqueue, After, FirstSent;
    var tag, line := s.nextTag, Retrying(site, n);
    FourSteps(t, s1, Accept(Key(line, 0)), WorkerCrash(tag), ConnectionLost(k), DelayOver(s.nextCopy));
    var s3 := Apply(t, Apply(t, Apply(t, s1, Accept(Key(line, 0))), WorkerCrash(tag)), ConnectionLost(k));
    RoutedAndDown(t, s, s1, k, c, line);
    ExpireIs(t, s3, s.nextCopy);
    OneAdapterRan(s, Apply(t, s3, DelayOver(s.nextCopy)), site, n);
  }

  lemma {:induction false} RoutedAndDown(t: Topology, s: Pipeline, s1: Pipeline, k: nat, c: Copy, line: Line)
    requires FirstSent(s, s1, k, c, line)
    ensures var s' := Apply(t, Apply(t, Apply(t, s1, Accept(Key(line, 0))), WorkerCrash(s.nextTag)), ConnectionLost(k));
      && s'.db == s.db && s'.workers == map[] && s'.nextCopy == s.nextCopy + 1 && s.nextCopy in s'.copies && s'.copies[s.nextCopy] == Retry(c)
      && s'.copies - {s.nextCopy} == s.copies && s'.ports.Keys == s.ports.Keys + {line} && s'.stopped == s.stopped + {line}
  {
    hide Apply, PortWith;
    var tag := s.nextTag;
    RetryIsRouted(t, s1, Key(line, 0), Retry(c));
    var s2 := Apply(t, s1, Accept(Key(line, 0)));
    CrashRequeues(t, s2, tag, s1.workers[tag], c);
    var s3 := Apply(t, Apply(t, s2, WorkerCrash(tag)), ConnectionLost(k));
    assert s3.copies == s1.copies[s.nextCopy := Retry(c)][k := c];
    assert s3.copies - {s.nextCopy} == s1.copies[k := c];
  }

  lemma {:induction false} OneAdapterRan(s: Pipeline, s': Pipeline, site: nat, n: nat)
    requires s'.db == s.db && s'.workers == map[]
    requires s'.ports.Keys == s.ports.Keys + {Retrying(site, n)} && s'.stopped == s.stopped + {Retrying(site, n)}
    ensures After(s, s', n)
  {
    assert forall line :: line in s'.ports <==> line in s'.ports.Keys;
    assert forall line :: line in s.ports <==> line in s.ports.Keys;
  }

  lemma {:induction false} FailsSoon(t: Topology, c: Copy)
    requires Fails(t, c.envelope, c)
    ensures c.place == Ready && 1 <= c.attempt <= DeliveryPolicy(t.eventPolicy, c.envelope).maxAttempts
  {
    hide DeliveryPolicy, Served, HasLayer;
  }

  // ------------------------------------------------------------ an answer is taken

  // The broker's answers to two retries on a channel, the first routed, the second
  // returned, the second confirmed before the first.
  function FirstAnswered(id: Uuid): CP.Operation { Op(id, 0).(status := CP.Confirmed) }

  function SecondReturned(id: Uuid): CP.Operation { Op(id, 1).(returned := true) }

  function SecondAnswered(id: Uuid): CP.Operation { Op(id, 1).(status := CP.Confirmed, returned := true) }

  function BothAnswered(id: Uuid): CP.Port {
    PortWith([FirstAnswered(id), SecondAnswered(id)], 2).(resolved := {0, 1}, routed := multiset{id})
  }

  lemma {:induction false} ChannelSettles(id: Uuid)
    ensures CP.DoReturned(PortWith([Op(id, 0), Op(id, 1)], 2), 1) == PortWith([Op(id, 0), SecondReturned(id)], 2)
    ensures Answer(PortWith([Op(id, 0), SecondReturned(id)], 2), 1, false) == PortWith([Op(id, 0), SecondAnswered(id)], 2).(resolved := {1})
    ensures Answer(PortWith([Op(id, 0), SecondAnswered(id)], 2).(resolved := {1}), 0, false) == BothAnswered(id)
  {
    var a, b := [Op(id, 0), Op(id, 1)], [Op(id, 0), SecondReturned(id)];
    assert a[1..] == [Op(id, 1)] && b[1..] == [SecondReturned(id)];
    assert CP.IndexWhere(CP.Unreturned(1), a) == 1 && a[1 := SecondReturned(id)] == b;
    assert CP.IndexWhere(CP.HasTicket(1), b) == 1 && b[1 := SecondAnswered(id)] == [Op(id, 0), SecondAnswered(id)];
    assert CP.IndexWhere(CP.HasTicket(0), [Op(id, 0), SecondAnswered(id)]) == 0;
    assert [Op(id, 0), SecondAnswered(id)][0 := FirstAnswered(id)] == [FirstAnswered(id), SecondAnswered(id)];
    assert {1} + {0} == {0, 1};
  }

  lemma {:induction false} RetryIsReturned(t: Topology, s: Pipeline, k: Key, c: Copy)
    requires k in s.wire && s.wire[k] == Passage(Again(c), Sent)
    ensures Apply(t, s, Return(k)) == s.(wire := s.wire[k := Passage(Again(c), Returned)], ports := s.ports[k.line := CP.DoReturned(PortOf(s, k.line), k.ticket)])
  {
    hide CP.DoReturned, PortOf, Bound;
  }

  function Settling(line: Line): seq<Step> {
    [Accept(Key(line, 0)), Return(Key(line, 1)), Settle(Key(line, 1), false), Settle(Key(line, 0), false)]
  }

  lemma {:induction false} SettlingRuns(t: Topology, s: Pipeline, line: Line, id: Uuid, first: Copy, second: Copy)
    requires Key(line, 0) in s.wire && s.wire[Key(line, 0)] == Passage(Again(first), Sent)
    requires Key(line, 1) in s.wire && s.wire[Key(line, 1)] == Passage(Again(second), Sent)
    requires line in s.ports && s.ports[line] == PortWith([Op(id, 0), Op(id, 1)], 2)
    ensures var s' := Run(t, s, Settling(line));
      s' == s.(copies := s.copies[s.nextCopy := first], nextCopy := s.nextCopy + 1, ports := s.ports[line := BothAnswered(id)], wire := s'.wire)
  {
    hide Apply, Run, CP.DoReturned, Answer;
    var k0, k1 := Key(line, 0), Key(line, 1);
    ChannelSettles(id);
    FourSteps(t, s, Accept(k0), Return(k1), Settle(k1, false), Settle(k0, false));
    RetryIsRouted(t, s, k0, first);
    var s1 := Apply(t, s, Accept(k0));
    RetryIsReturned(t, s1, k1, second);
    var s2 := Apply(t, s1, Return(k1));
    ConfirmArrives(t, s2, k1);
    ConfirmArrives(t, Apply(t, s2, Settle(k1, false)), k0);
  }

  // The second worker resumes first and takes the answer to the first one's retry.
  lemma {:induction false} AnswerIsTaken(t: Topology, s: Pipeline, tag: nat)
    requires tag in s.workers && s.workers[tag].phase == RetryAwaited(1) && s.workers[tag].line in s.ports
    requires s.ports[s.workers[tag].line] == BothAnswered(s.workers[tag].delivery.envelope.messageId)
    ensures var s', line := Apply(t, s, LearnRetry(tag)), s.workers[tag].line;
      && s' == s.(workers := s.workers[tag := s.workers[tag].(phase := Republished)], ports := s'.ports, wire := s'.wire)
      && s'.ports.Keys == s.ports.Keys
  {
    var w, id := s.workers[tag], s.workers[tag].delivery.envelope.messageId;
    var port := PortOf(s, w.line);
    assert CP.TakeIndex(port, id) == 0;
    assert ToldRouted(port, 1, id) && Answered(port, 1);
    assert Ask(s, w.line, 1, id).ports == s.ports[w.line := CP.DoTake(port, id).0];
    hide ToldRouted, Answered, Taken, CP.DoTake;
  }

  // It acknowledges its only copy.
  lemma {:induction false} LoserAcks(t: Topology, s: Pipeline, tag: nat, k: nat)
    requires tag in s.workers && s.workers[tag].phase == Republished && s.workers[tag].copyId == k && k in s.copies && s.copies[k].place == Unacked(tag)
    ensures Apply(t, s, Ack(tag)) == s.(copies := s.copies - {k}, workers := s.workers - {tag})
  {
  }

  function Taking(tag: nat, kept: nat): seq<Step> { [LearnRetry(tag + 1), Ack(tag + 1), WorkerCrash(tag), ConnectionLost(kept)] }

  lemma {:induction false} TakingRuns(t: Topology, s: Pipeline, tag: nat, kept: nat, c: Copy, lost: nat, w: Worker)
    requires tag in s.workers && s.workers[tag].copyId == kept && kept in s.copies && s.copies[kept] == c.(place := Unacked(tag)) && c.place == Ready
    requires s.workers == map[tag := s.workers[tag], tag + 1 := w] && w.phase == RetryAwaited(1) && w.copyId == lost && w.line == s.workers[tag].line
    requires lost in s.copies && s.copies[lost].place == Unacked(tag + 1) && lost != kept
    requires w.line in s.ports && s.ports[w.line] == BothAnswered(w.delivery.envelope.messageId)
    ensures var s' := Run(t, s, Taking(tag, kept));
      && s'.db == s.db && s'.workers == map[] && s'.copies == s.copies[kept := c] - {lost} && s'.stopped == s.stopped + {w.line}
      && s'.ports.Keys == s.ports.Keys
  {
    hide Apply, Run;
    FourSteps(t, s, LearnRetry(tag + 1), Ack(tag + 1), WorkerCrash(tag), ConnectionLost(kept));
    AnswerIsTaken(t, s, tag + 1);
    var s1 := Apply(t, s, LearnRetry(tag + 1));
    LoserAcks(t, s1, tag + 1, lost);
    var s2 := Apply(t, s1, Ack(tag + 1));
    CrashRequeues(t, s2, tag, s.workers[tag], c);
    assert (s.copies - {lost})[kept := c] == s.copies[kept := c] - {lost};
  }

  // A second retry behind the first.
  lemma {:induction false} SecondIsSent(t: Topology, s: Pipeline, k: nat, site: nat, n: nat, tag: nat, id: Uuid)
    requires s.workers.Keys == {tag} && s.nextTag == tag + 1 && Retrying(site, n) !in s.stopped && Retrying(site, n) in s.ports && s.ports[Retrying(site, n)] == PortWith([Op(id, 0)], 1)
    requires k in s.copies && s.copies[k].envelope.messageId == id && Fails(t, s.copies[k].envelope, s.copies[k])
    requires Serves(t, site, s.copies[k].consumer) && t.sites[site].concurrency >= 2
    ensures var c, line := s.copies[k], Retrying(site, n); var s' := Run(t, s, Sending(k, tag + 1, site, n));
      && s'.db == s.db && s'.copies == s.copies[k := c.(place := Unacked(tag + 1))] && s'.nextCopy == s.nextCopy && s'.stopped == s.stopped
      && s'.workers == s.workers[tag + 1 := FailedWorker(k, c, line).(phase := RetryAwaited(1))]
      && s'.ports == s.ports[line := PortWith([Op(id, 0), Op(id, 1)], 2)] && s'.wire == s.wire[Key(line, 1) := Passage(Again(Retry(c)), Sent)]
  {
    hide Run, Admits, PortOf, Fails;
    RoomForTwo(t, s, site, n, tag);
    PortPut(s, Retrying(site, n));
    SendingRuns(t, s, k, site, n, [Op(id, 0)]);
    assert [Op(id, 0)] + [Op(id, 1)] == [Op(id, 0), Op(id, 1)];
  }

  function Overtaking(s: Pipeline, kept: nat, lost: nat, site: nat, n: nat): seq<Step> {
    Sending(kept, s.nextTag, site, n) + Sending(lost, s.nextTag + 1, site, n) + Settling(Retrying(site, n)) + Taking(s.nextTag, kept)
  }

  // Two deliveries fail at once. The retry of the first is routed, that of the
  // second returned; the second takes the answer to the first and acknowledges,
  // and the adapter dies.
  lemma {:induction false} Overtakers(t: Topology, s: Pipeline, kept: nat, lost: nat, site: nat, n: nat)
    requires ValidTopology(t) && Numbered(s) && s.workers == map[] && Retrying(site, n) !in s.ports && Retrying(site, n) !in s.stopped
    requires kept in s.copies && lost in s.copies && kept != lost && s.copies[kept].envelope == s.copies[lost].envelope
    requires Fails(t, s.copies[kept].envelope, s.copies[kept]) && Fails(t, s.copies[lost].envelope, s.copies[lost])
    requires Serves(t, site, s.copies[kept].consumer) && Serves(t, site, s.copies[lost].consumer) && t.sites[site].concurrency >= 2
    ensures var s' := Run(t, s, Overtaking(s, kept, lost, site, n));
      After(s, s', n) && s'.copies == s.copies[s.nextCopy := Retry(s.copies[kept])] - {lost}
  {
    hide Run, Fails, ValidTopology, Serves, Sending, Settling, Taking, After, Numbered, BothSent;
    var tag, line := s.nextTag, Retrying(site, n);
    BothAreSent(t, s, kept, lost, site, n);
    var sent := Sending(kept, tag, site, n) + Sending(lost, tag + 1, site, n);
    RunSplits(t, s, sent, Settling(line));
    RunSplits(t, s, sent + Settling(line), Taking(tag, kept));
    SettledAndTaken(t, s, Run(t, s, sent), kept, lost, site, n);
  }

  // Both retries are on the channel.
  ghost predicate BothSent(s: Pipeline, s': Pipeline, kept: nat, lost: nat, line: Line) {
    && kept in s.copies && lost in s.copies && kept != lost && s.copies[kept].place == Ready
    && var c, d, tag, id := s.copies[kept], s.copies[lost], s.nextTag, s.copies[kept].envelope.messageId;
    && d.envelope.messageId == id && s'.db == s.db && s'.nextCopy == s.nextCopy && s.nextCopy !in s.copies && s'.stopped == s.stopped
    && s'.copies == s.copies[kept := c.(place := Unacked(tag))][lost := d.(place := Unacked(tag + 1))]
    && s'.workers == map[tag := FailedWorker(kept, c, line).(phase := RetryAwaited(0)), tag + 1 := FailedWorker(lost, d, line).(phase := RetryAwaited(1))]
    && s'.ports == s.ports[line := PortWith([Op(id, 0), Op(id, 1)], 2)]
    && Key(line, 0) in s'.wire && s'.wire[Key(line, 0)] == Passage(Again(Retry(c)), Sent)
    && Key(line, 1) in s'.wire && s'.wire[Key(line, 1)] == Passage(Again(Retry(d)), Sent)
  }

  lemma {:induction false} BothAreSent(t: Topology, s: Pipeline, kept: nat, lost: nat, site: nat, n: nat)
    requires ValidTopology(t) && Numbered(s) && s.workers == map[] && Retrying(site, n) !in s.ports && Retrying(site, n) !in s.stopped
    requires kept in s.copies && lost in s.copies && kept != lost && s.copies[kept].envelope == s.copies[lost].envelope
    requires Fails(t, s.copies[kept].envelope, s.copies[kept]) && Fails(t, s.copies[lost].envelope, s.copies[lost])
    requires Serves(t, site, s.copies[kept].consumer) && Serves(t, site, s.copies[lost].consumer) && t.sites[site].concurrency >= 2
    ensures BothSent(s, Run(t, s, Sending(kept, s.nextTag, site, n) + Sending(lost, s.nextTag + 1, site, n)), kept, lost, Retrying(site, n))
  {
    hide Run, Fails, ValidTopology, Serves, Sending;
    var tag := s.nextTag;
    FirstIsSent(t, s, kept, site, n);
    var s1 := Run(t, s, Sending(kept, tag, site, n));
    SecondIsSent(t, s1, lost, site, n, tag, s.copies[kept].envelope.messageId);
    RunSplits(t, s, Sending(kept, tag, site, n), Sending(lost, tag + 1, site, n));
  }

  lemma {:induction false} SettledAndTaken(t: Topology, s: Pipeline, s2: Pipeline, kept: nat, lost: nat, site: nat, n: nat)
    requires BothSent(s, s2, kept, lost, Retrying(site, n))
    ensures var s' := Run(t, Run(t, s2, Settling(Retrying(site, n))), Taking(s.nextTag, kept));
      After(s, s', n) && s'.copies == s.copies[s.nextCopy := Retry(s.copies[kept])] - {lost}
  {
    hide Run, Settling, Taking, After;
    var c, tag, line := s.copies[kept], s.nextTag, Retrying(site, n);
    SettlingRuns(t, s2, line, c.envelope.messageId, Retry(c), Retry(s.copies[lost]));
    var s3 := Run(t, s2, Settling(line));
    TakingRuns(t, s3, tag, kept, c, lost, s2.workers[tag + 1]);
    OneAdapterRan(s, Run(t, s3, Taking(tag, kept)), site, n);
    assert s3.copies[kept := c] - {lost} == s.copies[s.nextCopy := Retry(c)] - {lost};
  }

  lemma {:induction false} PortPut(s: Pipeline, line: Line)
    ensures line in s.ports ==> PortOf(s, line) == s.ports[line]
  {
  }

  // ------------------------------------------------------------- exactly no loss

  predicate NothingInjected(steps: seq<Step>) { forall i :: 0 <= i < |steps| ==> !steps[i].Inject? }

  lemma {:induction false} CalmAfter(t: Topology, s: Pipeline, steps: seq<Step>, p: Pair, n: nat)
    requires ValidTopology(t) && Calm(t, s, p, n) && After(s, Run(t, s, steps), n)
    requires var s' := Run(t, s, steps);
      forall k :: k in s'.copies && CountsFor(t, Account(p, true), s'.copies[k]) ==> Fails(t, p.envelope, s'.copies[k]) && s'.copies[k].consumer == p.consumer
    ensures Calm(t, Run(t, s, steps), p, n + 1)
  {
    hide Inv, Run, ValidTopology, Fails, CountsFor;
    RunKeepsInv(t, s, steps);
  }

  lemma {:induction false} CalmMeans(t: Topology, s: Pipeline, p: Pair, n: nat)
    requires Calm(t, s, p, n)
    ensures Numbered(s) && s.nextCopy !in s.copies && s.workers == map[]
    ensures forall site: nat :: Retrying(site, n) !in s.ports && Retrying(site, n) !in s.stopped
  {
    InvParts(t, s);
    hide Inv;
  }

  lemma {:induction false} CalmCopies(t: Topology, s: Pipeline, p: Pair, n: nat, k: nat)
    requires Calm(t, s, p, n) && k in s.copies && CountsFor(t, Account(p, true), s.copies[k])
    ensures Fails(t, p.envelope, s.copies[k]) && s.copies[k].consumer == p.consumer && s.copies[k].envelope == p.envelope
  {
    hide Inv;
  }

  // Once published, the message lies in the queues of its route.
  lemma {:induction false} PublishedIsCalm(t: Topology, p: Pair) returns (steps: seq<Step>)
    requires ValidTopology(t) && p.consumer in Bound(t, p.envelope) && SendsOn(t, p.envelope, p.consumer, 1)
    ensures NothingInjected(steps) && Calm(t, Run(t, Start, steps), p, 0)
    ensures Run(t, Start, steps).copies == Enqueue(map[], 0, p.envelope, 1, Bound(t, p.envelope))
  {
    steps := Submitting(p.envelope) + Publishing;
    hide Run, Inv, SendsOn, Stored, ValidTopology, Pressed, Fails, CountsFor, Enqueue;
    PublicationRuns(t, p.envelope);
    StartIsSound(t);
    RunKeepsInv(t, Start, steps);
    FirstCopiesFail(t, p);
  }

  lemma {:induction false} PublicationRuns(t: Topology, e: Envelope)
    requires Bound(t, e) != []
    ensures Delivered(t, Run(t, Start, Submitting(e) + Publishing), e)
  {
    hide Run, Pressed, Delivered;
    SubmittingRuns(t, e);
    PublishingRuns(t, Run(t, Start, Submitting(e)), e);
    RunSplits(t, Start, Submitting(e), Publishing);
  }

  lemma {:induction false} StartIsSound(t: Topology)
    ensures Inv(t, Start)
  {
  }

  lemma {:induction false} FirstCopiesFail(t: Topology, p: Pair)
    requires SendsOn(t, p.envelope, p.consumer, 1)
    ensures var copies := Enqueue(map[], 0, p.envelope, 1, Bound(t, p.envelope));
      forall k :: k in copies && CountsFor(t, Account(p, true), copies[k]) ==> Fails(t, p.envelope, copies[k]) && copies[k].consumer == p.consumer
  {
    hide SendsOn, Bound;
  }

  // What comes back from a retry that `p` can afford.
  lemma {:induction false} ForwardedFail(t: Topology, s: Pipeline, p: Pair, n: nat, c: Copy)
    requires Calm(t, s, p, n) && c.envelope == p.envelope && Passes(t, p.envelope, p.consumer, c.attempt, c.consumer)
    ensures var copies := Enqueue(s.copies, s.nextCopy + 1, c.envelope, c.attempt + 1, Reach(t, c.consumer));
      forall k :: k in copies && CountsFor(t, Account(p, true), copies[k]) ==> Fails(t, p.envelope, copies[k]) && copies[k].consumer == p.consumer
  {
    hide SendsOn, Reach, Inv, Stored;
  }

  lemma {:induction false} ForwardedIsThere(t: Topology, s: Pipeline, c: Copy, consumer: string) returns (k: nat)
    requires consumer in Reach(t, c.consumer)
    ensures var copies := Enqueue(s.copies, s.nextCopy + 1, c.envelope, c.attempt + 1, Reach(t, c.consumer));
      k in copies && copies[k] == Copy(c.envelope, consumer, c.attempt + 1, Ready)
  {
    hide Reach;
    var i :| 0 <= i < |Reach(t, c.consumer)| && Reach(t, c.consumer)[i] == consumer;
    k := s.nextCopy + 1 + i;
  }

  // Every holder comes to hold a copy while `p` can still send on all of its own.
  lemma {:induction false} HoldersHold(t: Topology, p: Pair, attempt: nat, consumer: string) returns (steps: seq<Step>, k: nat, n: nat)
    requires ValidTopology(t) && p.consumer in Bound(t, p.envelope) && consumer in Holders(t, p.envelope, p.consumer, attempt)
    ensures NothingInjected(steps) && Calm(t, Run(t, Start, steps), p, n)
    ensures k in Run(t, Start, steps).copies && Run(t, Start, steps).copies[k] == Copy(p.envelope, consumer, attempt, Ready)
  {
    hide Run, Calm, SendsOn, ValidTopology, Reach, Bound;
    if attempt == 1 {
      steps := PublishedIsCalm(t, p);
      var i :| 0 <= i < |Bound(t, p.envelope)| && Bound(t, p.envelope)[i] == consumer;
      k, n := i, 0;
    } else {
      var a :| a in Holders(t, p.envelope, p.consumer, attempt - 1) && Passes(t, p.envelope, p.consumer, attempt - 1, a) && consumer in Reach(t, a);
      var first, j, m := HoldersHold(t, p, attempt - 1, a);
      var more := ForwardedOn(t, Run(t, Start, first), p, j, m);
      steps, n := first + more, m + 1;
      RunSplits(t, Start, first, more);
      k := ForwardedIsThere(t, Run(t, Start, first), Run(t, Start, first).copies[j], consumer);
    }
  }

  lemma {:induction false} ForwardedOn(t: Topology, s: Pipeline, p: Pair, k: nat, n: nat) returns (steps: seq<Step>)
    requires ValidTopology(t) && Calm(t, s, p, n) && k in s.copies && s.copies[k].place == Ready && s.copies[k].envelope == p.envelope
    requires Passes(t, p.envelope, p.consumer, s.copies[k].attempt, s.copies[k].consumer)
    ensures NothingInjected(steps) && Calm(t, Run(t, s, steps), p, n + 1)
    ensures var c := s.copies[k]; Run(t, s, steps).copies == Enqueue(s.copies, s.nextCopy + 1, c.envelope, c.attempt + 1, Reach(t, c.consumer))
  {
    var c := s.copies[k];
    var site := SiteOf(t, p.envelope, c.consumer, c.attempt);
    steps := Forwarding(s, k, site, n);
    ForwardingInjectsNothing(s, k, site, n);
    CalmMeans(t, s, p, n);
    hide Run, Reach, Enqueue, Inv, ValidTopology, Numbered, Stored, CountsFor, Forwarding, Serves, NothingInjected, SendsOn, Calm, After;
    Forwards(t, s, k, site, n);
    ForwardedFail(t, s, p, n, c);
    CalmAfter(t, s, steps, p, n);
  }

  lemma {:induction false} SiteOf(t: Topology, e: Envelope, consumer: string, attempt: nat) returns (site: nat)
    requires SendsOn(t, e, consumer, attempt)
    ensures Serves(t, site, consumer)
  {
    site :| site < |t.sites| && Serves(t, site, consumer);
  }

  lemma {:induction false} ForwardingInjectsNothing(s: Pipeline, k: nat, site: nat, n: nat)
    ensures NothingInjected(Forwarding(s, k, site, n))
  {
  }

  // Each of the copies of `p` in turn is given up for a retry that does not reach it.
  lemma {:induction false} AllAreLost(t: Topology, s: Pipeline, p: Pair, kept: nat, site: nat, n: nat) returns (steps: seq<Step>)
    requires ValidTopology(t) && Calm(t, s, p, n) && kept in s.copies && s.copies[kept].place == Ready && s.copies[kept].envelope == p.envelope
    requires site < |t.sites| && Overtakes(t, p.envelope, p.consumer, s.copies[kept].attempt, site, s.copies[kept].consumer)
    ensures NothingInjected(steps) && Stored(Run(t, s, steps).db, p.envelope, Published)
    ensures forall k :: k in Run(t, s, steps).copies ==> !CountsFor(t, Account(p, true), Run(t, s, steps).copies[k])
    decreases CountIf(Carrying(t, Account(p, true)), s.copies)
  {
    hide Run, SendsOn, ValidTopology, Reach, Inv, Stored;
    if lost :| lost in s.copies && CountsFor(t, Account(p, true), s.copies[lost]) {
      var first := Overtaking(s, kept, lost, site, n);
      OneIsLost(t, s, p, kept, lost, site, n);
      var rest := AllAreLost(t, Run(t, s, first), p, kept, site, n + 1);
      steps := first + rest;
      RunSplits(t, s, first, rest);
    } else {
      steps := [];
      assert Run(t, s, []) == s by { RunOfNothing(t, s); }
    }
  }

  lemma {:induction false} RunOfNothing(t: Topology, s: Pipeline)
    ensures Run(t, s, []) == s
  {
  }

  lemma {:induction false} OneIsLost(t: Topology, s: Pipeline, p: Pair, kept: nat, lost: nat, site: nat, n: nat)
    requires ValidTopology(t) && Calm(t, s, p, n) && kept in s.copies && s.copies[kept].place == Ready && s.copies[kept].envelope == p.envelope
    requires site < |t.sites| && Overtakes(t, p.envelope, p.consumer, s.copies[kept].attempt, site, s.copies[kept].consumer)
    requires lost in s.copies && CountsFor(t, Account(p, true), s.copies[lost])
    ensures var s' := Run(t, s, Overtaking(s, kept, lost, site, n));
      && Calm(t, s', p, n + 1) && kept in s'.copies && s'.copies[kept] == s.copies[kept]
      && CountIf(Carrying(t, Account(p, true)), s'.copies) < CountIf(Carrying(t, Account(p, true)), s.copies)
    ensures NothingInjected(Overtaking(s, kept, lost, site, n))
  {
    hide Run, SendsOn, ValidTopology, Reach, Inv, Numbered, Calm, After, Overtaking, CountIf, CountsFor;
    CalmMeans(t, s, p, n);
    CalmCopies(t, s, p, n, lost);
    OwnKeyReaches(t, p.consumer);
    OvertakingInjectsNothing(s, kept, lost, site, n);
    Overtakers(t, s, kept, lost, site, n);
    OneLessCounts(t, p, s.copies, s.nextCopy, s.copies[kept], lost);
    forall k | k in s.copies && CountsFor(t, Account(p, true), s.copies[k]) ensures Fails(t, p.envelope, s.copies[k]) && s.copies[k].consumer == p.consumer {
      CalmCopies(t, s, p, n, k);
    }
    CalmAfter(t, s, Overtaking(s, kept, lost, site, n), p, n);
  }

  lemma {:induction false} OvertakingInjectsNothing(s: Pipeline, kept: nat, lost: nat, site: nat, n: nat)
    ensures NothingInjected(Overtaking(s, kept, lost, site, n))
  {
  }

  lemma {:induction false} OneLessCounts(t: Topology, p: Pair, copies: map<nat, Copy>, next: nat, c: Copy, lost: nat)
    requires next !in copies && lost in copies && CountsFor(t, Account(p, true), copies[lost])
    requires c.consumer != p.consumer && p.consumer !in Reach(t, c.consumer)
    ensures !CountsFor(t, Account(p, true), Retry(c))
    ensures CountIf(Carrying(t, Account(p, true)), copies[next := Retry(c)] - {lost}) < CountIf(Carrying(t, Account(p, true)), copies)
  {
    var a, more := Account(p, true), copies[next := Retry(c)];
    hide Reach, CountIf;
    CountWith(Carrying(t, a), copies, next, Retry(c));
    assert copies - {next} == copies;
    CountWithout(Carrying(t, a), more, lost);
  }

  lemma {:induction false} InjectingNothingIsClean(e: Envelope, steps: seq<Step>)
    requires NothingInjected(steps)
    ensures CleanRun(e, steps)
  {
  }

  lemma {:induction false} NothingRecorded(db: Store, e: Envelope, consumer: string)
    requires Stored(db, e, Published)
    ensures PublishedRow(db, e) && !Recorded(db, e, consumer)
  {
  }

  // A consumer that is exposed loses the message in some run.
  lemma {:induction false} ExposedLoses(t: Topology, e: Envelope, consumer: string) returns (steps: seq<Step>)
    requires ValidTopology(t) && Exposed(t, e, consumer)
    ensures NothingInjected(steps) && Loses(t, steps, e, consumer)
  {
    var p := Pair(e, consumer);
    var attempt: nat, site: nat, a :| attempt < DeliveryPolicy(t.eventPolicy, e).maxAttempts && site < |t.sites| && a in Holders(t, e, consumer, attempt) && Overtakes(t, e, consumer, attempt, site, a);
    hide Run, ValidTopology, Overtakes, Holders, Calm, Exposed, Stored, Bound, DeliveryPolicy, Recorded, PublishedRow, CountsFor, CleanRun;
    var first, kept, n := HoldersHold(t, p, attempt, a);
    var rest := AllAreLost(t, Run(t, Start, first), p, kept, site, n);
    steps := first + rest;
    RunSplits(t, Start, first, rest);
    NothingRecorded(Run(t, Start, steps).db, e, consumer);
    InjectingNothingIsClean(e, steps);
  }

  lemma {:induction false} SharingExposes(t: Topology, e: Envelope, site: nat, a: string, b: string)
    requires a in Bound(t, e) && b in Bound(t, e) && b !in Reach(t, a)
    requires Serves(t, site, a) && Serves(t, site, b) && t.sites[site].concurrency >= 2
    requires SendsOn(t, e, a, 1) && SendsOn(t, e, b, 1)
    ensures Exposed(t, e, b)
  {
    hide Bound, Reach;
    FirstHolders(t, Pair(e, b), a);
    hide Holders;
    assert Overtakes(t, e, b, 1, site, a);
    hide Overtakes, Layered, Served;
  }

  // Two consumers of a route behind one adapter that handles several deliveries at
  // once: when both send a first delivery on, and the key of the one does not reach
  // the other, the other can lose the message.
  lemma {:induction false} SharedChannelLoses(t: Topology, e: Envelope, site: nat, a: string, b: string)
    requires ValidTopology(t) && a in Bound(t, e) && b in Bound(t, e) && b !in Reach(t, a)
    requires Serves(t, site, a) && Serves(t, site, b) && t.sites[site].concurrency >= 2
    requires SendsOn(t, e, a, 1) && SendsOn(t, e, b, 1)
    ensures exists steps :: Loses(t, steps, e, b)
  {
    hide ValidTopology, Loses;
    SharingExposes(t, e, site, a, b);
    var steps := ExposedLoses(t, e, b);
  }

  // A consumer can lose a message exactly when it is exposed: when it can send the
  // message on to its retry layers, shares an adapter that handles several
  // deliveries at once with a consumer that can come to do so too, and is out of
  // reach of that consumer's key.
  lemma {:induction false} NoLossExactly(t: Topology, e: Envelope, consumer: string)
    requires ValidTopology(t)
    ensures Exposed(t, e, consumer) <==> exists steps :: Loses(t, steps, e, consumer)
  {
    hide ValidTopology, Loses, Exposed;
    if Exposed(t, e, consumer) {
      var steps := ExposedLoses(t, e, consumer);
    } else {
      forall steps ensures !Loses(t, steps, e, consumer) {
        UnexposedNeverLoses(t, steps, e, consumer);
      }
    }
  }
}
