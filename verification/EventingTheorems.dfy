// What the invariant means to a caller, over every run of the pipeline.
module EventingTheorems {
  import opened Prelude
  import opened EventingModel
  import opened EventingInvariants
  import opened EventingPipeline
  import opened EventingGuarantees

  // ------------------------------------------------------------------- counting

  // Committed handler runs for one message at one consumer.
  function RunsAt(effects: seq<Effect>, key: ReceiptKey): nat {
    if effects == [] then 0
    else (if EffectKey(effects[0]) == key then 1 else 0) + RunsAt(effects[1..], key)
  }

  // Committed handler runs of one payload, over all consumers.
  function RunsOf(effects: seq<Effect>, e: Envelope): nat {
    if effects == [] then 0
    else (if effects[0].envelope == e then 1 else 0) + RunsOf(effects[1..], e)
  }

  lemma {:induction false} RunsAtMeaning(effects: seq<Effect>, key: ReceiptKey)
    requires OncePerConsumer(effects)
    ensures RunsAt(effects, key) == if exists i :: 0 <= i < |effects| && EffectKey(effects[i]) == key then 1 else 0
  {
    if effects != [] {
      var rest := effects[1..];
      forall i, j | 0 <= i < j < |rest| ensures EffectKey(rest[i]) != EffectKey(rest[j]) {
        assert rest[i] == effects[i + 1] && rest[j] == effects[j + 1];
      }
      RunsAtMeaning(rest, key);
      if exists i :: 0 <= i < |rest| && EffectKey(rest[i]) == key {
        var i :| 0 <= i < |rest| && EffectKey(rest[i]) == key;
        assert EffectKey(effects[i + 1]) == key;
      }
      assert forall i :: 1 <= i < |effects| ==> effects[i] == rest[i - 1];
    }
  }

  lemma {:induction false} RunsOfMeaning(effects: seq<Effect>, e: Envelope)
    requires OncePerJob(effects) && e.Job?
    ensures RunsOf(effects, e) == if HasEffect(effects, e) then 1 else 0
  {
    if effects != [] {
      var rest := effects[1..];
      forall i, j | 0 <= i < j < |rest| && rest[i].envelope.Job? ensures rest[i].envelope != rest[j].envelope {
        assert rest[i] == effects[i + 1] && rest[j] == effects[j + 1];
      }
      RunsOfMeaning(rest, e);
      if HasEffect(rest, e) {
        var i :| 0 <= i < |rest| && rest[i].envelope == e;
        assert effects[i + 1].envelope == e;
      }
      assert forall i :: 1 <= i < |effects| ==> effects[i] == rest[i - 1];
    }
  }

  // ----------------------------------------------------------------------- runs

  lemma {:induction false} EveryRunIsSound(t: Topology, steps: seq<Step>)
    requires ValidTopology(t)
    ensures Inv(t, Run(t, Start, steps))
  {
    assert Inv(t, Start);
    RunKeepsInv(t, Start, steps);
  }

  lemma {:induction false} LaterStatesAdvance(t: Topology, steps: seq<Step>, more: seq<Step>)
    requires ValidTopology(t)
    ensures Advances(Run(t, Start, steps).db, Run(t, Start, steps + more).db)
  {
    EveryRunIsSound(t, steps);
    RunSplits(t, Start, steps, more);
    RunKeepsInv(t, Run(t, Start, steps), more);
  }

  // ----------------------------------------------------------- effectively once

  // However publishers, broker copies and consumers interleave, each message has
  // at most one committed handler run per consumer; an event has exactly one
  // when its receipt is there and none otherwise.
  lemma {:induction false} EffectivelyOnce(t: Topology, steps: seq<Step>, e: Envelope, consumer: string)
    requires ValidTopology(t)
    ensures var db := Run(t, Start, steps).db; var key := ReceiptKey(e.messageId, consumer);
      && RunsAt(db.effects, key) <= 1
      && (Effect(e, consumer) in db.effects ==> key in db.inbox && db.inbox[key] == Sha256(e))
      && (e.Event? && key in db.inbox && db.inbox[key] == Sha256(e) ==> Effect(e, consumer) in db.effects && RunsAt(db.effects, key) == 1)
      && (key !in db.inbox ==> RunsAt(db.effects, key) == 0)
  {
    EveryRunIsSound(t, steps);
    var db := Run(t, Start, steps).db;
    var key := ReceiptKey(e.messageId, consumer);
    RunsAtMeaning(db.effects, key);
    if e.Event? && key in db.inbox && db.inbox[key] == Sha256(e) {
      var i :| 0 <= i < |db.effects| && db.effects[i] == Effect(e, consumer);
      assert EffectKey(db.effects[i]) == key;
    }
  }

  // Once a payload was handled, no later step handles another payload under its id.
  lemma {:induction false} HandledPayloadIsFinal(t: Topology, steps: seq<Step>, more: seq<Step>, e: Envelope, other: Envelope, consumer: string)
    requires ValidTopology(t)
    requires Effect(e, consumer) in Run(t, Start, steps).db.effects
    requires other.messageId == e.messageId && other != e
    ensures Effect(other, consumer) !in Run(t, Start, steps + more).db.effects
  {
    EffectivelyOnce(t, steps, e, consumer);
    EffectivelyOnce(t, steps + more, other, consumer);
    LaterStatesAdvance(t, steps, more);
  }

  // ------------------------------------------------------------------- fencing

  // What a mark does to the row it changes.
  ghost predicate FencedMark(t: Topology, s: Pipeline, step: Step, row: OutboxRow, after: OutboxRow)
    requires step.MarkDone? || step.MarkFailed?
  {
    && row.envelope.messageId in s.latestClaim && s.latestClaim[row.envelope.messageId] == step.token
    && row.status == Publishing && row.claimToken == Some(step.token)
    && after.claimToken == None && after.attemptCount == row.attemptCount
    && (step.MarkDone? ==> after.status == Published)
    && (step.MarkFailed? ==> after.status == if row.attemptCount < t.maxAttempts then Pending else Isolated)
    && (after.status == Pending ==> 1 <= row.attemptCount <= |t.backoffSeconds|)
    && (after.status == Pending ==> after.availableAt == step.at + 1000 * t.backoffSeconds[row.attemptCount - 1])
  }

  lemma {:induction false} MarkNeedsLatestClaim(t: Topology, s: Pipeline, step: Step, id: Uuid)
    requires ValidTopology(t) && (step.MarkDone? || step.MarkFailed?)
    requires PublicationsSound(s) && ClaimsLatest(s) && OutboxShape(s.db.outbox, s.db.order, t.maxAttempts)
    requires id in s.db.outbox && Apply(t, s, step).db.outbox[id] != s.db.outbox[id]
    ensures FencedMark(t, s, step, s.db.outbox[id], Apply(t, s, step).db.outbox[id])
  {
    MarkIsOfRow(t, s, step, id);
    assert RowShape(s.db.outbox[id], t.maxAttempts);
    assert id in s.latestClaim && s.latestClaim[id] == step.token;
    hide PublicationsSound, ClaimsLatest, OutboxShape;
  }

  // A row that a mark changes is the row its publisher claimed.
  lemma {:induction false} MarkIsOfRow(t: Topology, s: Pipeline, step: Step, id: Uuid)
    requires step.MarkDone? || step.MarkFailed?
    requires PublicationsSound(s) && (forall x :: x in s.db.outbox ==> s.db.outbox[x].envelope.messageId == x)
    requires id in s.db.outbox && Apply(t, s, step).db.outbox[id] != s.db.outbox[id]
    ensures step.token in s.publications && s.publications[step.token].row.envelope.messageId == id
    ensures HoldsClaim(s.db, id, step.token) && s.db.outbox[id] == s.publications[step.token].row
  {
    hide BackoffSeconds, Exhausted;
  }

  // A mark changes a row only for the holder of its latest claim, and the
  // attempts of a row put back are within the backoff schedule.
  lemma {:induction false} OutboxFencing(t: Topology, steps: seq<Step>, step: Step, id: Uuid)
    requires ValidTopology(t) && (step.MarkDone? || step.MarkFailed?)
    requires var s := Run(t, Start, steps);
      id in s.db.outbox && Apply(t, s, step).db.outbox[id] != s.db.outbox[id]
    ensures var s := Run(t, Start, steps);
      FencedMark(t, s, step, s.db.outbox[id], Apply(t, s, step).db.outbox[id])
  {
    hide Apply, FencedMark;
    EveryRunIsSound(t, steps);
    MarkNeedsLatestClaim(t, Run(t, Start, steps), step, id);
  }

  // Every stored row has a token exactly while publishing, is pending only with
  // attempts left, and is isolated only with none left.
  lemma {:induction false} OutboxRowsKeepShape(t: Topology, steps: seq<Step>, id: Uuid)
    requires ValidTopology(t) && id in Run(t, Start, steps).db.outbox
    ensures RowShape(Run(t, Start, steps).db.outbox[id], t.maxAttempts)
  {
    EveryRunIsSound(t, steps);
  }

  lemma {:induction false} PublishedIsAbsorbing(t: Topology, steps: seq<Step>, more: seq<Step>, id: Uuid)
    requires ValidTopology(t)
    requires id in Run(t, Start, steps).db.outbox && Run(t, Start, steps).db.outbox[id].status == Published
    ensures id in Run(t, Start, steps + more).db.outbox
    ensures Run(t, Start, steps + more).db.outbox[id] == Run(t, Start, steps).db.outbox[id]
  {
    LaterStatesAdvance(t, steps, more);
  }

  // ------------------------------------------------------------------- job lifecycle

  // Between transactions no job is being processed; a job is completed exactly
  // when its payload was handled once, by one consumer among all.
  lemma {:induction false} JobLifecycle(t: Topology, steps: seq<Step>, id: Uuid)
    requires ValidTopology(t) && id in Run(t, Start, steps).db.jobs
    ensures var db := Run(t, Start, steps).db; var job := db.jobs[id];
      && job.status != Processing
      && RunsOf(db.effects, job.envelope) == (if job.status == Completed then 1 else 0)
      && id in db.outbox && Sha256(db.outbox[id].envelope) == job.fingerprint
      && job.envelope.Job?
      && (forall other :: other in db.jobs && other != id ==>
            db.jobs[other].envelope.Job? && db.jobs[other].envelope.idempotencyKey != job.envelope.idempotencyKey)
  {
    EveryRunIsSound(t, steps);
    var db := Run(t, Start, steps).db;
    var job := db.jobs[id];
    RunsOfMeaning(db.effects, job.envelope);
    if HasEffect(db.effects, job.envelope) {
      var i :| 0 <= i < |db.effects| && db.effects[i].envelope == job.envelope;
      assert db.effects[i].envelope.Job?;
    }
  }

  lemma {:induction false} FinishedJobsStay(t: Topology, steps: seq<Step>, more: seq<Step>, id: Uuid)
    requires ValidTopology(t)
    requires id in Run(t, Start, steps).db.jobs && FinalJob(Run(t, Start, steps).db.jobs[id].status)
    ensures id in Run(t, Start, steps + more).db.jobs
    ensures Run(t, Start, steps + more).db.jobs[id] == Run(t, Start, steps).db.jobs[id]
  {
    LaterStatesAdvance(t, steps, more);
  }

  // ------------------------------------------------------------------- progress

  function Wake(s: Pipeline, k: nat): Step
    requires k in s.copies
  {
    if s.copies[k].place == Delayed then DelayOver(k) else ConnectionLost(k)
  }

  // A ready copy: deliver it, check it, and let the handler succeed.
  lemma {:induction false} ReadyCopyFinishes(t: Topology, s: Pipeline, k: nat, site: nat, instance: nat)
    requires ValidTopology(t) && DbSound(s.db, t.maxAttempts)
    requires k in s.copies && s.copies[k].place == Ready && Serves(t, site, s.copies[k].consumer) && Admits(t, s, site, instance)
    requires 1 <= s.copies[k].attempt <= DeliveryPolicy(t.eventPolicy, s.copies[k].envelope).maxAttempts <= 1000
    ensures var s' := Apply(t, Apply(t, Apply(t, s, Deliver(k, 0, site, instance)), Check(s.nextTag, false)), Transact(s.nextTag, HandlerRun(Allows, true), true));
      Recorded(s'.db, s.copies[k].envelope, s.copies[k].consumer)
  {
    hide Apply, DbSound, Recorded, Precheck, InboxTransaction, DeliveryPolicy, Admits;
    var d := Delivery(s.copies[k].envelope, s.copies[k].consumer, s.copies[k].attempt, 0);
    var h := t.handlers[d.consumer];
    var run := HandlerRun(Allows, true);
    var delivered := Apply(t, s, Deliver(k, 0, site, instance));
    DeliveryStarts(t, s, k, site, instance);
    var checked := Apply(t, delivered, Check(s.nextTag, false));
    CheckPasses(t, delivered, s.nextTag);
    if Precheck(s.db, d, h).1.Some? {
      PrecheckRecords(s.db, d, h);
      SettledStays(t, checked, s.nextTag, run);
    } else {
      PrecheckPasses(s.db, d, h);
      NothingThrows(s.db, d, h, t.maxAttempts);
      TransactionRecords(s.db, d, h, run);
      TransactionRuns(t, checked, s.nextTag, run);
    }
  }

  lemma {:induction false} DeliveryStarts(t: Topology, s: Pipeline, k: nat, site: nat, instance: nat)
    requires k in s.copies && s.copies[k].place == Ready && Serves(t, site, s.copies[k].consumer) && Admits(t, s, site, instance)
    ensures var s' := Apply(t, s, Deliver(k, 0, site, instance)); var c := s.copies[k];
      s'.db == s.db && s.nextTag in s'.workers
      && s'.workers[s.nextTag] == Worker(k, Delivery(c.envelope, c.consumer, c.attempt, 0), Retrying(site, instance), Fetched)
  {
    hide Admits;
  }

  lemma {:induction false} CheckPasses(t: Topology, s: Pipeline, tag: nat)
    requires tag in s.workers && s.workers[tag].phase == Fetched && s.workers[tag].delivery.consumer in t.handlers
    requires 1 <= s.workers[tag].delivery.attempt <= DeliveryPolicy(t.eventPolicy, s.workers[tag].delivery.envelope).maxAttempts <= 1000
    ensures var s', d := Apply(t, s, Check(tag, false)), s.workers[tag].delivery; var (db, early) := Precheck(s.db, d, t.handlers[d.consumer]);
      s'.db == db && tag in s'.workers && s'.workers[tag] == s.workers[tag].(phase := if early.Some? then Settled else Consuming)
  {
    hide Precheck, DeliveryPolicy;
  }

  lemma {:induction false} SettledStays(t: Topology, s: Pipeline, tag: nat, run: HandlerRun)
    requires tag in s.workers && s.workers[tag].phase == Settled
    ensures Apply(t, s, Transact(tag, run, true)) == s
  {
  }

  lemma {:induction false} TransactionRuns(t: Topology, s: Pipeline, tag: nat, run: HandlerRun)
    requires tag in s.workers && s.workers[tag].phase == Consuming && s.workers[tag].delivery.consumer in t.handlers
    ensures var d := s.workers[tag].delivery; Apply(t, s, Transact(tag, run, true)).db == InboxTransaction(s.db, d, t.handlers[d.consumer], run).0
  {
    hide InboxTransaction;
  }

  // An adapter can always be started afresh.
  lemma {:induction false} FreshInstance(t: Topology, s: Pipeline, site: nat)
    requires ValidTopology(t) && site < |t.sites|
    ensures exists instance :: Admits(t, s, site, instance)
  {
    var lines := (set tag | tag in s.workers :: s.workers[tag].line) + s.stopped;
    var instance := UnusedNumber(lines);
    var line := Retrying(site, instance);
    forall tag | tag in s.workers ensures s.workers[tag].line != line {
      assert s.workers[tag].line in lines;
    }
    assert ActiveOn(s, line) == {};
    assert Admits(t, s, site, instance);
  }

  lemma {:induction false} UnusedNumber(lines: set<Line>) returns (n: nat)
    ensures forall line :: line in lines && line.Retrying? ==> line.instance < n
    decreases |lines|
  {
    n := 0;
    if lines != {} {
      var line :| line in lines;
      var others := lines - {line};
      n := UnusedNumber(others);
      if line.Retrying? && n <= line.instance {
        n := line.instance + 1;
      }
      assert forall other :: other in lines ==> other == line || other in others;
    }
  }

  // A copy that is neither spent nor dead-lettered can always be brought to an
  // end: some continuation puts its delivery on record.
  lemma {:induction false} EveryLiveCopyCanFinish(t: Topology, steps: seq<Step>, k: nat, site: nat)
    requires ValidTopology(t)
    requires var s := Run(t, Start, steps);
      && k in s.copies && s.copies[k].place != DeadLettered && Serves(t, site, s.copies[k].consumer)
      && 1 <= s.copies[k].attempt <= DeliveryPolicy(t.eventPolicy, s.copies[k].envelope).maxAttempts <= 1000
    ensures exists more :: Recorded(Run(t, Start, steps + more).db, Run(t, Start, steps).copies[k].envelope, Run(t, Start, steps).copies[k].consumer)
  {
    hide DbSound, Inv, Recorded, Precheck, InboxTransaction, DeliveryPolicy, Apply, Admits, Run, Serves;
    EveryRunIsSound(t, steps);
    var s := Run(t, Start, steps);
    InvParts(t, s);
    var awake := Apply(t, s, Wake(s, k));
    var n := WakingReadies(t, s, k);
    ServedSite(t, site, s.copies[k].consumer);
    FreshInstance(t, awake, site);
    var instance :| Admits(t, awake, site, instance);
    ReadyCopyFinishes(t, awake, n, site, instance);
    var more := [Wake(s, k), Deliver(n, 0, site, instance), Check(awake.nextTag, false), Transact(awake.nextTag, HandlerRun(Allows, true), true)];
    FourSteps(t, s, more[0], more[1], more[2], more[3]);
    RunSplits(t, Start, steps, more);
    assert Recorded(Run(t, Start, steps + more).db, s.copies[k].envelope, s.copies[k].consumer);
  }

  // The copy, or the one that comes back to its own queue.
  lemma {:induction false} WakingReadies(t: Topology, s: Pipeline, k: nat) returns (n: nat)
    requires ValidTopology(t) && k in s.copies && s.copies[k].place != DeadLettered
    ensures var awake := Apply(t, s, Wake(s, k)); awake.db == s.db && n in awake.copies && awake.copies[n] == s.copies[k].(place := Ready)
  {
    if s.copies[k].place == Delayed {
      var c := s.copies[k];
      assert c.consumer in Reach(t, c.consumer);
      var i :| 0 <= i < |Reach(t, c.consumer)| && Reach(t, c.consumer)[i] == c.consumer;
      hide Reach, ValidTopology;
      n := s.nextCopy + i;
      assert Apply(t, s, DelayOver(k)).copies[n] == Copy(c.envelope, c.consumer, c.attempt, Ready);
    } else {
      n := k;
    }
  }

  lemma {:induction false} ServedSite(t: Topology, site: nat, consumer: string)
    requires Serves(t, site, consumer)
    ensures site < |t.sites|
  {
  }

  // -------------------------------------------------------------------- drain

  // How many changes a row can still go through before it is published or
  // isolated, when nobody replays it and no claim lapses.
  function ChangesLeft(maxAttempts: nat, row: OutboxRow): nat {
    var attempts := if row.attemptCount < maxAttempts then maxAttempts - row.attemptCount else 0;
    match row.status
    case Pending => 2 * attempts
    case Publishing => 2 * attempts + 1
    case Published => 0
    case Isolated => 0
  }

  // Neither a replay nor the claim of a row another claim still holds.
  predicate Ordinary(s: Pipeline, step: Step) {
    && !step.Replay?
    && (step.Claim? && step.messageId in s.db.outbox ==> s.db.outbox[step.messageId].status != Publishing)
  }

  lemma {:induction false} ClientRowMovesDown(t: Topology, s: Pipeline, step: Step, id: Uuid)
    requires ClientStep(step) && Ordinary(s, step) && id in s.db.outbox && id in Apply(t, s, step).db.outbox
    ensures Apply(t, s, step).db.outbox[id] == s.db.outbox[id]
  {
  }

  lemma {:induction false} ClaimedRowMovesDown(t: Topology, s: Pipeline, step: Step, id: Uuid)
    requires step.Claim? && Ordinary(s, step) && id in s.db.outbox && RowShape(s.db.outbox[id], t.maxAttempts)
    ensures var row, row' := s.db.outbox[id], Apply(t, s, step).db.outbox[id];
      row' == row || ChangesLeft(t.maxAttempts, row') < ChangesLeft(t.maxAttempts, row)
  {
  }

  lemma {:induction false} MarkedRowMovesDown(t: Topology, s: Pipeline, step: Step, id: Uuid)
    requires ValidTopology(t) && OutboxShape(s.db.outbox, s.db.order, t.maxAttempts) && PublicationsSound(s) && ClaimsLatest(s)
    requires (step.MarkDone? || step.MarkFailed?) && id in s.db.outbox && id in Apply(t, s, step).db.outbox
    ensures var row, row' := s.db.outbox[id], Apply(t, s, step).db.outbox[id];
      row' == row || ChangesLeft(t.maxAttempts, row') < ChangesLeft(t.maxAttempts, row)
  {
    if Apply(t, s, step).db.outbox[id] != s.db.outbox[id] {
      MarkNeedsLatestClaim(t, s, step, id);
    }
    hide Apply;
  }

  lemma {:induction false} RowMovesDown(t: Topology, s: Pipeline, step: Step, id: Uuid)
    requires ValidTopology(t) && OutboxShape(s.db.outbox, s.db.order, t.maxAttempts) && PublicationsSound(s) && ClaimsLatest(s)
    requires Ordinary(s, step) && id in s.db.outbox && id in Apply(t, s, step).db.outbox
    ensures var row, row' := s.db.outbox[id], Apply(t, s, step).db.outbox[id];
      row' == row || ChangesLeft(t.maxAttempts, row') < ChangesLeft(t.maxAttempts, row)
  {
    if ClientStep(step) {
      ClientRowMovesDown(t, s, step, id);
    } else if step.Claim? {
      ClaimedRowMovesDown(t, s, step, id);
    } else if step.MarkDone? || step.MarkFailed? {
      MarkedRowMovesDown(t, s, step, id);
    } else if PublisherStep(step) {
      SendingKeepsDb(t, s, step);
      hide Apply;
    } else {
      WorkersLeaveOutbox(t, s, step);
    }
  }

  // How often a row changes in a run.
  function Changes(t: Topology, s: Pipeline, steps: seq<Step>, id: Uuid): nat
    decreases |steps|
  {
    if steps == [] then 0
    else
      var n := |steps| - 1;
      var before, after := Run(t, s, steps[..n]).db.outbox, Run(t, s, steps).db.outbox;
      Changes(t, s, steps[..n], id) + (if id in before && id in after && before[id] != after[id] then 1 else 0)
  }

  ghost predicate OrdinaryRun(t: Topology, s: Pipeline, steps: seq<Step>)
    decreases |steps|
  {
    steps == [] || (OrdinaryRun(t, s, steps[..|steps| - 1]) && Ordinary(Run(t, s, steps[..|steps| - 1]), steps[|steps| - 1]))
  }

  // Without replays and lapsed claims every change brings a row closer to being
  // published or isolated, where it stays; the changes it can still go through
  // are bounded by its remaining attempts.
  lemma {:induction false} RowsDrain(t: Topology, prior: seq<Step>, steps: seq<Step>, id: Uuid)
    requires ValidTopology(t) && OrdinaryRun(t, Run(t, Start, prior), steps)
    requires id in Run(t, Start, prior).db.outbox
    ensures var s := Run(t, Start, prior); var s' := Run(t, s, steps);
      && id in s'.db.outbox
      && Changes(t, s, steps, id) + ChangesLeft(t.maxAttempts, s'.db.outbox[id]) <= ChangesLeft(t.maxAttempts, s.db.outbox[id])
      && (ChangesLeft(t.maxAttempts, s'.db.outbox[id]) == 0 <==> s'.db.outbox[id].status == Published || s'.db.outbox[id].status == Isolated)
    decreases |steps|
  {
    var s := Run(t, Start, prior);
    RunSplits(t, Start, prior, steps);
    OutboxRowsKeepShape(t, prior, id);
    if steps != [] {
      var n := |steps| - 1;
      RowsDrain(t, prior, steps[..n], id);
      RunSplits(t, Start, prior, steps[..n]);
      EveryRunIsSound(t, prior + steps[..n]);
      var before := Run(t, s, steps[..n]);
      hide Apply, Run, ChangesLeft, RowShape;
      StepKeepsRow(t, before, steps[n], id);
      LastStep(t, s, steps);
      RowMovesDown(t, before, steps[n], id);
      OutboxRowsKeepShape(t, prior + steps, id);
      ShapeDecides(t, Run(t, s, steps).db.outbox[id]);
    } else {
      ShapeDecides(t, s.db.outbox[id]);
    }
  }

  lemma {:induction false} LastStep(t: Topology, s: Pipeline, steps: seq<Step>)
    requires steps != []
    ensures Run(t, s, steps) == Apply(t, Run(t, s, steps[..|steps| - 1]), steps[|steps| - 1])
  {
  }

  lemma {:induction false} StepKeepsRow(t: Topology, s: Pipeline, step: Step, id: Uuid)
    requires ValidTopology(t) && Inv(t, s) && id in s.db.outbox
    ensures id in Apply(t, s, step).db.outbox
  {
    hide Apply;
    StepKeepsDb(t, s, step);
  }

  lemma {:induction false} ShapeDecides(t: Topology, row: OutboxRow)
    requires RowShape(row, t.maxAttempts)
    ensures ChangesLeft(t.maxAttempts, row) == 0 <==> row.status == Published || row.status == Isolated
  {
  }
}
