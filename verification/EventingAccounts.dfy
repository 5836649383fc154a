// Keeping account of every message: the copies the broker holds against the
// acknowledgements workers are entitled to.
module EventingAccounts {
  import opened EventingModel
  import opened EventingInvariants
  import opened EventingPipeline
  import opened EventingGuarantees

  // ------------------------------------------------------------------- counting

  ghost function CountIf<K(!new), V>(p: V -> bool, m: map<K, V>): nat {
    |set k | k in m && p(m[k])|
  }

  lemma {:induction false} CountWithout<K(!new), V>(p: V -> bool, m: map<K, V>, k: K)
    ensures CountIf(p, m) == CountIf(p, m - {k}) + (if k in m && p(m[k]) then 1 else 0)
  {
    var all, rest := set x | x in m && p(m[x]), set x | x in m - {k} && p((m - {k})[x]);
    if k in m && p(m[k]) {
      assert all == rest + {k};
    } else {
      assert all == rest;
    }
  }

  lemma {:induction false} CountWith<K(!new), V>(p: V -> bool, m: map<K, V>, k: K, v: V)
    ensures CountIf(p, m[k := v]) == CountIf(p, m - {k}) + (if p(v) then 1 else 0)
  {
    CountWithout(p, m[k := v], k);
    assert m[k := v] - {k} == m - {k};
  }

  // What is counted in one map is counted in the other.
  lemma {:induction false} CountAtMost<K(!new), V>(p: V -> bool, m: map<K, V>, n: map<K, V>)
    requires forall k :: k in m && p(m[k]) ==> k in n && p(n[k])
    ensures CountIf(p, m) <= CountIf(p, n)
  {
    var a, b := set k | k in m && p(m[k]), set k | k in n && p(n[k]);
    assert a <= b;
    SubsetSize(a, b);
  }

  lemma {:induction false} SubsetSize<T>(a: set<T>, b: set<T>)
    requires a <= b
    ensures |a| <= |b|
  {
    assert b == a + (b - a);
  }

  lemma {:induction false} CountedIsThere<K(!new), V>(p: V -> bool, m: map<K, V>)
    requires CountIf(p, m) >= 1
    ensures exists k :: k in m && p(m[k])
  {
    var all := set k | k in m && p(m[k]);
    var k :| k in all;
  }

  // ------------------------------------------------------------------- accounts

  // The account of a message at a consumer. Counted wide, a copy in a retry layer
  // counts for every consumer it will come back to.
  datatype Account = Account(pair: Pair, wide: bool)

  predicate CountsFor(t: Topology, a: Account, c: Copy) {
    || PairOf(c) == a.pair
    || (a.wide && c.place == Delayed && c.envelope == a.pair.envelope && a.pair.consumer in Reach(t, c.consumer))
  }

  function Carrying(t: Topology, a: Account): Copy -> bool { (c: Copy) => CountsFor(t, a, c) }

  // Told that their retry was routed, and not yet done acknowledging.
  function Leaving(a: Account): Worker -> bool { (w: Worker) => w.phase == Republished && WorkerPair(w) == a.pair }

  // Retries the broker routed and nobody has been told about.
  function Untold(t: Topology, a: Account): Passage -> bool {
    (x: Passage) => x.stage == Routed && x.cargo.Again? && CountsFor(t, a, x.cargo.copy)
  }

  // Copies of a message for a consumer beyond those that may be acknowledged on
  // the strength of another copy.
  ghost function Margin(t: Topology, s: Pipeline, a: Account): int {
    CountIf(Carrying(t, a), s.copies) - CountIf(Leaving(a), s.workers) - CountIf(Untold(t, a), s.wire)
  }

  ghost predicate Accounted(t: Topology, s: Pipeline, a: Account, n: nat) {
    Recorded(s.db, a.pair.envelope, a.pair.consumer) || Margin(t, s, a) >= n
  }

  lemma {:induction false} AccountedIsHeldOrRecorded(t: Topology, s: Pipeline, a: Account)
    requires Accounted(t, s, a, 1)
    ensures Recorded(s.db, a.pair.envelope, a.pair.consumer) || exists k :: k in s.copies && CountsFor(t, a, s.copies[k])
  {
    if !Recorded(s.db, a.pair.envelope, a.pair.consumer) {
      CountedIsThere(Carrying(t, a), s.copies);
      var k :| k in s.copies && Carrying(t, a)(s.copies[k]);
      assert CountsFor(t, a, s.copies[k]);
    }
  }

  // --------------------------------------------------------- what steps do to it

  lemma {:induction false} MovedCopyCounts(t: Topology, a: Account, copies: map<nat, Copy>, k: nat, place: Place)
    requires k in copies && copies[k].place != Delayed && place != Delayed
    ensures CountIf(Carrying(t, a), copies[k := copies[k].(place := place)]) == CountIf(Carrying(t, a), copies)
  {
    CountWithout(Carrying(t, a), copies, k);
    CountWith(Carrying(t, a), copies, k, copies[k].(place := place));
  }

  lemma {:induction false} NewCopyCounts(t: Topology, a: Account, copies: map<nat, Copy>, k: nat, c: Copy)
    requires k !in copies
    ensures CountIf(Carrying(t, a), copies[k := c]) == CountIf(Carrying(t, a), copies) + (if CountsFor(t, a, c) then 1 else 0)
  {
    CountWith(Carrying(t, a), copies, k, c);
    assert copies - {k} == copies;
  }

  lemma {:induction false} QueuedCopiesCount(t: Topology, a: Account, copies: map<nat, Copy>, next: nat, e: Envelope, attempt: nat, consumers: seq<string>)
    requires forall k :: k in copies ==> k < next
    ensures CountIf<nat, Copy>(Carrying(t, a), Enqueue(copies, next, e, attempt, consumers)) >=
            CountIf<nat, Copy>(Carrying(t, a), copies) + (if a.pair.envelope == e && a.pair.consumer in consumers then 1 else 0)
  {
    hide CountIf;
    var all := Enqueue(copies, next, e, attempt, consumers);
    CountAtMost<nat, Copy>(Carrying(t, a), copies, all);
    if a.pair.envelope == e && a.pair.consumer in consumers {
      var i :| 0 <= i < |consumers| && consumers[i] == a.pair.consumer;
      assert all[next + i] == Copy(e, consumers[i], attempt, Ready);
      assert Carrying(t, a)(all[next + i]);
      CountWithout<nat, Copy>(Carrying(t, a), all, next + i);
      CountAtMost<nat, Copy>(Carrying(t, a), copies, all - {next + i});
    }
  }

  lemma {:induction false} OwnKeyReaches(t: Topology, consumer: string)
    requires ValidTopology(t)
    ensures consumer in Reach(t, consumer)
  {
  }

  // A copy that has waited makes room for one at every consumer it counts for.
  lemma {:induction false} ExpiredCopyCounts(t: Topology, s: Pipeline, k: nat, a: Account)
    requires ValidTopology(t) && Numbered(s)
    ensures CountIf(Carrying(t, a), DoExpire(t, s, k).copies) >= CountIf(Carrying(t, a), s.copies)
  {
    hide CountIf, Enqueue, Reach, ValidTopology;
    if k in s.copies && s.copies[k].place == Delayed {
      var c := s.copies[k];
      CountWithout(Carrying(t, a), s.copies, k);
      OwnKeyReaches(t, c.consumer);
      QueuedCopiesCount(t, a, s.copies - {k}, s.nextCopy, c.envelope, c.attempt, Reach(t, c.consumer));
    }
  }

  // Nobody new is entitled to an acknowledgement.
  lemma {:induction false} NobodyLeaves(a: Account, workers: map<nat, Worker>, after: map<nat, Worker>, acting: nat)
    requires WorkersKept(workers, after, acting)
    requires acting in after && after[acting].phase == Republished ==> after[acting] == workers[acting]
    ensures CountIf(Leaving(a), after) <= CountIf(Leaving(a), workers)
  {
    CountAtMost(Leaving(a), after, workers);
  }

  lemma {:induction false} NewWorkerCounts(a: Account, workers: map<nat, Worker>, tag: nat, w: Worker)
    requires tag !in workers && w.phase == Fetched
    ensures CountIf(Leaving(a), workers[tag := w]) <= CountIf(Leaving(a), workers)
  {
    CountAtMost(Leaving(a), workers[tag := w], workers);
  }

  lemma {:induction false} PostedIsNotCounted(t: Topology, a: Account, wire: map<Key, Passage>, k: Key, x: Passage)
    requires (k in wire ==> wire[k].stage != Routed) && x.stage != Routed
    ensures CountIf(Untold(t, a), wire[k := x]) == CountIf(Untold(t, a), wire)
  {
    CountWithout(Untold(t, a), wire, k);
    CountWith(Untold(t, a), wire, k, x);
  }

  // A step that neither adds copies nor takes any, nor entitles anyone.
  ghost predicate Quiet(t: Topology, s: Pipeline, s': Pipeline, a: Account) {
    && CountIf(Carrying(t, a), s'.copies) >= CountIf(Carrying(t, a), s.copies)
    && CountIf(Leaving(a), s'.workers) <= CountIf(Leaving(a), s.workers)
    && CountIf(Untold(t, a), s'.wire) <= CountIf(Untold(t, a), s.wire)
  }

  lemma {:induction false} QuietKeepsMargin(t: Topology, s: Pipeline, s': Pipeline, a: Account)
    requires Quiet(t, s, s', a)
    ensures Margin(t, s', a) >= Margin(t, s, a)
  {
  }

  lemma {:induction false} StillIsQuiet(t: Topology, s: Pipeline, s': Pipeline, a: Account)
    requires s'.copies == s.copies && s'.workers == s.workers && s'.wire == s.wire
    ensures Quiet(t, s, s', a)
  {
  }

  predicate OffBroker(step: Step) {
    ClientStep(step) || step.Claim? || step.Await? || step.GiveUp? || step.MarkDone? || step.MarkFailed? || step.PublisherCrash?
  }

  lemma {:induction false} OffBrokerIsQuiet(t: Topology, s: Pipeline, step: Step, a: Account)
    requires OffBroker(step)
    ensures Quiet(t, s, Apply(t, s, step), a)
  {
    hide Apply, Quiet;
    if step.Await? {
      AwaitIs(t, s, step.token);
      AwaitEffect(s, step.token);
    } else {
      OtherStepsLeaveChannels(t, s, step);
      if step.GiveUp? { SendingStepsEffect(t, s, step); } else { ClientsLeaveBroker(t, s, step); }
    }
    StillIsQuiet(t, s, Apply(t, s, step), a);
  }

  lemma {:induction false} AwaitIs(t: Topology, s: Pipeline, token: Token)
    ensures Apply(t, s, Await(token)) == DoAwait(s, token)
  {
  }

  lemma {:induction false} SendIsQuiet(t: Topology, s: Pipeline, step: Step, a: Account)
    requires Linked(s) && step.Send?
    ensures Quiet(t, s, Apply(t, s, step), a)
  {
    hide Apply, Linked, PortOf, CountIf;
    SendingStepsEffect(t, s, step);
    SendAddsToWire(t, s, step);
    if Apply(t, s, step).wire != s.wire {
      var line := Outgoing(step.publisher);
      PostedIsNotCounted(t, a, s.wire, Key(line, PortOf(s, line).nextTicket), Passage(Original(s.publications[step.token].row.envelope), Sent));
    }
  }

  lemma {:induction false} AskIsQuiet(t: Topology, a: Account, s: Pipeline, line: Line, ticket: nat, id: Uuid)
    ensures CountIf(Untold(t, a), Ask(s, line, ticket, id).wire) <= CountIf(Untold(t, a), s.wire)
  {
    hide PortOf, Taken;
    CountAtMost(Untold(t, a), Ask(s, line, ticket, id).wire, s.wire);
  }

  lemma {:induction false} LearnIsQuiet(t: Topology, s: Pipeline, step: Step, a: Account)
    requires step.Learn?
    ensures Quiet(t, s, Apply(t, s, step), a)
  {
    hide Ask, PortOf, Answered, ToldRouted, CountIf, DoLearn;
    SendingStepsEffect(t, s, step);
    LearnAsks(t, s, step.token, a);
  }

  lemma {:induction false} LearnAsks(t: Topology, s: Pipeline, token: Token, a: Account)
    ensures CountIf(Untold(t, a), DoLearn(s, token).wire) <= CountIf(Untold(t, a), s.wire)
  {
    hide Ask, PortOf, Answered, ToldRouted, CountIf;
    if token in s.publications && s.publications[token].phase.Awaiting? {
      var phase := s.publications[token].phase;
      AskIsQuiet(t, a, s, Outgoing(phase.publisher), phase.ticket, s.publications[token].row.envelope.messageId);
    }
  }

  lemma {:induction false} DeliverIsQuiet(t: Topology, s: Pipeline, step: Step, a: Account)
    requires Numbered(s) && step.Deliver?
    ensures Quiet(t, s, Apply(t, s, step), a)
  {
    hide Apply, CountIf, Serves, Admits;
    if Apply(t, s, step) != s {
      DeliverCases(t, s, step);
      MovedCopyCounts(t, a, s.copies, step.copyId, Unacked(s.nextTag));
      NewWorkerCounts(a, s.workers, s.nextTag, Newcomer(s, step));
    }
  }

  lemma {:induction false} MoveIsQuiet(t: Topology, s: Pipeline, step: Step, a: Account)
    requires ValidTopology(t) && Numbered(s) && (step.Inject? || step.DelayOver? || step.ConnectionLost?)
    ensures Quiet(t, s, Apply(t, s, step), a)
  {
    hide CountIf, ValidTopology, Reach, Enqueue;
    if step.Inject? {
      NewCopyCounts(t, a, s.copies, s.nextCopy, Copy(step.copy, step.consumer, step.attempt, Ready));
    } else if step.DelayOver? {
      ExpiredCopyCounts(t, s, step.copyId, a);
    } else if step.copyId in s.copies && s.copies[step.copyId].place.Unacked? {
      MovedCopyCounts(t, a, s.copies, step.copyId, Ready);
    }
  }

  lemma {:induction false} ChannelEventIsQuiet(t: Topology, s: Pipeline, step: Step, a: Account)
    requires ChannelEvent(step)
    ensures Quiet(t, s, Apply(t, s, step), a)
  {
    hide CountIf, PortOf, Answer, Bound, CP.DoReturned;
    ChannelEventsEffect(t, s, step);
    if step.Return? && step.key in s.wire && s.wire[step.key].stage == Sent {
      PostedIsNotCounted(t, a, s.wire, step.key, s.wire[step.key].(stage := Returned));
    }
  }

  // The broker's own copy of a retry comes with the right to acknowledge the old one.
  lemma {:induction false} AcceptCounts(t: Topology, s: Pipeline, key: Key, a: Account)
    requires Numbered(s)
    ensures Margin(t, DoAccept(t, s, key), a) >= Margin(t, s, a)
    ensures DoAccept(t, s, key) != s && s.wire[key].cargo == Original(a.pair.envelope) && a.pair.consumer in Bound(t, a.pair.envelope) ==>
              Margin(t, DoAccept(t, s, key), a) >= Margin(t, s, a) + 1
  {
    hide CountIf, Bound, Enqueue;
    if key in s.wire && s.wire[key].stage == Sent {
      var x := s.wire[key];
      CountWithout(Untold(t, a), s.wire, key);
      CountWith(Untold(t, a), s.wire, key, x.(stage := Routed));
      match x.cargo
      case Original(e) => QueuedCopiesCount(t, a, s.copies, s.nextCopy, e, 1, Bound(t, e));
      case Again(c) => NewCopyCounts(t, a, s.copies, s.nextCopy, c);
    }
  }

  lemma {:induction false} DeadLetterCounts(t: Topology, s: Pipeline, tag: nat, a: Account)
    ensures CountIf(Carrying(t, a), DeadLetterCopy(s, tag).copies) == CountIf(Carrying(t, a), s.copies)
  {
    if Owns(s, tag) {
      MovedCopyCounts(t, a, s.copies, s.workers[tag].copyId, DeadLettered);
    }
  }

  // A worker's step that moves at most its own copy.
  lemma {:induction false} WorkerStepIsQuiet(t: Topology, s: Pipeline, s': Pipeline, tag: nat, a: Account)
    requires WorkersKept(s.workers, s'.workers, tag) && NoneTold(s.workers, s'.workers, tag)
    requires s'.copies == s.copies || s'.copies == DeadLetterCopy(s, tag).copies
    requires CountIf(Untold(t, a), s'.wire) <= CountIf(Untold(t, a), s.wire)
    ensures Quiet(t, s, s', a)
  {
    hide CountIf, WorkersKept;
    NobodyLeaves(a, s.workers, s'.workers, tag);
    DeadLetterCounts(t, s, tag, a);
  }

  lemma {:induction false} RecoverIsQuiet(t: Topology, s: Pipeline, step: Step, a: Account)
    requires Linked(s) && step.Recover?
    ensures Quiet(t, s, Apply(t, s, step), a)
  {
    hide DoRecover, Linked, PortOf, CountIf, WorkersKept, NoneTold, Quiet;
    RecoverEffect(t, s, step.tag, step.retryable, step.writable, step.throws);
    RecoverMovesOneCopy(t, s, step.tag, step.retryable, step.writable, step.throws);
    RecoverAddsToWire(t, s, step);
    if Apply(t, s, step).wire != s.wire {
      var w := s.workers[step.tag];
      PostedIsNotCounted(t, a, s.wire, Key(w.line, PortOf(s, w.line).nextTicket), Passage(Again(NextTry(w)), Sent));
    }
    WorkerStepIsQuiet(t, s, Apply(t, s, step), step.tag, a);
  }

  predicate QuietWorkerStep(step: Step) {
    step.Check? || step.Transact? || step.AckThrows? || step.AwaitRetry? || step.WorkerCrash?
  }

  lemma {:induction false} ConsumersAreQuiet(t: Topology, s: Pipeline, step: Step, a: Account)
    requires step.Check? || step.Transact?
    ensures Quiet(t, s, Apply(t, s, step), a)
  {
    hide Apply, DoCheck, DoTransact, CountIf, WorkersKept, NoneTold, Quiet, SameOutbox, StopsWith, DeadLetterCopy;
    match step
    case Check(tag, fails) =>
      CheckIs(t, s, tag, fails);
      CheckEffect(t, s, tag, fails);
      CheckMovesOneCopy(t, s, tag, fails);
      WorkerStepIsQuiet(t, s, Apply(t, s, step), tag, a);
    case Transact(tag, run, reported) =>
      TransactIs(t, s, tag, run, reported);
      TransactEffect(t, s, tag, run, reported);
      WorkerStepIsQuiet(t, s, Apply(t, s, step), tag, a);
  }

  lemma {:induction false} WorkersAreQuiet(t: Topology, s: Pipeline, step: Step, a: Account)
    requires QuietWorkerStep(step)
    ensures Quiet(t, s, Apply(t, s, step), a)
  {
    if step.Check? || step.Transact? {
      hide Apply;
      ConsumersAreQuiet(t, s, step, a);
    } else {
      hide DoAwaitRetry, CountIf, WorkersKept, NoneTold, Quiet, SameOutbox, StopsWith, DeadLetterCopy;
      match step
      case AckThrows(tag) => AckThrowsEffect(t, s, tag); WorkerStepIsQuiet(t, s, Apply(t, s, step), tag, a);
      case AwaitRetry(tag) => AwaitRetryEffect(s, tag); WorkerStepIsQuiet(t, s, Apply(t, s, step), tag, a);
      case WorkerCrash(tag) => CrashEffect(s, tag); WorkerStepIsQuiet(t, s, Apply(t, s, step), tag, a);
    }
  }

  // ---------------------------------------------------------------- the answer

  lemma {:induction false} PhaseCounts(a: Account, workers: map<nat, Worker>, tag: nat, phase: WorkerPhase)
    requires tag in workers && workers[tag].phase != Republished
    ensures CountIf(Leaving(a), workers[tag := workers[tag].(phase := phase)]) ==
            CountIf(Leaving(a), workers) + (if phase == Republished && WorkerPair(workers[tag]) == a.pair then 1 else 0)
  {
    CountWithout(Leaving(a), workers, tag);
    CountWith(Leaving(a), workers, tag, workers[tag].(phase := phase));
  }

  // The copy a worker is told about when it is told that its copy was routed.
  function AnswerCopy(s: Pipeline, w: Worker): Copy
    requires w.phase.RetryAwaited?
  {
    var port, id := PortOf(s, w.line), w.delivery.envelope.messageId;
    var o := Taken(port, w.phase.ticket, id);
    if o.Some? && Key(w.line, o.value.ticket) in s.wire && s.wire[Key(w.line, o.value.ticket)].cargo.Again?
    then s.wire[Key(w.line, o.value.ticket)].cargo.copy else NextTry(w)
  }

  predicate HearsRouted(s: Pipeline, tag: nat) {
    && tag in s.workers && s.workers[tag].phase.RetryAwaited?
    && Answered(PortOf(s, s.workers[tag].line), s.workers[tag].phase.ticket)
    && ToldRouted(PortOf(s, s.workers[tag].line), s.workers[tag].phase.ticket, s.workers[tag].delivery.envelope.messageId)
  }

  // Exactly what such an answer does to the accounts: it moves one acknowledgement
  // from the consumers the copy it is about counts for to the consumer that was told.
  lemma {:induction false} AnswerMovesOneCopy(t: Topology, s: Pipeline, tag: nat, a: Account)
    requires Inv(t, s) && HearsRouted(s, tag)
    ensures Margin(t, Apply(t, s, LearnRetry(tag)), a) ==
            Margin(t, s, a) + (if CountsFor(t, a, AnswerCopy(s, s.workers[tag])) then 1 else 0) - (if WorkerPair(s.workers[tag]) == a.pair then 1 else 0)
  {
    hide CountIf, PortOf, Answered, Taken, CP.DoTake, Inv, Reach;
    var w := s.workers[tag];
    RoutedAnswer(t, s, tag);
    var o := Taken(PortOf(s, w.line), w.phase.ticket, w.delivery.envelope.messageId).value;
    CountWithout(Untold(t, a), s.wire, Key(w.line, o.ticket));
    PhaseCounts(a, s.workers, tag, Republished);
  }

  lemma {:induction false} RoutedAnswer(t: Topology, s: Pipeline, tag: nat)
    requires Inv(t, s) && HearsRouted(s, tag)
    ensures var w := s.workers[tag]; var o := Taken(PortOf(s, w.line), w.phase.ticket, w.delivery.envelope.messageId);
      && o.Some? && Key(w.line, o.value.ticket) in s.wire
      && s.wire[Key(w.line, o.value.ticket)].stage == Routed && s.wire[Key(w.line, o.value.ticket)].cargo.Again?
  {
    hide DbSound, PublicationsSound, ClaimsLatest, Numbered, CargoSound, PortOf, Answered, Taken, Recorded, CP.InOrder;
    var w := s.workers[tag];
    assert WorkerSound(t, s.db, s.copies, w);
    TakenIsLinked(s, w.line, w.phase.ticket, w.delivery.envelope.messageId);
    PortIsLinked(s, w.line);
  }

  // Whoever of the account is told that its copy was routed is told so of a copy
  // that counts for the account.
  predicate FairAnswer(t: Topology, s: Pipeline, step: Step, a: Account) {
    step.LearnRetry? && HearsRouted(s, step.tag) && WorkerPair(s.workers[step.tag]) == a.pair ==>
      CountsFor(t, a, AnswerCopy(s, s.workers[step.tag]))
  }

  lemma {:induction false} LearnRetryKeepsMargin(t: Topology, s: Pipeline, tag: nat, a: Account)
    requires Inv(t, s) && FairAnswer(t, s, LearnRetry(tag), a)
    ensures Margin(t, Apply(t, s, LearnRetry(tag)), a) >= Margin(t, s, a)
  {
    if HearsRouted(s, tag) {
      AnswerMovesOneCopy(t, s, tag, a);
    } else {
      hide Inv, Margin, Quiet;
      UnheardIsQuiet(t, s, tag, a);
      QuietKeepsMargin(t, s, Apply(t, s, LearnRetry(tag)), a);
    }
  }

  lemma {:induction false} UnheardIsQuiet(t: Topology, s: Pipeline, tag: nat, a: Account)
    requires !HearsRouted(s, tag)
    ensures Quiet(t, s, Apply(t, s, LearnRetry(tag)), a)
  {
    hide CountIf, PortOf, Answered, ToldRouted, Ask, WorkersKept;
    if tag in s.workers && s.workers[tag].phase.RetryAwaited? {
      var w := s.workers[tag];
      AskIsQuiet(t, a, s, w.line, w.phase.ticket, w.delivery.envelope.messageId);
      AskLeavesOthers(s, w.line, w.phase.ticket, w.delivery.envelope.messageId);
      LeavingKeepsOthers(s.workers, tag);
      NobodyLeaves(a, s.workers, s.workers - {tag}, tag);
    }
  }

  lemma {:induction false} AskLeavesOthers(s: Pipeline, line: Line, ticket: nat, id: Uuid)
    ensures Ask(s, line, ticket, id).workers == s.workers && Ask(s, line, ticket, id).copies == s.copies
  {
  }

  // An acknowledgement takes a copy only on the strength of another, or of a record.
  lemma {:induction false} AckKeepsAccount(t: Topology, s: Pipeline, tag: nat, a: Account)
    requires WorkersSound(t, s)
    ensures Recorded(s.db, a.pair.envelope, a.pair.consumer) || Margin(t, DoAck(s, tag), a) >= Margin(t, s, a)
  {
    hide CountIf, Recorded;
    if tag in s.workers && (s.workers[tag].phase == Settled || s.workers[tag].phase == Republished) {
      var w := s.workers[tag];
      assert WorkerSound(t, s.db, s.copies, w);
      CountWithout(Carrying(t, a), s.copies, w.copyId);
      CountWithout(Leaving(a), s.workers, tag);
    }
  }

  lemma {:induction false} AckIs(t: Topology, s: Pipeline, tag: nat)
    ensures Apply(t, s, Ack(tag)) == DoAck(s, tag) && DoAck(s, tag).db == s.db
  {
  }

  lemma {:induction false} QuietSteps(t: Topology, s: Pipeline, step: Step, a: Account)
    requires ValidTopology(t) && Inv(t, s) && !step.Accept? && !step.LearnRetry? && !step.Ack?
    ensures Quiet(t, s, Apply(t, s, step), a)
  {
    hide Apply, Quiet, DbSound, PublicationsSound, ClaimsLatest, Numbered, WorkersSound, PortsLinked, CargoSound, ValidTopology;
    assert Linked(s) && Numbered(s);
    if OffBroker(step) {
      OffBrokerIsQuiet(t, s, step, a);
    } else if QuietWorkerStep(step) {
      WorkersAreQuiet(t, s, step, a);
    } else if ChannelEvent(step) {
      ChannelEventIsQuiet(t, s, step, a);
    } else if step.Send? {
      SendIsQuiet(t, s, step, a);
    } else if step.Learn? {
      LearnIsQuiet(t, s, step, a);
    } else if step.Deliver? {
      DeliverIsQuiet(t, s, step, a);
    } else if step.Recover? {
      RecoverIsQuiet(t, s, step, a);
    } else {
      MoveIsQuiet(t, s, step, a);
    }
  }

  // An account is never closed while those of it are told of copies that count.
  lemma {:induction false} AccountStays(t: Topology, s: Pipeline, step: Step, a: Account, n: nat)
    requires ValidTopology(t) && Inv(t, s) && FairAnswer(t, s, step, a) && Accounted(t, s, a, n)
    ensures Accounted(t, Apply(t, s, step), a, n)
  {
    hide Apply, Inv, Margin, Quiet, DoAck, DoAccept, Advances, Recorded, ValidTopology, FairAnswer;
    var s' := Apply(t, s, step);
    InvStepAdvances(t, s, step);
    if Recorded(s.db, a.pair.envelope, a.pair.consumer) {
      RecordedStays(s.db, s'.db, a.pair.envelope, a.pair.consumer);
    } else if step.Ack? {
      AckIs(t, s, step.tag);
      AckKeepsAccount(t, s, step.tag, a) by { InvParts(t, s); }
    } else if step.LearnRetry? {
      LearnRetryKeepsMargin(t, s, step.tag, a);
    } else if step.Accept? {
      AcceptIs(t, s, step.key);
      AcceptCounts(t, s, step.key, a) by { InvParts(t, s); }
    } else {
      QuietSteps(t, s, step, a);
      QuietKeepsMargin(t, s, s', a);
    }
  }

  // ---------------------------------------------------------------- the books

  // The broker routed the message, a publisher heard so, or its row says so.
  ghost predicate RoutedOnWire(s: Pipeline, e: Envelope) {
    exists k :: k in s.wire && s.wire[k] == Passage(Original(e), Routed)
  }

  ghost predicate ConfirmedTo(s: Pipeline, e: Envelope) {
    exists tok :: tok in s.publications && s.publications[tok].phase == Confirmed && s.publications[tok].row.envelope == e
  }

  predicate PublishedRow(db: Store, e: Envelope) {
    e.messageId in db.outbox && db.outbox[e.messageId].status == Published && db.outbox[e.messageId].envelope == e
  }

  // A consumer is owed no more acknowledgements than it has copies, and a message
  // that is out is accounted for.
  ghost predicate Books(t: Topology, s: Pipeline, a: Account) {
    var e := a.pair.envelope;
    Accounted(t, s, a, if RoutedOnWire(s, e) || ConfirmedTo(s, e) || PublishedRow(s.db, e) then 1 else 0)
  }

  lemma {:induction false} AcceptRoutes(t: Topology, s: Pipeline, key: Key, k: Key)
    requires k in DoAccept(t, s, key).wire
    ensures k in s.wire && DoAccept(t, s, key).wire[k].cargo == s.wire[k].cargo
    ensures DoAccept(t, s, key).wire[k].stage == Routed && s.wire[k].stage != Routed ==> k == key && DoAccept(t, s, key) != s
  {
    hide Bound, Enqueue;
  }

  // Only the broker routes.
  lemma {:induction false} OthersRouteNothing(t: Topology, s: Pipeline, step: Step, k: Key)
    requires Linked(s) && !step.Accept? && k in Apply(t, s, step).wire && Apply(t, s, step).wire[k].stage == Routed
    ensures k in s.wire && s.wire[k] == Apply(t, s, step).wire[k]
  {
    hide Apply, PortOf, Linked, WillRetry;
    if step.Send? {
      SendAddsToWire(t, s, step);
    } else if step.Recover? {
      RecoverAddsToWire(t, s, step);
    } else if !ChannelStep(step) {
      OtherStepsLeaveChannels(t, s, step);
    } else if ChannelEvent(step) {
      ChannelEventsRouteNothing(t, s, step, k);
    } else {
      AskersRouteNothing(t, s, step, k);
    }
  }

  lemma {:induction false} ChannelEventsRouteNothing(t: Topology, s: Pipeline, step: Step, k: Key)
    requires ChannelEvent(step) && k in Apply(t, s, step).wire && Apply(t, s, step).wire[k].stage == Routed
    ensures k in s.wire && s.wire[k] == Apply(t, s, step).wire[k]
  {
    hide PortOf, Answer, Bound, CP.DoReturned;
  }

  lemma {:induction false} AskRoutesNothing(s: Pipeline, line: Line, ticket: nat, id: Uuid, k: Key)
    requires k in Ask(s, line, ticket, id).wire
    ensures k in s.wire && s.wire[k] == Ask(s, line, ticket, id).wire[k]
  {
  }

  lemma {:induction false} LearnersRouteNothing(s: Pipeline, token: Token, tag: nat, k: Key)
    ensures k in DoLearn(s, token).wire ==> k in s.wire && s.wire[k] == DoLearn(s, token).wire[k]
    ensures k in DoLearnRetry(s, tag).wire ==> k in s.wire && s.wire[k] == DoLearnRetry(s, tag).wire[k]
  {
    hide Ask, PortOf, Answered, ToldRouted;
    if token in s.publications && s.publications[token].phase.Awaiting? {
      var phase, id := s.publications[token].phase, s.publications[token].row.envelope.messageId;
      if k in Ask(s, Outgoing(phase.publisher), phase.ticket, id).wire { AskRoutesNothing(s, Outgoing(phase.publisher), phase.ticket, id, k); }
    }
    if tag in s.workers && s.workers[tag].phase.RetryAwaited? {
      var w := s.workers[tag];
      if k in Ask(s, w.line, w.phase.ticket, w.delivery.envelope.messageId).wire { AskRoutesNothing(s, w.line, w.phase.ticket, w.delivery.envelope.messageId, k); }
    }
  }

  lemma {:induction false} AskersRouteNothing(t: Topology, s: Pipeline, step: Step, k: Key)
    requires (step.Await? || step.AwaitRetry? || step.Learn? || step.LearnRetry?) && k in Apply(t, s, step).wire
    ensures k in s.wire && s.wire[k] == Apply(t, s, step).wire[k]
  {
    hide DoAwait, DoAwaitRetry, DoLearn, DoLearnRetry, SendingEffect, RetryEffect, SameQueues, NoneTold;
    match step
    case Await(token) => AwaitEffect(s, token);
    case AwaitRetry(tag) => AwaitRetryEffect(s, tag);
    case Learn(token) => LearnersRouteNothing(s, token, 0, k);
    case LearnRetry(tag) => LearnersRouteNothing(s, 0, tag, k);
  }

  // A publisher that is told so has its own message routed: a publisher's channel
  // may hand it the answer to another publication only of the same message.
  lemma {:induction false} ToldPublisherIsRight(t: Topology, s: Pipeline, token: Token, line: Line, ticket: nat)
    requires Inv(t, s) && token in s.publications && line.Outgoing?
    requires ToldRouted(PortOf(s, line), ticket, s.publications[token].row.envelope.messageId)
    ensures var k := Key(line, Taken(PortOf(s, line), ticket, s.publications[token].row.envelope.messageId).value.ticket);
      k in s.wire && s.wire[k] == Passage(Original(s.publications[token].row.envelope), Routed)
  {
    hide DbSound, ClaimsLatest, Numbered, WorkersSound, PortOf, Taken, CP.InOrder;
    TakenIsLinked(s, line, ticket, s.publications[token].row.envelope.messageId);
    PortIsLinked(s, line);
  }

  lemma {:induction false} LearnConfirms(s: Pipeline, token: Token, learner: Token)
    requires token in DoLearn(s, learner).publications && DoLearn(s, learner).publications[token].phase == Confirmed
    ensures token in s.publications && DoLearn(s, learner).publications[token].row == s.publications[token].row
    ensures s.publications[token].phase == Confirmed || (token == learner && Told(s, token))
  {
    hide PortOf, Ask, Answered, ToldRouted;
    if learner in s.publications && s.publications[learner].phase.Awaiting? {
      var phase := s.publications[learner].phase;
      AskEffect(s, Outgoing(phase.publisher), phase.ticket, s.publications[learner].row.envelope.messageId);
    }
  }

  predicate Told(s: Pipeline, token: Token) {
    && token in s.publications && s.publications[token].phase.Awaiting?
    && ToldRouted(PortOf(s, Outgoing(s.publications[token].phase.publisher)), s.publications[token].phase.ticket, s.publications[token].row.envelope.messageId)
  }

  lemma {:induction false} SendersConfirmNothing(t: Topology, s: Pipeline, step: Step, token: Token)
    requires step.Send? || step.Await? || step.GiveUp?
    requires token in Apply(t, s, step).publications && Apply(t, s, step).publications[token].phase == Confirmed
    ensures token in s.publications && s.publications[token] == Apply(t, s, step).publications[token]
  {
    hide PortOf, Takes, Wait;
  }

  lemma {:induction false} MarkersConfirmNothing(t: Topology, s: Pipeline, step: Step, token: Token)
    requires step.Claim? || step.MarkDone? || step.MarkFailed? || step.PublisherCrash?
    requires token in Apply(t, s, step).publications && Apply(t, s, step).publications[token].phase == Confirmed
    ensures token in s.publications && s.publications[token] == Apply(t, s, step).publications[token]
  {
    hide Claimable, MarkPublished, MarkFailure, BackoffSeconds, Exhausted;
  }

  lemma {:induction false} ClientsConfirmNothing(t: Topology, s: Pipeline, step: Step)
    requires ClientStep(step)
    ensures Apply(t, s, step).publications == s.publications
  {
    hide SubmitTransaction, ReplayOutbox, AppendRow;
  }

  lemma {:induction false} LearnIs(t: Topology, s: Pipeline, token: Token)
    ensures Apply(t, s, Learn(token)) == DoLearn(s, token)
  {
  }

  lemma {:induction false} NewlyConfirmed(t: Topology, s: Pipeline, step: Step, token: Token)
    requires token in Apply(t, s, step).publications && Apply(t, s, step).publications[token].phase == Confirmed
    ensures token in s.publications && Apply(t, s, step).publications[token].row == s.publications[token].row
    ensures s.publications[token].phase == Confirmed || (step.Learn? && Told(s, token))
  {
    hide Apply, Told, DoLearn;
    if ClientStep(step) {
      ClientsConfirmNothing(t, s, step);
    } else if step.Learn? {
      LearnIs(t, s, step.token);
      LearnConfirms(s, token, step.token);
    } else if step.Send? || step.Await? || step.GiveUp? {
      SendersConfirmNothing(t, s, step, token);
    } else if PublisherStep(step) {
      MarkersConfirmNothing(t, s, step, token);
    } else {
      WorkersLeaveOutbox(t, s, step);
    }
  }

  // A row becomes published by the mark of a confirmed publication of its envelope.
  lemma {:induction false} MarkingPublishes(t: Topology, s: Pipeline, step: Step, id: Uuid)
    requires PublicationsSound(s)
    requires id in Apply(t, s, step).db.outbox && Apply(t, s, step).db.outbox[id].status == Published
    requires id !in s.db.outbox || s.db.outbox[id].status != Published
    ensures step.MarkDone? && step.token in s.publications && s.publications[step.token].phase == Confirmed
    ensures Apply(t, s, step).db.outbox[id].envelope == s.publications[step.token].row.envelope
  {
    if step.MarkDone? || step.MarkFailed? || step.Claim? {
      hide BackoffSeconds, Exhausted, Claimable;
    } else {
      hide Apply, PublicationsSound;
      OthersPublishNothing(t, s, step, id);
      assert false;
    }
  }

  lemma {:induction false} OthersPublishNothing(t: Topology, s: Pipeline, step: Step, id: Uuid)
    requires !step.MarkDone? && !step.MarkFailed? && !step.Claim?
    requires id in Apply(t, s, step).db.outbox && Apply(t, s, step).db.outbox[id].status == Published
    ensures id in s.db.outbox && s.db.outbox[id].status == Published
  {
    hide Apply;
    if ClientStep(step) {
      ClientsPublishNothing(t, s, step, id);
    } else if PublisherStep(step) {
      SendingKeepsDb(t, s, step);
    } else {
      WorkersLeaveOutbox(t, s, step);
    }
  }

  lemma {:induction false} ClientsPublishNothing(t: Topology, s: Pipeline, step: Step, id: Uuid)
    requires ClientStep(step) && id in Apply(t, s, step).db.outbox && Apply(t, s, step).db.outbox[id].status == Published
    ensures id in s.db.outbox && s.db.outbox[id].status == Published
  {
    hide JobConflict;
  }

  lemma {:induction false} OutStays(t: Topology, s: Pipeline, step: Step, e: Envelope)
    requires ValidTopology(t) && Inv(t, s)
    ensures RoutedOnWire(Apply(t, s, step), e) ==> RoutedOnWire(s, e) || RoutesNow(t, s, step, e)
    ensures ConfirmedTo(Apply(t, s, step), e) ==> ConfirmedTo(s, e) || RoutedOnWire(s, e)
    ensures PublishedRow(Apply(t, s, step).db, e) ==> PublishedRow(s.db, e) || ConfirmedTo(s, e)
  {
    hide Apply, Inv, DoAccept, RoutesNow, Told, ValidTopology;
    InvParts(t, s);
    var s' := Apply(t, s, step);
    if RoutedOnWire(s', e) {
      var k :| k in s'.wire && s'.wire[k] == Passage(Original(e), Routed);
      NewlyRouted(t, s, step, k);
    }
    if ConfirmedTo(s', e) {
      var tok :| tok in s'.publications && s'.publications[tok].phase == Confirmed && s'.publications[tok].row.envelope == e;
      NewlyConfirmed(t, s, step, tok);
      if s.publications[tok].phase != Confirmed {
        ToldIsRouted(t, s, tok);
      }
    }
    if PublishedRow(s'.db, e) && !PublishedRow(s.db, e) {
      NewlyPublished(t, s, step, e);
    }
  }

  // The step by which the broker routes the message.
  predicate RoutesNow(t: Topology, s: Pipeline, step: Step, e: Envelope) {
    step.Accept? && step.key in s.wire && s.wire[step.key].cargo == Original(e) && DoAccept(t, s, step.key) != s
  }

  lemma {:induction false} NewlyRouted(t: Topology, s: Pipeline, step: Step, k: Key)
    requires Linked(s) && k in Apply(t, s, step).wire && Apply(t, s, step).wire[k].stage == Routed && Apply(t, s, step).wire[k].cargo.Original?
    ensures RoutedOnWire(s, Apply(t, s, step).wire[k].cargo.envelope) || RoutesNow(t, s, step, Apply(t, s, step).wire[k].cargo.envelope)
  {
    hide Apply, Linked, DoAccept;
    if step.Accept? {
      AcceptIs(t, s, step.key);
      AcceptRoutes(t, s, step.key, k);
    } else {
      OthersRouteNothing(t, s, step, k);
    }
  }

  lemma {:induction false} ToldIsRouted(t: Topology, s: Pipeline, token: Token)
    requires Inv(t, s) && Told(s, token)
    ensures RoutedOnWire(s, s.publications[token].row.envelope)
  {
    hide Inv, ToldRouted, Taken, PortOf;
    ToldPublisherIsRight(t, s, token, Outgoing(s.publications[token].phase.publisher), s.publications[token].phase.ticket);
  }

  lemma {:induction false} NewlyPublished(t: Topology, s: Pipeline, step: Step, e: Envelope)
    requires ValidTopology(t) && Inv(t, s) && PublishedRow(Apply(t, s, step).db, e) && !PublishedRow(s.db, e)
    ensures ConfirmedTo(s, e)
  {
    hide Apply, Inv, PublicationsSound, ValidTopology;
    InvParts(t, s);
    InvStepAdvances(t, s, step);
    var id := e.messageId;
    if id !in s.db.outbox || s.db.outbox[id].status != Published {
      MarkingPublishes(t, s, step, id);
    }
  }

  // The books balance after every step, told fairly.
  lemma {:induction false} StepKeepsBooks(t: Topology, s: Pipeline, step: Step, a: Account)
    requires ValidTopology(t) && Inv(t, s) && FairAnswer(t, s, step, a) && Books(t, s, a) && a.pair.consumer in Bound(t, a.pair.envelope)
    ensures Books(t, Apply(t, s, step), a)
  {
    hide Apply, Inv, FairAnswer, ValidTopology, Accounted, RoutedOnWire, ConfirmedTo, PublishedRow, RoutesNow, Bound;
    var e := a.pair.envelope;
    OutStays(t, s, step, e);
    AccountWeakens(t, s, a);
    AccountStays(t, s, step, a, 0);
    if RoutedOnWire(s, e) || ConfirmedTo(s, e) || PublishedRow(s.db, e) {
      AccountStays(t, s, step, a, 1);
    } else if RoutesNow(t, s, step, e) {
      RoutingAccounts(t, s, step, a);
    }
  }

  lemma {:induction false} AccountWeakens(t: Topology, s: Pipeline, a: Account)
    ensures Accounted(t, s, a, 1) ==> Accounted(t, s, a, 0)
  {
  }

  // What the broker routes, it holds for every bound consumer.
  lemma {:induction false} RoutingAccounts(t: Topology, s: Pipeline, step: Step, a: Account)
    requires Inv(t, s) && Accounted(t, s, a, 0) && RoutesNow(t, s, step, a.pair.envelope) && a.pair.consumer in Bound(t, a.pair.envelope)
    ensures Accounted(t, Apply(t, s, step), a, 1)
  {
    hide Inv, Margin, DoAccept, Recorded, Apply;
    InvParts(t, s);
    AcceptIs(t, s, step.key);
    AcceptEffect(t, s, step.key);
    AcceptCounts(t, s, step.key, a);
  }
}
