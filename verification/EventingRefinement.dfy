// The publishing loop and the handling of a delivery are runs of the pipeline.
module EventingRefinement {
  import opened Prelude
  import opened EventingModel
  import opened EventingStore
  import opened EventingPipeline
  import opened EventingGuarantees
  import opened EventingInvariants
  import OP = OutboxPublisher
  import RD = RabbitDelivery

  // ------------------------------------------------------------- one publication

  // A confirm channel with nothing in flight.
  predicate Idle(s: Pipeline, line: Line) {
    var port := PortOf(s, line);
    port.open && !port.backpressured && port.operations == []
  }

  predicate SameTerms(c: OP.Settings, t: Topology) {
    c.maxAttempts == t.maxAttempts && c.backoffSeconds == t.backoffSeconds
  }

  function Posted(n: nat, id: Uuid): CP.Operation { CP.Operation(n, id, false, CP.Waiting, false) }

  // A channel with one publication, in the course of being answered.
  predicate Holds(port: CP.Port, o: CP.Operation) {
    port.open && !port.backpressured && port.operations == [o]
  }

  lemma {:induction false} OneIsTakenUp(port: CP.Port, n: nat, id: Uuid)
    requires Holds(port, Posted(n, id))
    ensures Wait(port).1 == Some(n) && Holds(Wait(port).0, Posted(n, id).(claimed := true))
  {
    var o := Posted(n, id).(claimed := true);
    assert port.operations[0 := o] == [o];
    assert CP.DoResume(CP.DoClaim(port), n) == CP.DoClaim(port);
  }

  lemma {:induction false} OneIsAnswered(port: CP.Port, n: nat, id: Uuid)
    requires Holds(port, Posted(n, id).(claimed := true))
    ensures var o := Posted(n, id).(claimed := true, status := CP.Confirmed);
      Holds(Answer(port, n, false), o) && n in Answer(port, n, false).resolved
  {
    var o := Posted(n, id).(claimed := true, status := CP.Confirmed);
    assert port.operations[0 := o] == [o];
  }

  lemma {:induction false} OneIsTaken(port: CP.Port, n: nat, id: Uuid)
    requires Holds(port, Posted(n, id).(claimed := true, status := CP.Confirmed)) && n in port.resolved
    ensures Answered(port, n) && ToldRouted(port, n, id) && Taken(port, n, id).value.ticket == n
    ensures var after := CP.DoTake(port, id).0; after.open && !after.backpressured && after.operations == []
  {
  }

  // ------------------------------------------------------------------ one row

  function Confirming(token: Token, n: nat, ticket: nat, at: int): seq<Step> {
    var key := Key(Outgoing(n), ticket);
    [Send(token, n, true, false), Await(token), Accept(key), Settle(key, false)] + [Learn(token), MarkDone(token, at)]
  }

  lemma {:induction false} SendingSends(t: Topology, s: Pipeline, token: Token, row: OutboxRow, n: nat)
    requires token in s.publications && s.publications[token] == Publication(row, Held) && Idle(s, Outgoing(n)) && RouteOf(row.envelope) in t.routes
    ensures var s' := DoSend(t, s, token, n, true, false); var ticket := PortOf(s, Outgoing(n)).nextTicket; var key := Key(Outgoing(n), ticket);
      && s'.db == s.db && s'.usedTokens == s.usedTokens
      && s'.publications == s.publications[token := Publication(row, Sending(n))]
      && Holds(PortOf(s', Outgoing(n)), Posted(ticket, row.envelope.messageId))
      && key in s'.wire && s'.wire[key] == Passage(Original(row.envelope), EventingPipeline.Sent)
  {
    var port := PortOf(s, Outgoing(n));
    assert [] + [Posted(port.nextTicket, row.envelope.messageId)] == [Posted(port.nextTicket, row.envelope.messageId)];
  }

  lemma {:induction false} AwaitingAwaits(s: Pipeline, token: Token, row: OutboxRow, n: nat, ticket: nat)
    requires token in s.publications && s.publications[token] == Publication(row, Sending(n))
    requires Holds(PortOf(s, Outgoing(n)), Posted(ticket, row.envelope.messageId))
    ensures var s' := DoAwait(s, token);
      && s'.db == s.db && s'.usedTokens == s.usedTokens && s'.wire == s.wire
      && s'.publications == s.publications[token := Publication(row, Awaiting(n, ticket))]
      && Holds(PortOf(s', Outgoing(n)), Posted(ticket, row.envelope.messageId).(claimed := true))
  {
    OneIsTakenUp(PortOf(s, Outgoing(n)), ticket, row.envelope.messageId);
    hide Wait, Holds;
  }

  lemma {:induction false} BrokerConfirms(t: Topology, s: Pipeline, row: OutboxRow, n: nat, ticket: nat)
    requires Bound(t, row.envelope) != [] && Holds(PortOf(s, Outgoing(n)), Posted(ticket, row.envelope.messageId).(claimed := true))
    requires var key := Key(Outgoing(n), ticket); key in s.wire && s.wire[key] == Passage(Original(row.envelope), EventingPipeline.Sent)
    ensures var key := Key(Outgoing(n), ticket); var s' := DoSettle(DoAccept(t, s, key), key, false);
      && s'.db == s.db && s'.usedTokens == s.usedTokens && s'.publications == s.publications
      && Holds(PortOf(s', Outgoing(n)), Posted(ticket, row.envelope.messageId).(claimed := true, status := CP.Confirmed))
      && ticket in PortOf(s', Outgoing(n)).resolved
  {
    var key := Key(Outgoing(n), ticket);
    OneIsAnswered(PortOf(s, Outgoing(n)), ticket, row.envelope.messageId);
    hide Answer, Holds, Bound, Enqueued;
    var s1 := DoAccept(t, s, key);
    assert s1.ports == s.ports && s1.db == s.db && s1.publications == s.publications && s1.usedTokens == s.usedTokens && key in s1.wire && s1.wire[key].stage == Routed;
  }

  lemma {:induction false} LearningMarks(s: Pipeline, token: Token, row: OutboxRow, n: nat, ticket: nat, at: int)
    requires token in s.publications && s.publications[token] == Publication(row, Awaiting(n, ticket))
    requires Holds(PortOf(s, Outgoing(n)), Posted(ticket, row.envelope.messageId).(claimed := true, status := CP.Confirmed))
    requires ticket in PortOf(s, Outgoing(n)).resolved
    ensures var s' := DoMarkDone(DoLearn(s, token), token, at);
      && s'.db == MarkPublished(s.db, row.envelope.messageId, token, at) && s'.usedTokens == s.usedTokens
      && s'.publications == s.publications - {token} && Idle(s', Outgoing(n))
  {
    OneIsTaken(PortOf(s, Outgoing(n)), ticket, row.envelope.messageId);
    hide Answered, ToldRouted, Taken, CP.DoTake, MarkPublished, Holds;
    var s1 := DoLearn(s, token);
    assert s1.publications == s.publications[token := Publication(row, Confirmed)] && s1.db == s.db && s1.usedTokens == s.usedTokens;
    assert s.publications[token := Publication(row, Confirmed)] - {token} == s.publications - {token};
  }

  lemma {:induction false} ConfirmingIs(t: Topology, s: Pipeline, token: Token, n: nat, ticket: nat, at: int)
    ensures var key := Key(Outgoing(n), ticket);
      Run(t, s, Confirming(token, n, ticket, at)) ==
      DoMarkDone(DoLearn(DoSettle(DoAccept(t, DoAwait(DoSend(t, s, token, n, true, false), token), key), key, false), token), token, at)
  {
    hide Run, DoSend, DoAwait, DoAccept, DoSettle, DoLearn, DoMarkDone;
    var key := Key(Outgoing(n), ticket);
    RunSplits(t, s, [Send(token, n, true, false), Await(token), Accept(key), Settle(key, false)], [Learn(token), MarkDone(token, at)]);
    FourSteps(t, s, Send(token, n, true, false), Await(token), Accept(key), Settle(key, false));
    TwoSteps(t, DoSettle(DoAccept(t, DoAwait(DoSend(t, s, token, n, true, false), token), key), key, false), Learn(token), MarkDone(token, at));
  }

  // A row whose send is confirmed is marked published.
  lemma {:induction false} ConfirmedRowIsARun(t: Topology, s: Pipeline, token: Token, row: OutboxRow, n: nat, at: int)
    requires token in s.publications && s.publications[token] == Publication(row, Held) && Idle(s, Outgoing(n)) && Bound(t, row.envelope) != []
    ensures var s' := Run(t, s, Confirming(token, n, PortOf(s, Outgoing(n)).nextTicket, at));
      && s'.db == MarkPublished(s.db, row.envelope.messageId, token, at)
      && s'.publications == s.publications - {token} && Idle(s', Outgoing(n))
  {
    hide Run, Apply, DoSend, DoAwait, DoAccept, DoSettle, DoLearn, DoMarkDone, Idle, Holds, PortOf, MarkPublished;
    var ticket := PortOf(s, Outgoing(n)).nextTicket;
    var key := Key(Outgoing(n), ticket);
    ConfirmingIs(t, s, token, n, ticket, at);
    SendingSends(t, s, token, row, n);
    var s1 := DoSend(t, s, token, n, true, false);
    AwaitingAwaits(s1, token, row, n, ticket);
    var s2 := DoAwait(s1, token);
    BrokerConfirms(t, s2, row, n, ticket);
    var s3 := DoSettle(DoAccept(t, s2, key), key, false);
    LearningMarks(s3, token, row, n, ticket, at);
    assert s3.publications - {token} == s.publications - {token};
  }

  function Failing(token: Token, n: nat, at: int): seq<Step> {
    [Send(token, n, true, true), MarkFailed(token, at, "publish_failed")]
  }

  // A row whose send fails is put back or isolated.
  lemma {:induction false} FailedRowIsARun(t: Topology, s: Pipeline, token: Token, row: OutboxRow, n: nat, at: int)
    requires token in s.publications && s.publications[token] == Publication(row, Held) && Idle(s, Outgoing(n))
    ensures var s' := Run(t, s, Failing(token, n, at));
      && s'.db == MarkFailure(s.db, row.envelope.messageId, token, at, at + 1000 * BackoffSeconds(t.backoffSeconds, row), "publish_failed", Exhausted(t.maxAttempts, row))
      && s'.publications == s.publications - {token} && Idle(s', Outgoing(n))
  {
    hide Run, MarkFailure, BackoffSeconds, Exhausted;
    TwoSteps(t, s, Send(token, n, true, true), MarkFailed(token, at, "publish_failed"));
    var s1 := Apply(t, s, Send(token, n, true, true));
    assert s1 == s.(publications := s.publications[token := Publication(row, Failed)]);
    assert s.publications[token := Publication(row, Failed)] - {token} == s.publications - {token};
  }

  function RowSteps(s: Pipeline, token: Token, n: nat, a: OP.Attempt): seq<Step> {
    if a.confirmed then Confirming(token, n, PortOf(s, Outgoing(n)).nextTicket, a.clock) else Failing(token, n, a.clock)
  }

  lemma {:induction false} RowIsARun(c: OP.Settings, t: Topology, s: Pipeline, token: Token, row: OutboxRow, n: nat, a: OP.Attempt)
    requires SameTerms(c, t) && (a.confirmed ==> Bound(t, row.envelope) != [])
    requires token in s.publications && s.publications[token] == Publication(row, Held) && Idle(s, Outgoing(n))
    ensures var s' := Run(t, s, RowSteps(s, token, n, a));
      && s'.db == OP.MarkAfter(c, s.db, row, token, a)
      && s'.publications == s.publications - {token} && Idle(s', Outgoing(n))
  {
    hide Run, Idle, Bound, MarkPublished, MarkFailure, BackoffSeconds, Exhausted, Confirming, Failing;
    if a.confirmed {
      ConfirmedRowIsARun(t, s, token, row, n, a.clock);
    } else {
      FailedRowIsARun(t, s, token, row, n, a.clock);
    }
  }

  // ------------------------------------------------------------------ the loop

  // The claimed rows are in the publisher's hands, each under its own token.
  ghost predicate InHand(s: Pipeline, rows: seq<OutboxRow>) {
    && (forall k :: 0 <= k < |rows| ==> HeldUnder(s, rows[k]))
    && (forall j, k :: 0 <= j < k < |rows| ==> rows[j].claimToken != rows[k].claimToken)
  }

  predicate HeldUnder(s: Pipeline, row: OutboxRow) {
    row.claimToken.Some? && row.claimToken.value in s.publications && s.publications[row.claimToken.value] == Publication(row, Held)
  }

  // What a broker can confirm is bound somewhere.
  predicate Deliverable(t: Topology, rows: seq<OutboxRow>, attempts: seq<OP.Attempt>)
    requires |attempts| >= |rows|
  {
    forall k :: 0 <= k < |rows| && attempts[k].confirmed ==> Bound(t, rows[k].envelope) != []
  }

  lemma {:induction false} RestInHand(s: Pipeline, s': Pipeline, rows: seq<OutboxRow>)
    requires rows != [] && InHand(s, rows) && s'.publications == s.publications - {rows[0].claimToken.value}
    ensures InHand(s', rows[1..])
  {
    forall k | 0 <= k < |rows[1..]| ensures HeldUnder(s', rows[1..][k]) {
      assert HeldUnder(s, rows[k + 1]) && HeldUnder(s, rows[0]) && rows[0].claimToken != rows[k + 1].claimToken;
    }
  }

  lemma {:induction false} LoopIsARun(c: OP.Settings, t: Topology, s: Pipeline, rows: seq<OutboxRow>, attempts: seq<OP.Attempt>, n: nat, tally: OP.Tally)
      returns (steps: seq<Step>)
    requires SameTerms(c, t) && |attempts| >= |rows| && InHand(s, rows) && Deliverable(t, rows, attempts) && Idle(s, Outgoing(n))
    requires forall r :: r in rows ==> r.claimToken.Some?
    ensures Run(t, s, steps).db == OP.PublishRows(c, s.db, rows, attempts, tally).0
    decreases |rows|
  {
    hide Run, Apply, Idle, Bound, OP.MarkAfter, OP.Count, RowSteps, HoldsClaim;
    steps := [];
    assert Run(t, s, []) == s by { NoSteps(t, s); }
    if rows != [] {
      var row, a := rows[0], attempts[0];
      if !a.storeFails && HoldsClaim(s.db, row.envelope.messageId, row.claimToken.value) {
        assert HeldUnder(s, row);
        RowIsARun(c, t, s, row.claimToken.value, row, n, a);
        var s1 := Run(t, s, RowSteps(s, row.claimToken.value, n, a));
        RestInHand(s, s1, rows);
        assert Deliverable(t, rows[1..], attempts[1..]);
        var rest := LoopIsARun(c, t, s1, rows[1..], attempts[1..], n, OP.Count(c, row, a, tally));
        steps := RowSteps(s, row.claimToken.value, n, a) + rest;
        RunSplits(t, s, RowSteps(s, row.claimToken.value, n, a), rest);
      }
    }
  }

  lemma {:induction false} NoSteps(t: Topology, s: Pipeline)
    ensures Run(t, s, []) == s
  {
  }

  // ---------------------------------------------------------------- the claims

  ghost predicate ReadyToClaim(s: Pipeline, rows: seq<OutboxRow>, tokens: seq<Token>, at: int, staleBefore: int) {
    && |rows| <= |tokens|
    && (forall k :: 0 <= k < |rows| ==> IsRowOf(s.db, rows[k]) && Claimable(rows[k], at, staleBefore))
    && OP.DistinctIds(rows)
    && Distinct(tokens) && (forall k :: 0 <= k < |tokens| ==> tokens[k] !in s.usedTokens)
  }

  lemma {:induction false} ClaimIsAStep(t: Topology, s: Pipeline, row: OutboxRow, token: Token, at: int, staleBefore: int)
    requires IsRowOf(s.db, row) && Claimable(row, at, staleBefore) && token !in s.usedTokens
    ensures var s' := Apply(t, s, Claim(row.envelope.messageId, token, at, staleBefore)); var claimed := ClaimedRow(row, token, at);
      && s'.db == s.db.(outbox := s.db.outbox[row.envelope.messageId := claimed]) && s'.ports == s.ports
      && s'.usedTokens == s.usedTokens + {token} && s'.publications == s.publications[token := Publication(claimed, Held)]
  {
    hide Claimable;
  }

  lemma {:induction false} RestReady(s: Pipeline, s': Pipeline, rows: seq<OutboxRow>, tokens: seq<Token>, at: int, staleBefore: int)
    requires rows != [] && ReadyToClaim(s, rows, tokens, at, staleBefore)
    requires s'.db == s.db.(outbox := s.db.outbox[rows[0].envelope.messageId := ClaimedRow(rows[0], tokens[0], at)])
    requires s'.usedTokens == s.usedTokens + {tokens[0]}
    ensures ReadyToClaim(s', rows[1..], tokens[1..], at, staleBefore)
  {
    hide Claimable;
    forall k | 0 <= k < |rows[1..]| ensures IsRowOf(s'.db, rows[1..][k]) && Claimable(rows[1..][k], at, staleBefore) {
      assert rows[1..][k] == rows[k + 1] && IsRowOf(s.db, rows[k + 1]) && rows[0].envelope.messageId != rows[k + 1].envelope.messageId;
    }
    forall k | 0 <= k < |tokens[1..]| ensures tokens[1..][k] !in s'.usedTokens {
      assert tokens[1..][k] == tokens[k + 1] && tokens[k + 1] != tokens[0];
    }
  }

  // The rows of a batch are claimed one step at a time.
  lemma {:induction false} ClaimsAreARun(t: Topology, s: Pipeline, rows: seq<OutboxRow>, tokens: seq<Token>, at: int, staleBefore: int) returns (steps: seq<Step>)
    requires ReadyToClaim(s, rows, tokens, at, staleBefore)
    ensures var s' := Run(t, s, steps);
      && s'.db == ClaimRows(s.db, rows, tokens, at) && s'.ports == s.ports
      && (forall k :: 0 <= k < |rows| ==> HeldUnder(s', ClaimedRow(rows[k], tokens[k], at)))
      && (forall tok :: tok in s.publications && tok !in tokens ==> tok in s'.publications && s'.publications[tok] == s.publications[tok])
    decreases |rows|
  {
    hide Run, Apply, Claimable, ReadyToClaim;
    steps := [];
    NoSteps(t, s);
    if rows != [] {
      assert |rows| <= |tokens| && IsRowOf(s.db, rows[0]) && Claimable(rows[0], at, staleBefore) && tokens[0] !in s.usedTokens && Distinct(tokens) by { FirstReady(s, rows, tokens, at, staleBefore); }
      var step := Claim(rows[0].envelope.messageId, tokens[0], at, staleBefore);
      ClaimIsAStep(t, s, rows[0], tokens[0], at, staleBefore);
      var s1 := Apply(t, s, step);
      RestReady(s, s1, rows, tokens, at, staleBefore);
      var rest := ClaimsAreARun(t, s1, rows[1..], tokens[1..], at, staleBefore);
      steps := [step] + rest;
      OneStep(t, s, step);
      RunSplits(t, s, [step], rest);
      var s' := Run(t, s, steps);
      assert tokens[0] !in tokens[1..];
      forall k | 0 <= k < |rows| ensures HeldUnder(s', ClaimedRow(rows[k], tokens[k], at)) {
        if k > 0 {
          assert rows[1..][k - 1] == rows[k] && tokens[1..][k - 1] == tokens[k];
        }
      }
    }
  }

  lemma {:induction false} FirstReady(s: Pipeline, rows: seq<OutboxRow>, tokens: seq<Token>, at: int, staleBefore: int)
    requires rows != [] && ReadyToClaim(s, rows, tokens, at, staleBefore)
    ensures |rows| <= |tokens| && IsRowOf(s.db, rows[0]) && Claimable(rows[0], at, staleBefore) && tokens[0] !in s.usedTokens && Distinct(tokens)
  {
  }

  lemma {:induction false} SelectionIsReady(c: OP.Settings, s: Pipeline, b: OP.Batch)
    requires Ordered(s.db.outbox, s.db.order) && OP.Supplies(c, b)
    requires Distinct(b.tokens) && forall tok | tok in b.tokens :: tok !in s.usedTokens
    ensures ReadyToClaim(s, OP.Selected(c, s.db, b), b.tokens, b.at, OP.StaleBefore(c, b.at))
  {
    hide Claimable;
    var sel := OP.Selected(c, s.db, b);
    ClaimSelectionIsClaimable(s.db, b.at, OP.StaleBefore(c, b.at), c.batchSize);
    hide ClaimSelection;
    forall j, k | 0 <= j < k < |sel| ensures sel[j].envelope.messageId != sel[k].envelope.messageId {
      assert sel[j] in sel && sel[k] in sel && IsRowOf(s.db, sel[j]) && IsRowOf(s.db, sel[k]);
    }
  }

  // Whatever one batch of a publisher does to the store, it does as a run of the
  // pipeline: claims, then for each row a publication and a mark.
  lemma {:induction false} BatchIsARun(c: OP.Settings, t: Topology, s: Pipeline, b: OP.Batch, n: nat)
    requires SameTerms(c, t) && Ordered(s.db.outbox, s.db.order) && OP.Supplies(c, b) && Idle(s, Outgoing(n))
    requires Distinct(b.tokens) && forall tok | tok in b.tokens :: tok !in s.usedTokens
    requires |OP.Selected(c, s.db, b)| <= |b.attempts| && Deliverable(t, OP.Selected(c, s.db, b), b.attempts)
    ensures exists steps :: Run(t, s, steps).db == OP.RunBatch(c, s.db, b).0
  {
    hide Run, Apply, Bound, OP.Selected, OP.PublishRows, Ordered, PortOf;
    var sel := OP.Selected(c, s.db, b);
    SelectionIsReady(c, s, b);
    var claims := ClaimsAreARun(t, s, sel, b.tokens, b.at, OP.StaleBefore(c, b.at));
    var s1 := Run(t, s, claims);
    var rows := OP.ClaimAll(sel, b.tokens, b.at);
    SamePortIdle(s, s1, Outgoing(n));
    forall k | 0 <= k < |rows| ensures HeldUnder(s1, rows[k]) {
      assert rows[k] == ClaimedRow(sel[k], b.tokens[k], b.at);
    }
    var publishing := LoopIsARun(c, t, s1, rows, b.attempts, n, OP.Tally(0, 0, 0));
    RunSplits(t, s, claims, publishing);
    assert Run(t, s, claims + publishing).db == OP.RunBatch(c, s.db, b).0;
  }

  lemma {:induction false} SamePortIdle(s: Pipeline, s': Pipeline, line: Line)
    requires s'.ports == s.ports
    ensures Idle(s, line) <==> Idle(s', line)
  {
  }

  // --------------------------------------------------------------- one delivery

  // The worker `tag` is about to handle its delivery, in these circumstances. A
  // retry fails where there is no layer for it.
  ghost predicate Handles(t: Topology, s: Pipeline, tag: nat, x: RD.Setting) {
    && tag in s.workers && s.workers[tag].phase == Fetched && Owns(s, tag)
    && var d := s.workers[tag].delivery;
    && d.consumer in t.handlers && x.body == Some(d.envelope) && x.attempt == Some(d.attempt) && x.eventPolicy == t.eventPolicy
    && RD.EventPolicyOk(t.eventPolicy) && DeliveryPolicy(t.eventPolicy, d.envelope).maxAttempts <= 1000
    && (RD.Retries(x) && !CanResend(t, d) ==> x.retryFails)
  }

  predicate Confirms(log: seq<RD.Action>) { exists a | a in log :: a.RetryConfirmed? }

  // What handling has come to, as the broker sees it: the copy is acknowledged and
  // gone, dead-lettered, or left as it was; and a confirmed retry is in its layer.
  ghost predicate EndsAs(s: Pipeline, s': Pipeline, tag: nat, log: seq<RD.Action>)
    requires Owns(s, tag)
  {
    var k := s.workers[tag].copyId;
    && tag !in s'.workers
    && (if RD.Acked in log then k !in s'.copies
        else k in s'.copies && s'.copies[k] == if RD.DeadLettered in log then s.copies[k].(place := DeadLettered) else s.copies[k])
    && (Confirms(log) ==> s.nextCopy in s'.copies && s'.copies[s.nextCopy] == NextTry(s.workers[tag]))
  }

  // The worker has come as far as `phase`, and the broker has seen nothing of it.
  predicate Reached(s: Pipeline, s': Pipeline, tag: nat, phase: WorkerPhase) {
    && tag in s.workers && tag in s'.workers && s'.workers[tag] == s.workers[tag].(phase := phase)
    && s'.copies == s.copies && s'.nextCopy == s.nextCopy && s'.ports == s.ports
  }

  lemma {:induction false} ConsumingSucceeds(t: Topology, s: Pipeline, tag: nat, x: RD.Setting)
    requires Handles(t, s, tag, x) && RD.Readable(x) && RD.WithinLimit(x) && DbSound(s.db, t.maxAttempts)
    ensures Reached(s, Run(t, s, [Check(tag, false), Transact(tag, HandlerRun(Allows, true), true)]), tag, Settled)
  {
    hide DbSound, Precheck, InboxTransaction, Run, DeliveryPolicy;
    TwoSteps(t, s, Check(tag, false), Transact(tag, HandlerRun(Allows, true), true));
    var d := s.workers[tag].delivery;
    var s1 := Apply(t, s, Check(tag, false));
    assert Reached(s, s1, tag, Settled) || (Reached(s, s1, tag, Consuming) && s1.db == Precheck(s.db, d, t.handlers[d.consumer]).0);
    PrecheckPasses(s.db, d, t.handlers[d.consumer]);
    if s1.workers[tag].phase == Consuming {
      NothingThrows(s.db, d, t.handlers[d.consumer], t.maxAttempts);
    }
  }

  lemma {:induction false} CheckFails(t: Topology, s: Pipeline, tag: nat, x: RD.Setting)
    requires Handles(t, s, tag, x) && (RD.Readable(x) ==> RD.WithinLimit(x))
    ensures Reached(s, Run(t, s, [Check(tag, true)]), tag, Errored)
  {
    hide Run, DeliveryPolicy, Precheck;
    OneStep(t, s, Check(tag, true));
  }

  // ------------------------------------------------------------ the catch block

  ghost predicate Caught(t: Topology, s: Pipeline, tag: nat, x: RD.Setting) {
    && tag in s.workers && s.workers[tag].phase == Errored && Owns(s, tag) && Idle(s, s.workers[tag].line)
    && RD.Retries(x) == WillRetry(t, s.workers[tag], x.retryable) && s.nextCopy !in s.copies
    && (RD.Retries(x) && !CanResend(t, s.workers[tag].delivery) ==> x.retryFails)
  }

  lemma {:induction false} DeadLettersOrLeaves(t: Topology, s: Pipeline, tag: nat, x: RD.Setting, deadLetters: nat)
    requires Caught(t, s, tag, x) && !RD.Retries(x)
    ensures var step := if deadLetters < x.deadLetterFailures then WorkerCrash(tag) else Recover(tag, x.retryable, true, false);
      EndsAs(s, Run(t, s, [step]), tag, [RD.DeadLettering(x, deadLetters)])
  {
    hide Run, WillRetry, CanResend, Idle, PortOf;
    var step := if deadLetters < x.deadLetterFailures then WorkerCrash(tag) else Recover(tag, x.retryable, true, false);
    OneStep(t, s, step);
  }

  lemma {:induction false} RetryFails(t: Topology, s: Pipeline, tag: nat, x: RD.Setting)
    requires Caught(t, s, tag, x) && RD.Retries(x)
    ensures EndsAs(s, Run(t, s, [Recover(tag, x.retryable, true, true)]), tag, [RD.RetryFailed(RD.RetryDelay(x))])
  {
    hide Run, WillRetry, CanResend, Idle, PortOf;
    OneStep(t, s, Recover(tag, x.retryable, true, true));
  }

  function ResendingSteps(tag: nat, line: Line, ticket: nat): seq<Step> {
    [Recover(tag, true, true, false), AwaitRetry(tag), Accept(Key(line, ticket)), Settle(Key(line, ticket), false)]
  }

  lemma {:induction false} RetrySends(t: Topology, s: Pipeline, tag: nat)
    requires tag in s.workers && WillResend(t, s.workers[tag], true) && Idle(s, s.workers[tag].line)
    ensures var w := s.workers[tag]; var s' := DoRecover(t, s, tag, true, true, false); var ticket := PortOf(s, w.line).nextTicket;
      && s'.copies == s.copies && s'.nextCopy == s.nextCopy && s'.workers == s.workers[tag := w.(phase := Resent)]
      && Holds(PortOf(s', w.line), Posted(ticket, w.delivery.envelope.messageId))
      && Key(w.line, ticket) in s'.wire && s'.wire[Key(w.line, ticket)] == Passage(Again(NextTry(w)), EventingPipeline.Sent)
  {
    hide RecoveryPolicy, Layered;
    var port, id := PortOf(s, s.workers[tag].line), s.workers[tag].delivery.envelope.messageId;
    assert [] + [Posted(port.nextTicket, id)] == [Posted(port.nextTicket, id)];
  }

  lemma {:induction false} RetryAwaits(s: Pipeline, tag: nat, w: Worker, ticket: nat)
    requires tag in s.workers && s.workers[tag] == w.(phase := Resent) && Holds(PortOf(s, w.line), Posted(ticket, w.delivery.envelope.messageId))
    ensures var s' := DoAwaitRetry(s, tag);
      && s'.copies == s.copies && s'.nextCopy == s.nextCopy && s'.wire == s.wire && s'.workers == s.workers[tag := w.(phase := RetryAwaited(ticket))]
      && Holds(PortOf(s', w.line), Posted(ticket, w.delivery.envelope.messageId).(claimed := true))
  {
    OneIsTakenUp(PortOf(s, w.line), ticket, w.delivery.envelope.messageId);
    hide Wait, Holds;
  }

  lemma {:induction false} BrokerTakesRetry(t: Topology, s: Pipeline, w: Worker, ticket: nat)
    requires Holds(PortOf(s, w.line), Posted(ticket, w.delivery.envelope.messageId).(claimed := true))
    requires var key := Key(w.line, ticket); key in s.wire && s.wire[key] == Passage(Again(NextTry(w)), EventingPipeline.Sent)
    ensures var key := Key(w.line, ticket); var s' := DoSettle(DoAccept(t, s, key), key, false);
      && s'.copies == s.copies[s.nextCopy := NextTry(w)] && s'.workers == s.workers
      && Holds(PortOf(s', w.line), Posted(ticket, w.delivery.envelope.messageId).(claimed := true, status := CP.Confirmed))
      && ticket in PortOf(s', w.line).resolved
  {
    var key := Key(w.line, ticket);
    OneIsAnswered(PortOf(s, w.line), ticket, w.delivery.envelope.messageId);
    hide Answer, Holds, Bound, Enqueue;
    var s1 := DoAccept(t, s, key);
    assert s1.ports == s.ports && s1.workers == s.workers && key in s1.wire && s1.wire[key].stage == Routed;
  }

  lemma {:induction false} RetryHears(s: Pipeline, tag: nat, w: Worker, ticket: nat)
    requires tag in s.workers && s.workers[tag] == w.(phase := RetryAwaited(ticket))
    requires Holds(PortOf(s, w.line), Posted(ticket, w.delivery.envelope.messageId).(claimed := true, status := CP.Confirmed))
    requires ticket in PortOf(s, w.line).resolved
    ensures var s' := DoLearnRetry(s, tag); s'.copies == s.copies && s'.workers == s.workers[tag := w.(phase := Republished)]
  {
    OneIsTaken(PortOf(s, w.line), ticket, w.delivery.envelope.messageId);
    hide Answered, ToldRouted, Taken, CP.DoTake, Holds;
  }

  lemma {:induction false} RetryIsARun(t: Topology, s: Pipeline, tag: nat)
    requires tag in s.workers && WillResend(t, s.workers[tag], true) && Idle(s, s.workers[tag].line)
    ensures var w := s.workers[tag]; var s' := Run(t, s, ResendingSteps(tag, w.line, PortOf(s, w.line).nextTicket) + [LearnRetry(tag)]);
      s'.copies == s.copies[s.nextCopy := NextTry(w)] && s'.workers == s.workers[tag := w.(phase := Republished)]
  {
    var w := s.workers[tag];
    var ticket := PortOf(s, w.line).nextTicket;
    var key := Key(w.line, ticket);
    RetryingIs(t, s, tag, w.line, ticket);
    hide Run, Apply, WillRetry, CanResend, Idle, Holds, PortOf, DoRecover, DoAwaitRetry, DoAccept, DoSettle, DoLearnRetry;
    RetrySends(t, s, tag);
    var s1 := DoRecover(t, s, tag, true, true, false);
    RetryAwaits(s1, tag, w, ticket);
    var s2 := DoAwaitRetry(s1, tag);
    SetAgain(s.workers, s2.workers, tag, w.(phase := Resent), w.(phase := RetryAwaited(ticket)));
    BrokerTakesRetry(t, s2, w, ticket);
    var s3 := DoSettle(DoAccept(t, s2, key), key, false);
    RetryHears(s3, tag, w, ticket);
    SetAgain(s.workers, DoLearnRetry(s3, tag).workers, tag, w.(phase := RetryAwaited(ticket)), w.(phase := Republished));
  }

  lemma {:induction false} SetAgain(workers: map<nat, Worker>, after: map<nat, Worker>, tag: nat, v: Worker, w: Worker)
    requires after == workers[tag := v][tag := w]
    ensures after == workers[tag := w]
  {
  }

  lemma {:induction false} RetryingIs(t: Topology, s: Pipeline, tag: nat, line: Line, ticket: nat)
    ensures var key := Key(line, ticket);
      Run(t, s, ResendingSteps(tag, line, ticket) + [LearnRetry(tag)]) ==
      DoLearnRetry(DoSettle(DoAccept(t, DoAwaitRetry(DoRecover(t, s, tag, true, true, false), tag), key), key, false), tag)
  {
    hide Run, Apply, DoRecover, DoAwaitRetry, DoAccept, DoSettle, DoLearnRetry;
    var key := Key(line, ticket);
    RunSplits(t, s, ResendingSteps(tag, line, ticket), [LearnRetry(tag)]);
    FourSteps(t, s, Recover(tag, true, true, false), AwaitRetry(tag), Accept(key), Settle(key, false));
    RecoverIs(t, s, tag, true, true, false);
    var s1 := DoRecover(t, s, tag, true, true, false);
    RetryStepsAre(t, s1, tag, key);
    var s2 := DoAwaitRetry(s1, tag);
    RetryStepsAre(t, s2, tag, key);
    RetryStepsAre(t, DoAccept(t, s2, key), tag, key);
    var s4 := DoSettle(DoAccept(t, s2, key), key, false);
    OneStep(t, s4, LearnRetry(tag));
    RetryStepsAre(t, s4, tag, key);
  }

  lemma {:induction false} RetryStepsAre(t: Topology, s: Pipeline, tag: nat, key: Key)
    ensures Apply(t, s, AwaitRetry(tag)) == DoAwaitRetry(s, tag) && Apply(t, s, LearnRetry(tag)) == DoLearnRetry(s, tag)
    ensures Apply(t, s, Accept(key)) == DoAccept(t, s, key) && Apply(t, s, Settle(key, false)) == DoSettle(s, key, false)
  {
    hide Apply;
    AwaitRetryIs(t, s, tag);
    LearnRetryIs(t, s, tag);
    AcceptIs(t, s, key);
    SettleIs(t, s, key);
  }

  lemma {:induction false} AwaitRetryIs(t: Topology, s: Pipeline, tag: nat)
    ensures Apply(t, s, AwaitRetry(tag)) == DoAwaitRetry(s, tag)
  {
    hide DoAwaitRetry;
  }

  lemma {:induction false} LearnRetryIs(t: Topology, s: Pipeline, tag: nat)
    ensures Apply(t, s, LearnRetry(tag)) == DoLearnRetry(s, tag)
  {
    hide DoLearnRetry;
  }

  lemma {:induction false} SettleIs(t: Topology, s: Pipeline, key: Key)
    ensures Apply(t, s, Settle(key, false)) == DoSettle(s, key, false)
  {
    hide DoSettle;
  }

  lemma {:induction false} RetriedAcksOrLeaves(t: Topology, s: Pipeline, tag: nat, x: RD.Setting, acks: nat)
    requires Caught(t, s, tag, x) && RD.Retries(x) && !x.retryFails
    ensures var w := s.workers[tag];
      var steps := ResendingSteps(tag, w.line, PortOf(s, w.line).nextTicket) + [LearnRetry(tag)] + [if acks < x.ackFailures then WorkerCrash(tag) else Ack(tag)];
      EndsAs(s, Run(t, s, steps), tag, [RD.RetryConfirmed(RD.RetryDelay(x)), RD.Acking(x, acks)])
  {
    hide Run, WillRetry, CanResend, Idle, PortOf;
    var w := s.workers[tag];
    var steps := ResendingSteps(tag, w.line, PortOf(s, w.line).nextTicket) + [LearnRetry(tag)];
    var last := if acks < x.ackFailures then WorkerCrash(tag) else Ack(tag);
    RetryIsARun(t, s, tag);
    RunSplits(t, s, steps, [last]);
    OneStep(t, Run(t, s, steps), last);
    assert RD.RetryConfirmed(RD.RetryDelay(x)) in [RD.RetryConfirmed(RD.RetryDelay(x)), RD.Acking(x, acks)];
  }

  lemma {:induction false} CatchIsARun(t: Topology, s: Pipeline, tag: nat, x: RD.Setting, acks: nat, deadLetters: nat) returns (steps: seq<Step>)
    requires Caught(t, s, tag, x)
    ensures EndsAs(s, Run(t, s, steps), tag, RD.Recover(x, acks, deadLetters))
  {
    if !RD.Retries(x) {
      DeadLettersOrLeaves(t, s, tag, x, deadLetters);
      steps := [if deadLetters < x.deadLetterFailures then WorkerCrash(tag) else Recover(tag, x.retryable, true, false)];
    } else if x.retryFails {
      RetryFails(t, s, tag, x);
      steps := [Recover(tag, x.retryable, true, true)];
    } else {
      RetriedAcksOrLeaves(t, s, tag, x, acks);
      var w := s.workers[tag];
      steps := ResendingSteps(tag, w.line, PortOf(s, w.line).nextTicket) + [LearnRetry(tag)] + [if acks < x.ackFailures then WorkerCrash(tag) else Ack(tag)];
    }
  }

  // ------------------------------------------------------------ a whole delivery

  lemma {:induction false} EndsAsSeenBefore(s: Pipeline, s1: Pipeline, s': Pipeline, tag: nat, phase: WorkerPhase, head: seq<RD.Action>, log: seq<RD.Action>)
    requires Owns(s, tag) && Reached(s, s1, tag, phase) && Owns(s1, tag) && EndsAs(s1, s', tag, log)
    requires RD.Acked !in head && RD.DeadLettered !in head && !Confirms(head)
    ensures EndsAs(s, s', tag, head + log)
  {
    var whole := head + log;
    assert forall a :: a in whole <==> a in head || a in log;
  }

  lemma {:induction false} ReachedIsCaught(t: Topology, s: Pipeline, s1: Pipeline, tag: nat, x: RD.Setting)
    requires Handles(t, s, tag, x) && Numbered(s) && Idle(s, s.workers[tag].line) && Reached(s, s1, tag, Errored)
    ensures Caught(t, s1, tag, x)
  {
    hide RD.EventPolicyOk;
  }

  lemma {:induction false} AckThrowsIsAStep(t: Topology, s: Pipeline, tag: nat)
    requires tag in s.workers && s.workers[tag].phase == Settled
    ensures Reached(s, Run(t, s, [AckThrows(tag)]), tag, Errored)
  {
    hide Run;
    OneStep(t, s, AckThrows(tag));
  }

  lemma {:induction false} AckIsAStep(t: Topology, s: Pipeline, tag: nat)
    requires tag in s.workers && s.workers[tag].phase == Settled && Owns(s, tag)
    ensures EndsAs(s, Run(t, s, [Ack(tag)]), tag, [RD.Acked])
  {
    hide Run;
    OneStep(t, s, Ack(tag));
  }

  // Over its limit a delivery is dead-lettered, or, if even that throws, left.
  lemma {:induction false} OverLimitIsARun(t: Topology, s: Pipeline, tag: nat, x: RD.Setting)
    requires Handles(t, s, tag, x) && RD.Readable(x) && !RD.WithinLimit(x)
    ensures EndsAs(s, Run(t, s, [if x.deadLetterFailures >= 2 then WorkerCrash(tag) else Check(tag, false)]), tag, RD.Handle(x))
  {
    hide Run, Precheck, RD.EventPolicyOk;
    OneStep(t, s, if x.deadLetterFailures >= 2 then WorkerCrash(tag) else Check(tag, false));
    assert RD.Handle(x) == if x.deadLetterFailures == 0 then [RD.DeadLettered] else [RD.DeadLetterFailed] + [RD.DeadLettering(x, 1)];
  }

  predicate Consumes(x: RD.Setting) {
    RD.Readable(x) && RD.WithinLimit(x) && !x.consumeFails
  }

  ghost predicate OnRecord(s: Pipeline, w: Worker) {
    Recorded(s.db, w.delivery.envelope, w.delivery.consumer)
  }

  lemma {:induction false} SettledStaysOnRecord(t: Topology, s: Pipeline, tag: nat, steps: seq<Step>)
    requires ValidTopology(t) && Inv(t, s) && tag in s.workers && s.workers[tag].phase == Settled
    ensures OnRecord(Run(t, s, steps), s.workers[tag])
  {
    assert WorkerSound(t, s.db, s.copies, s.workers[tag]);
    hide Inv, Run, Recorded, Advances, ValidTopology;
    RunKeepsInv(t, s, steps);
    RecordedStays(s.db, Run(t, s, steps).db, s.workers[tag].delivery.envelope, s.workers[tag].delivery.consumer);
  }

  function ConsumingSteps(tag: nat): seq<Step> { [Check(tag, false), Transact(tag, HandlerRun(Allows, true), true)] }

  lemma {:induction false} ConsumptionSettles(t: Topology, s: Pipeline, tag: nat, x: RD.Setting)
    requires ValidTopology(t) && Handles(t, s, tag, x) && Inv(t, s) && Consumes(x)
    ensures var s1 := Run(t, s, ConsumingSteps(tag)); Reached(s, s1, tag, Settled) && Owns(s1, tag) && Inv(t, s1)
  {
    InvParts(t, s);
    ConsumingSucceeds(t, s, tag, x);
    hide Inv, DbSound, Run, ValidTopology, Numbered;
    RunKeepsInv(t, s, ConsumingSteps(tag));
  }

  function ConsumedAs(x: RD.Setting): RD.Action
    requires RD.Readable(x)
  {
    RD.Consumed(x.body.value, x.attempt.value, RD.RetryPolicy(x).timeoutMs)
  }

  lemma {:induction false} AckedConsumption(t: Topology, s: Pipeline, tag: nat, x: RD.Setting) returns (steps: seq<Step>)
    requires ValidTopology(t) && Handles(t, s, tag, x) && Inv(t, s) && Consumes(x) && x.ackFailures == 0
    ensures EndsAs(s, Run(t, s, steps), tag, RD.Handle(x)) && OnRecord(Run(t, s, steps), s.workers[tag])
  {
    hide Inv, Run, Apply, EndsAs, Owns, OnRecord, ValidTopology, RD.EventPolicyOk;
    ConsumptionSettles(t, s, tag, x);
    var s1 := Run(t, s, ConsumingSteps(tag));
    AckIsAStep(t, s1, tag);
    steps := ConsumingSteps(tag) + [Ack(tag)];
    RunSplits(t, s, ConsumingSteps(tag), [Ack(tag)]);
    SettledStaysOnRecord(t, s1, tag, [Ack(tag)]);
    SameOnRecord(Run(t, s, steps), s.workers[tag], s1.workers[tag]);
    EndsAsSeenBefore(s, s1, Run(t, s, steps), tag, Settled, [ConsumedAs(x)], [RD.Acked]);
    assert RD.Handle(x) == [ConsumedAs(x)] + [RD.Acked];
  }

  lemma {:induction false} SameOnRecord(s: Pipeline, w: Worker, v: Worker)
    requires v == w.(phase := v.phase) && OnRecord(s, v)
    ensures OnRecord(s, w)
  {
  }

  lemma {:induction false} HandleUnacked(x: RD.Setting)
    requires Consumes(x) && x.ackFailures > 0
    ensures RD.Handle(x) == [ConsumedAs(x), RD.AckFailed] + RD.Recover(x, 1, 0)
  {
    hide RD.Recover, RD.Readable;
  }

  lemma {:induction false} ReachedPhase(s: Pipeline, s1: Pipeline, tag: nat, phase: WorkerPhase)
    requires Reached(s, s1, tag, phase)
    ensures tag in s.workers && tag in s1.workers && s1.workers[tag] == s.workers[tag].(phase := phase) && s1.workers[tag].phase == phase
  {
  }

  lemma {:induction false} ReachedFurther(s: Pipeline, s1: Pipeline, s2: Pipeline, tag: nat, phase: WorkerPhase, next: WorkerPhase)
    requires Reached(s, s1, tag, phase) && Reached(s1, s2, tag, next) && Owns(s1, tag)
    ensures Reached(s, s2, tag, next) && Owns(s2, tag) && Owns(s, tag)
  {
  }

  lemma {:induction false} FailedAckIsARun(t: Topology, s: Pipeline, s1: Pipeline, tag: nat, x: RD.Setting, consumed: RD.Action) returns (steps: seq<Step>)
    requires Handles(t, s, tag, x) && Numbered(s) && Idle(s, s.workers[tag].line) && Reached(s, s1, tag, Settled) && Owns(s1, tag) && consumed.Consumed?
    ensures EndsAs(s, Run(t, s1, steps), tag, [consumed, RD.AckFailed] + RD.Recover(x, 1, 0))
  {
    hide Numbered, Run, Apply, EndsAs, Idle, Handles, Reached, Owns, RD.Recover;
    ReachedPhase(s, s1, tag, Settled);
    AckThrowsIsAStep(t, s1, tag);
    var s2 := Run(t, s1, [AckThrows(tag)]);
    ReachedFurther(s, s1, s2, tag, Settled, Errored);
    ReachedIsCaught(t, s, s2, tag, x);
    var rest := CatchIsARun(t, s2, tag, x, 1, 0);
    steps := [AckThrows(tag)] + rest;
    RunSplits(t, s1, [AckThrows(tag)], rest);
    EndsAsSeenBefore(s, s2, Run(t, s1, steps), tag, Errored, [consumed, RD.AckFailed], RD.Recover(x, 1, 0));
  }

  lemma {:induction false} UnackedConsumption(t: Topology, s: Pipeline, tag: nat, x: RD.Setting) returns (steps: seq<Step>)
    requires ValidTopology(t) && Handles(t, s, tag, x) && Inv(t, s) && Idle(s, s.workers[tag].line) && Consumes(x) && x.ackFailures > 0
    ensures EndsAs(s, Run(t, s, steps), tag, RD.Handle(x)) && OnRecord(Run(t, s, steps), s.workers[tag])
  {
    InvParts(t, s);
    HandleUnacked(x);
    hide Inv, DbSound, Numbered, Run, Apply, EndsAs, OnRecord, ValidTopology, Idle, Reached, Owns, RD.Recover, RD.Handle;
    ConsumptionSettles(t, s, tag, x);
    var s1 := Run(t, s, ConsumingSteps(tag));
    ReachedPhase(s, s1, tag, Settled);
    var rest := FailedAckIsARun(t, s, s1, tag, x, ConsumedAs(x));
    steps := ConsumingSteps(tag) + rest;
    RunSplits(t, s, ConsumingSteps(tag), rest);
    SettledStaysOnRecord(t, s1, tag, rest);
    SameOnRecord(Run(t, s, steps), s.workers[tag], s1.workers[tag]);
  }

  lemma {:induction false} FailureIsARun(t: Topology, s: Pipeline, tag: nat, x: RD.Setting) returns (steps: seq<Step>)
    requires Handles(t, s, tag, x) && Inv(t, s) && Idle(s, s.workers[tag].line)
    requires RD.Readable(x) ==> RD.WithinLimit(x) && x.consumeFails
    ensures EndsAs(s, Run(t, s, steps), tag, RD.Handle(x))
  {
    InvParts(t, s);
    CheckFails(t, s, tag, x);
    var s1 := Run(t, s, [Check(tag, true)]);
    assert Owns(s1, tag);
    hide Inv, DbSound, Run, Idle, RD.Recover, RD.Retries, EndsAs, Numbered, RD.EventPolicyOk;
    ReachedIsCaught(t, s, s1, tag, x);
    var rest := CatchIsARun(t, s1, tag, x, 0, 0);
    steps := [Check(tag, true)] + rest;
    RunSplits(t, s, [Check(tag, true)], rest);
    if RD.Readable(x) {
      EndsAsSeenBefore(s, s1, Run(t, s, steps), tag, Errored, [RD.ConsumeFailed(x.body.value, x.attempt.value, RD.RetryPolicy(x).timeoutMs)], RD.Recover(x, 0, 0));
    } else {
      EndsAsSeenBefore(s, s1, Run(t, s, steps), tag, Errored, [], RD.Recover(x, 0, 0));
      assert [] + RD.Recover(x, 0, 0) == RD.Recover(x, 0, 0);
    }
  }

  // Handling a delivery comes, for the broker, to what a run of the pipeline comes
  // to: the copy acknowledged, dead-lettered or left, a retry where it was sent,
  // and the message on record where it was consumed.
  lemma {:induction false} DeliveryIsARun(t: Topology, s: Pipeline, tag: nat, x: RD.Setting)
    requires ValidTopology(t) && Handles(t, s, tag, x) && Inv(t, s) && Idle(s, s.workers[tag].line)
    ensures exists steps :: EndsAs(s, Run(t, s, steps), tag, RD.Handle(x)) && (Consumes(x) ==> OnRecord(Run(t, s, steps), s.workers[tag]))
  {
    hide Inv, Run, Idle, EndsAs, RD.Handle, RD.EventPolicyOk, OnRecord, ValidTopology;
    if RD.Readable(x) && !RD.WithinLimit(x) {
      OverLimitIsARun(t, s, tag, x);
    } else if Consumes(x) {
      if x.ackFailures == 0 {
        var steps := AckedConsumption(t, s, tag, x);
      } else {
        var steps := UnackedConsumption(t, s, tag, x);
      }
    } else {
      var steps := FailureIsARun(t, s, tag, x);
    }
  }
}
