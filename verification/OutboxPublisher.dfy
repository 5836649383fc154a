// The publishing loop: a batch conserves what it claimed, and batches drain the outbox.
module OutboxPublisher {
  import opened Prelude
  import opened EventingModel
  import opened EventingStore
  import opened EventingInvariants

  datatype Settings = Settings(batchSize: nat, claimLeaseSeconds: nat, maxAttempts: nat, backoffSeconds: seq<nat>)

  predicate ValidSettings(c: Settings) {
    && 1 <= c.batchSize <= 1000 && c.claimLeaseSeconds >= 1
    && 1 <= c.maxAttempts <= 16 && |c.backoffSeconds| == c.maxAttempts - 1
  }

  // What one row meets: whether the broker confirms it, whether the store then
  // fails, and the clock at its mark.
  datatype Attempt = Attempt(confirmed: bool, storeFails: bool, clock: int)

  datatype Tally = Tally(published: nat, retained: nat, isolated: nat)

  datatype BatchResult = BatchDone(claimed: nat, tally: Tally) | StorageUnavailable

  // ------------------------------------------------------------- specification

  // The state after the mark that follows one send.
  function MarkAfter(c: Settings, s: Store, row: OutboxRow, token: Token, a: Attempt): Store {
    if a.confirmed then MarkPublished(s, row.envelope.messageId, token, a.clock)
    else MarkFailure(s, row.envelope.messageId, token, a.clock, a.clock + 1000 * BackoffSeconds(c.backoffSeconds, row), "publish_failed", Exhausted(c.maxAttempts, row))
  }

  function Count(c: Settings, row: OutboxRow, a: Attempt, t: Tally): Tally {
    if a.confirmed then t.(published := t.published + 1)
    else if Exhausted(c.maxAttempts, row) then t.(isolated := t.isolated + 1)
    else t.(retained := t.retained + 1)
  }

  // The loop over the claimed rows; None when the store fails on the way.
  function PublishRows(c: Settings, s: Store, rows: seq<OutboxRow>, attempts: seq<Attempt>, t: Tally): (Store, Option<Tally>)
    requires |attempts| >= |rows|
    requires forall r :: r in rows ==> r.claimToken.Some?
    decreases |rows|
  {
    if rows == [] then (s, Some(t))
    else
      var row, a := rows[0], attempts[0];
      if a.storeFails || !HoldsClaim(s, row.envelope.messageId, row.claimToken.value) then (s, None)
      else PublishRows(c, MarkAfter(c, s, row, row.claimToken.value, a), rows[1..], attempts[1..], Count(c, row, a, t))
  }

  function ClaimAll(sel: seq<OutboxRow>, tokens: seq<Token>, at: int): (r: seq<OutboxRow>)
    requires |tokens| >= |sel|
    ensures |r| == |sel|
    ensures forall k :: 0 <= k < |sel| ==> r[k] == ClaimedRow(sel[k], tokens[k], at)
    decreases |sel|
  {
    if sel == [] then [] else [ClaimedRow(sel[0], tokens[0], at)] + ClaimAll(sel[1..], tokens[1..], at)
  }

  // One batch: its clock, the tokens it draws and what its rows meet.
  datatype Batch = Batch(at: int, tokens: seq<Token>, attempts: seq<Attempt>)

  predicate Supplies(c: Settings, b: Batch) {
    |b.tokens| == c.batchSize && |b.attempts| == c.batchSize
  }

  function StaleBefore(c: Settings, at: int): int { at - 1000 * c.claimLeaseSeconds }

  ghost function Selected(c: Settings, s: Store, b: Batch): seq<OutboxRow>
    requires Ordered(s.outbox, s.order)
  {
    ClaimSelection(s, b.at, StaleBefore(c, b.at), c.batchSize)
  }

  ghost function RunBatch(c: Settings, s: Store, b: Batch): (Store, BatchResult)
    requires Ordered(s.outbox, s.order) && Supplies(c, b)
  {
    var sel := Selected(c, s, b);
    var claimed := ClaimAll(sel, b.tokens, b.at);
    var (t, tally) := PublishRows(c, ClaimRows(s, sel, b.tokens, b.at), claimed, b.attempts, Tally(0, 0, 0));
    (t, if tally.Some? then BatchDone(|claimed|, tally.value) else StorageUnavailable)
  }

  // ---------------------------------------------------------- what a loop does

  // The row a claimed row becomes.
  function Outcome(c: Settings, row: OutboxRow, a: Attempt): OutboxRow {
    if a.confirmed then
      row.(status := Published, publishedAt := Some(a.clock), claimToken := None, claimedAt := None)
    else
      row.(status := if Exhausted(c.maxAttempts, row) then Isolated else Pending,
        availableAt := a.clock + 1000 * BackoffSeconds(c.backoffSeconds, row), lastErrorCode := Some("publish_failed"),
        isolatedAt := if Exhausted(c.maxAttempts, row) then Some(a.clock) else None, claimToken := None, claimedAt := None)
  }

  ghost predicate DistinctIds(rows: seq<OutboxRow>) {
    forall i, j :: 0 <= i < j < |rows| ==> rows[i].envelope.messageId != rows[j].envelope.messageId
  }

  ghost predicate HeldRows(s: Store, rows: seq<OutboxRow>) {
    && DistinctIds(rows)
    && (forall k :: 0 <= k < |rows| ==> IsRowOf(s, rows[k]) && rows[k].status == Publishing && rows[k].claimToken.Some?)
  }

  // Each claimed row ends exactly as its attempt decides; no other row moves.
  ghost predicate EndsAs(c: Settings, s: Store, rows: seq<OutboxRow>, attempts: seq<Attempt>, t: Store)
    requires |attempts| >= |rows|
  {
    && t == s.(outbox := t.outbox)
    && t.outbox.Keys == s.outbox.Keys
    && (forall k :: 0 <= k < |rows| ==> rows[k].envelope.messageId in t.outbox && t.outbox[rows[k].envelope.messageId] == Outcome(c, rows[k], attempts[k]))
    && (forall id :: id in s.outbox && s.outbox[id] !in rows ==> t.outbox[id] == s.outbox[id])
  }

  lemma {:induction false} MarkIsOutcome(c: Settings, s: Store, row: OutboxRow, a: Attempt)
    requires IsRowOf(s, row) && row.status == Publishing && row.claimToken.Some?
    ensures MarkAfter(c, s, row, row.claimToken.value, a) == s.(outbox := s.outbox[row.envelope.messageId := Outcome(c, row, a)])
  {
  }

  lemma {:induction false} HeldAfterMark(c: Settings, s: Store, rows: seq<OutboxRow>, a: Attempt)
    requires rows != [] && HeldRows(s, rows)
    ensures rows[0].claimToken.Some? && HoldsClaim(s, rows[0].envelope.messageId, rows[0].claimToken.value)
    ensures var s1 := MarkAfter(c, s, rows[0], rows[0].claimToken.value, a);
      s1 == s.(outbox := s.outbox[rows[0].envelope.messageId := Outcome(c, rows[0], a)]) && HeldRows(s1, rows[1..])
  {
    var row, rest := rows[0], rows[1..];
    assert IsRowOf(s, row);
    MarkIsOutcome(c, s, row, a);
    hide MarkAfter, Outcome;
    var s1 := MarkAfter(c, s, row, row.claimToken.value, a);
    forall k | 0 <= k < |rest| ensures IsRowOf(s1, rest[k]) && rest[k].status == Publishing && rest[k].claimToken.Some? {
      assert rest[k] == rows[k + 1] && IsRowOf(s, rows[k + 1]);
    }
  }

  // The loop comes to its end exactly when the store fails for none of its rows.
  lemma {:induction false} LoopReturns(c: Settings, s: Store, rows: seq<OutboxRow>, attempts: seq<Attempt>, t: Tally)
    requires |attempts| >= |rows| && HeldRows(s, rows)
    requires forall r :: r in rows ==> r.claimToken.Some?
    ensures PublishRows(c, s, rows, attempts, t).1.Some? <==> forall k :: 0 <= k < |rows| ==> !attempts[k].storeFails
    decreases |rows|
  {
    if rows != [] && !attempts[0].storeFails {
      HeldAfterMark(c, s, rows, attempts[0]);
      var rest := attempts[1..];
      LoopReturns(c, MarkAfter(c, s, rows[0], rows[0].claimToken.value, attempts[0]), rows[1..], rest, Count(c, rows[0], attempts[0], t));
      hide HeldRows, MarkAfter, Count, HoldsClaim;
      assert forall k :: 0 <= k < |rows| - 1 ==> rest[k] == attempts[k + 1];
      assert forall k :: 1 <= k < |rows| ==> attempts[k] == rest[k - 1];
    }
  }

  lemma {:induction false} LoopEndsAs(c: Settings, s: Store, rows: seq<OutboxRow>, attempts: seq<Attempt>, t: Tally)
    requires |attempts| >= |rows| && HeldRows(s, rows)
    requires forall r :: r in rows ==> r.claimToken.Some?
    requires PublishRows(c, s, rows, attempts, t).1.Some?
    ensures EndsAs(c, s, rows, attempts, PublishRows(c, s, rows, attempts, t).0)
    decreases |rows|
  {
    if rows != [] {
      HeldAfterMark(c, s, rows, attempts[0]);
      hide HeldRows, MarkAfter, HoldsClaim, EndsAs, Outcome;
      LoopEndsAs(c, MarkAfter(c, s, rows[0], rows[0].claimToken.value, attempts[0]), rows[1..], attempts[1..], Count(c, rows[0], attempts[0], t));
      LoopHeadEndsAs(c, s, rows, attempts, PublishRows(c, s, rows, attempts, t).0);
    } else {
      EmptyEnds(c, s, attempts);
    }
  }

  lemma {:induction false} EmptyEnds(c: Settings, s: Store, attempts: seq<Attempt>)
    ensures EndsAs(c, s, [], attempts, s)
  {
  }

  lemma {:induction false} LoopHeadEndsAs(c: Settings, s: Store, rows: seq<OutboxRow>, attempts: seq<Attempt>, t: Store)
    requires |attempts| >= |rows| > 0 && HeldRows(s, rows)
    requires EndsAs(c, s.(outbox := s.outbox[rows[0].envelope.messageId := Outcome(c, rows[0], attempts[0])]), rows[1..], attempts[1..], t)
    ensures EndsAs(c, s, rows, attempts, t)
  {
    var id0, rest := rows[0].envelope.messageId, rows[1..];
    var s1 := s.(outbox := s.outbox[id0 := Outcome(c, rows[0], attempts[0])]);
    assert IsRowOf(s, rows[0]);
    assert s1.outbox[id0] !in rest by {
      forall k | 0 <= k < |rest| ensures rest[k].envelope.messageId != id0 { assert rest[k] == rows[k + 1]; }
    }
    forall k | 0 <= k < |rows| ensures rows[k].envelope.messageId in t.outbox && t.outbox[rows[k].envelope.messageId] == Outcome(c, rows[k], attempts[k]) {
      if k > 0 {
        assert rest[k - 1] == rows[k] && attempts[1..][k - 1] == attempts[k];
      }
    }
    forall id | id in s.outbox && s.outbox[id] !in rows ensures t.outbox[id] == s.outbox[id] {
      assert rows[0] in rows && id != id0;
      assert forall r :: r in rest ==> r in rows;
    }
  }

  // ------------------------------------------------------------- conservation

  // How many of `rows` now stand at `status`.
  function Standing(outbox: map<Uuid, OutboxRow>, rows: seq<OutboxRow>, status: OutboxStatus): nat {
    if rows == [] then 0
    else
      var stands := rows[0].envelope.messageId in outbox && outbox[rows[0].envelope.messageId].status == status;
      (if stands then 1 else 0) + Standing(outbox, rows[1..], status)
  }

  lemma {:induction false} LoopCounts(c: Settings, s: Store, rows: seq<OutboxRow>, attempts: seq<Attempt>, t: Tally, final: map<Uuid, OutboxRow>)
    requires |attempts| >= |rows|
    requires forall r :: r in rows ==> r.claimToken.Some?
    requires PublishRows(c, s, rows, attempts, t).1.Some?
    requires forall k :: 0 <= k < |rows| ==> rows[k].envelope.messageId in final && final[rows[k].envelope.messageId].status == Outcome(c, rows[k], attempts[k]).status
    ensures var r := PublishRows(c, s, rows, attempts, t).1.value;
      && r.published == t.published + Standing(final, rows, Published)
      && r.retained == t.retained + Standing(final, rows, Pending)
      && r.isolated == t.isolated + Standing(final, rows, Isolated)
      && Standing(final, rows, Published) + Standing(final, rows, Pending) + Standing(final, rows, Isolated) == |rows|
    decreases |rows|
  {
    if rows != [] {
      var row, a := rows[0], attempts[0];
      forall k | 0 <= k < |rows[1..]|
        ensures rows[1..][k].envelope.messageId in final && final[rows[1..][k].envelope.messageId].status == Outcome(c, rows[1..][k], attempts[1..][k]).status
      {
        assert rows[1..][k] == rows[k + 1] && attempts[1..][k] == attempts[k + 1];
      }
      LoopCounts(c, MarkAfter(c, s, row, row.claimToken.value, a), rows[1..], attempts[1..], Count(c, row, a, t), final);
    }
  }

  lemma {:induction false} ClaimedRowsAreHeld(c: Settings, s: Store, b: Batch)
    requires Ordered(s.outbox, s.order) && Supplies(c, b)
    ensures var sel := Selected(c, s, b); var t := ClaimRows(s, sel, b.tokens, b.at);
      && HeldRows(t, ClaimAll(sel, b.tokens, b.at))
      && t == s.(outbox := t.outbox) && t.outbox.Keys == s.outbox.Keys && Ordered(t.outbox, t.order)
      && (forall id :: id in s.outbox && s.outbox[id] !in sel ==> t.outbox[id] == s.outbox[id])
  {
    var sel := Selected(c, s, b);
    ClaimSelectionIsClaimable(s, b.at, StaleBefore(c, b.at), c.batchSize);
    ClaimRowsEffect(s, sel, b.tokens, b.at);
    var claimed := ClaimAll(sel, b.tokens, b.at);
    forall i, j | 0 <= i < j < |claimed| ensures claimed[i].envelope.messageId != claimed[j].envelope.messageId {
      assert sel[i] != sel[j] && sel[i] in sel && sel[j] in sel;
      assert IsRowOf(s, sel[i]) && IsRowOf(s, sel[j]);
    }
  }

  // What a batch does: each selected row is claimed and then ends as its attempt
  // decides; every other row is as it was.
  ghost predicate BatchEffect(c: Settings, s: Store, b: Batch, t: Store)
    requires Ordered(s.outbox, s.order) && Supplies(c, b)
  {
    var sel := Selected(c, s, b);
    && |sel| <= c.batchSize
    && t == s.(outbox := t.outbox)
    && t.outbox.Keys == s.outbox.Keys
    && (forall k :: 0 <= k < |sel| ==>
          IsRowOf(s, sel[k]) && t.outbox[sel[k].envelope.messageId] == Outcome(c, ClaimedRow(sel[k], b.tokens[k], b.at), b.attempts[k]))
    && (forall id :: id in s.outbox && s.outbox[id] !in sel ==> t.outbox[id] == s.outbox[id])
  }

  // A batch returns exactly when the store fails for none of the rows it claimed.
  lemma {:induction false} BatchReturns(c: Settings, s: Store, b: Batch)
    requires Ordered(s.outbox, s.order) && Supplies(c, b)
    ensures |Selected(c, s, b)| <= |b.attempts|
    ensures RunBatch(c, s, b).1.BatchDone? <==> forall k :: 0 <= k < |Selected(c, s, b)| ==> !b.attempts[k].storeFails
  {
    var sel := Selected(c, s, b);
    ClaimedRowsAreHeld(c, s, b);
    LoopReturns(c, ClaimRows(s, sel, b.tokens, b.at), ClaimAll(sel, b.tokens, b.at), b.attempts, Tally(0, 0, 0));
  }

  lemma {:induction false} BatchDoesItsRows(c: Settings, s: Store, b: Batch)
    requires Ordered(s.outbox, s.order) && Supplies(c, b) && RunBatch(c, s, b).1.BatchDone?
    ensures BatchEffect(c, s, b, RunBatch(c, s, b).0)
  {
    var sel := Selected(c, s, b);
    var claimed := ClaimAll(sel, b.tokens, b.at);
    var s1 := ClaimRows(s, sel, b.tokens, b.at);
    ClaimSelectionIsClaimable(s, b.at, StaleBefore(c, b.at), c.batchSize);
    ClaimedRowsAreHeld(c, s, b);
    LoopEndsAs(c, s1, claimed, b.attempts, Tally(0, 0, 0));
    var t := RunBatch(c, s, b).0;
    forall k | 0 <= k < |sel|
      ensures IsRowOf(s, sel[k]) && t.outbox[sel[k].envelope.messageId] == Outcome(c, ClaimedRow(sel[k], b.tokens[k], b.at), b.attempts[k])
    {
      assert sel[k] in sel;
      assert claimed[k].envelope.messageId == sel[k].envelope.messageId;
    }
    forall id | id in s.outbox && s.outbox[id] !in sel ensures t.outbox[id] == s.outbox[id] {
      assert s1.outbox[id] == s.outbox[id];
      forall k | 0 <= k < |claimed| ensures claimed[k] != s1.outbox[id] {
        assert sel[k] in sel && IsRowOf(s, sel[k]);
      }
    }
  }

  // A batch that returns reports as many rows as it claimed, each counted under
  // the status it was actually given.
  lemma {:induction false} BatchConserves(c: Settings, s: Store, b: Batch)
    requires Ordered(s.outbox, s.order) && Supplies(c, b) && RunBatch(c, s, b).1.BatchDone?
    ensures var (t, r) := RunBatch(c, s, b); var sel := Selected(c, s, b);
      && r.claimed == |sel|
      && r.claimed == r.tally.published + r.tally.retained + r.tally.isolated
      && r.tally == Tally(Standing(t.outbox, sel, Published), Standing(t.outbox, sel, Pending), Standing(t.outbox, sel, Isolated))
  {
    var sel := Selected(c, s, b);
    var claimed := ClaimAll(sel, b.tokens, b.at);
    var s1 := ClaimRows(s, sel, b.tokens, b.at);
    ClaimedRowsAreHeld(c, s, b);
    BatchDoesItsRows(c, s, b);
    LoopEndsAs(c, s1, claimed, b.attempts, Tally(0, 0, 0));
    var t := RunBatch(c, s, b).0;
    LoopCounts(c, s1, claimed, b.attempts, Tally(0, 0, 0), t.outbox);
    SameStanding(t.outbox, claimed, sel, Published);
    SameStanding(t.outbox, claimed, sel, Pending);
    SameStanding(t.outbox, claimed, sel, Isolated);
  }

  lemma {:induction false} SameStanding(outbox: map<Uuid, OutboxRow>, a: seq<OutboxRow>, b: seq<OutboxRow>, status: OutboxStatus)
    requires |a| == |b| && forall k :: 0 <= k < |a| ==> a[k].envelope.messageId == b[k].envelope.messageId
    ensures Standing(outbox, a, status) == Standing(outbox, b, status)
    decreases |a|
  {
    if a != [] {
      SameStanding(outbox, a[1..], b[1..], status);
    }
  }

  // ---------------------------------------------------------------- draining

  // Sends a pending row still has.
  function AttemptsLeft(c: Settings, row: OutboxRow): nat {
    if row.status == Pending && row.attemptCount < c.maxAttempts then c.maxAttempts - row.attemptCount else 0
  }

  function TotalLeft(c: Settings, outbox: map<Uuid, OutboxRow>, order: seq<Uuid>): nat
    requires forall id :: id in order ==> id in outbox
  {
    if order == [] then 0 else AttemptsLeft(c, outbox[order[0]]) + TotalLeft(c, outbox, order[1..])
  }

  lemma {:induction false} TotalFalls(c: Settings, before: map<Uuid, OutboxRow>, after: map<Uuid, OutboxRow>, order: seq<Uuid>, id: Uuid)
    requires forall x :: x in order ==> x in before && x in after && AttemptsLeft(c, after[x]) <= AttemptsLeft(c, before[x])
    requires id in before && id in after && AttemptsLeft(c, after[id]) < AttemptsLeft(c, before[id])
    ensures TotalLeft(c, after, order) <= TotalLeft(c, before, order)
    ensures id in order ==> TotalLeft(c, after, order) < TotalLeft(c, before, order)
  {
    if order != [] {
      TotalFalls(c, before, after, order[1..], id);
    }
  }

  // No claim is outstanding: no publisher has crashed holding one.
  ghost predicate Settled(s: Store) {
    forall id :: id in s.outbox ==> s.outbox[id].status != Publishing
  }

  ghost predicate Drained(s: Store) {
    forall id :: id in s.outbox ==> s.outbox[id].status == Published || s.outbox[id].status == Isolated
  }

  // The batch runs late enough for every pending row, and the store answers.
  ghost predicate Timely(s: Store, b: Batch) {
    && (forall id :: id in s.outbox && s.outbox[id].status == Pending ==> s.outbox[id].availableAt <= b.at)
    && (forall k :: 0 <= k < |b.attempts| ==> !b.attempts[k].storeFails)
  }

  lemma {:induction false} OutcomeShape(c: Settings, row: OutboxRow, token: Token, at: int, a: Attempt)
    requires ValidSettings(c) && RowShape(row, c.maxAttempts) && row.status == Pending
    ensures var next := Outcome(c, ClaimedRow(row, token, at), a);
      RowShape(next, c.maxAttempts) && next.status != Publishing && AttemptsLeft(c, next) < AttemptsLeft(c, row)
  {
  }

  // Each row after a timely batch: in shape, settled, and with no more attempts
  // left than before; fewer if the batch took it.
  ghost predicate RowProgress(c: Settings, s: Store, t: Store, id: Uuid, taken: bool)
    requires id in s.outbox && id in t.outbox
  {
    && t.outbox[id].envelope.messageId == id
    && RowShape(t.outbox[id], c.maxAttempts) && t.outbox[id].status != Publishing
    && AttemptsLeft(c, t.outbox[id]) <= AttemptsLeft(c, s.outbox[id])
    && (taken ==> AttemptsLeft(c, t.outbox[id]) < AttemptsLeft(c, s.outbox[id]))
  }

  lemma {:induction false} RowMakesProgress(c: Settings, s: Store, b: Batch, id: Uuid)
    requires ValidSettings(c) && Supplies(c, b) && OutboxShape(s.outbox, s.order, c.maxAttempts) && Settled(s) && Timely(s, b)
    requires id in s.outbox
    ensures RunBatch(c, s, b).0.outbox.Keys == s.outbox.Keys && RunBatch(c, s, b).0.order == s.order
    ensures RowProgress(c, s, RunBatch(c, s, b).0, id, s.outbox[id] in Selected(c, s, b))
  {
    TimelyReturns(c, s, b);
    BatchDoesItsRows(c, s, b);
    var sel := Selected(c, s, b);
    ClaimSelectionIsClaimable(s, b.at, StaleBefore(c, b.at), c.batchSize);
    if s.outbox[id] in sel {
      var k :| 0 <= k < |sel| && sel[k] == s.outbox[id];
      OutcomeShape(c, sel[k], b.tokens[k], b.at, b.attempts[k]);
    }
  }

  // A timely batch takes something as long as anything is pending.
  lemma {:induction false} BatchTakesSomething(c: Settings, s: Store, b: Batch)
    requires ValidSettings(c) && Supplies(c, b) && OutboxShape(s.outbox, s.order, c.maxAttempts) && Settled(s) && Timely(s, b)
    requires !Drained(s)
    ensures Selected(c, s, b) != [] && IsRowOf(s, Selected(c, s, b)[0])
  {
    var id :| id in s.outbox && s.outbox[id].status == Pending;
    var sel := Selected(c, s, b);
    if s.outbox[id] !in sel {
      ClaimSelectionTakesOldest(s, b.at, StaleBefore(c, b.at), c.batchSize, id);
    }
    ClaimSelectionIsClaimable(s, b.at, StaleBefore(c, b.at), c.batchSize);
    assert sel[0] in sel;
  }

  // One timely batch leaves a settled outbox settled and, unless it is drained,
  // with fewer attempts left.
  lemma {:induction false} BatchMakesProgress(c: Settings, s: Store, b: Batch)
    requires ValidSettings(c) && Supplies(c, b) && OutboxShape(s.outbox, s.order, c.maxAttempts) && Settled(s) && Timely(s, b)
    ensures var t := RunBatch(c, s, b).0;
      && OutboxShape(t.outbox, t.order, c.maxAttempts) && Settled(t)
      && TotalLeft(c, t.outbox, t.order) <= TotalLeft(c, s.outbox, s.order)
      && (Drained(s) || TotalLeft(c, t.outbox, t.order) < TotalLeft(c, s.outbox, s.order))
  {
    hide RunBatch, Selected, Timely, RowShape;
    TimelyReturns(c, s, b);
    BatchDoesItsRows(c, s, b);
    var t := RunBatch(c, s, b).0;
    assert t.outbox.Keys == s.outbox.Keys && t.order == s.order;
    forall id | id in s.outbox ensures RowProgress(c, s, t, id, s.outbox[id] in Selected(c, s, b)) {
      RowMakesProgress(c, s, b, id);
    }
    TotalUnchangedOrLess(c, s.outbox, t.outbox, s.order);
    if !Drained(s) {
      BatchTakesSomething(c, s, b);
      var chosen := Selected(c, s, b)[0];
      assert chosen in Selected(c, s, b) && s.outbox[chosen.envelope.messageId] == chosen;
      TotalFalls(c, s.outbox, t.outbox, s.order, chosen.envelope.messageId);
    }
  }

  lemma {:induction false} TimelyReturns(c: Settings, s: Store, b: Batch)
    requires Ordered(s.outbox, s.order) && Supplies(c, b) && Timely(s, b)
    ensures RunBatch(c, s, b).1.BatchDone?
  {
    hide RunBatch, Selected;
    BatchReturns(c, s, b);
  }

  lemma {:induction false} TotalUnchangedOrLess(c: Settings, before: map<Uuid, OutboxRow>, after: map<Uuid, OutboxRow>, order: seq<Uuid>)
    requires forall x :: x in order ==> x in before && x in after && AttemptsLeft(c, after[x]) <= AttemptsLeft(c, before[x])
    ensures TotalLeft(c, after, order) <= TotalLeft(c, before, order)
  {
    if order != [] {
      TotalUnchangedOrLess(c, before, after, order[1..]);
    }
  }

  ghost predicate TimelyBatches(c: Settings, s: Store, batches: seq<Batch>)
    requires Ordered(s.outbox, s.order)
    decreases |batches|
  {
    batches == [] ||
    (Supplies(c, batches[0]) && Timely(s, batches[0])
     && Ordered(RunBatch(c, s, batches[0]).0.outbox, RunBatch(c, s, batches[0]).0.order)
     && TimelyBatches(c, RunBatch(c, s, batches[0]).0, batches[1..]))
  }

  ghost function RunBatches(c: Settings, s: Store, batches: seq<Batch>): Store
    requires Ordered(s.outbox, s.order) && TimelyBatches(c, s, batches)
    decreases |batches|
  {
    if batches == [] then s else RunBatches(c, RunBatch(c, s, batches[0]).0, batches[1..])
  }

  // Without crashes or replays, as many timely batches as there are attempts
  // left bring every row to published or isolated, whatever the broker answers.
  lemma {:induction false} BatchesDrain(c: Settings, s: Store, batches: seq<Batch>)
    requires ValidSettings(c) && OutboxShape(s.outbox, s.order, c.maxAttempts) && Settled(s)
    requires TimelyBatches(c, s, batches) && |batches| >= TotalLeft(c, s.outbox, s.order)
    ensures Drained(RunBatches(c, s, batches))
    decreases |batches|
  {
    if batches == [] {
      NothingLeftIsDrained(c, s);
    } else {
      BatchMakesProgress(c, s, batches[0]);
      if Drained(s) {
        DrainedStaysDrained(c, s, batches);
      } else {
        BatchesDrain(c, RunBatch(c, s, batches[0]).0, batches[1..]);
      }
    }
  }

  lemma {:induction false} LeftIsCounted(c: Settings, outbox: map<Uuid, OutboxRow>, order: seq<Uuid>, id: Uuid)
    requires (forall x :: x in order ==> x in outbox) && id in order
    ensures TotalLeft(c, outbox, order) >= AttemptsLeft(c, outbox[id])
  {
    if order[0] != id {
      LeftIsCounted(c, outbox, order[1..], id);
    }
  }

  lemma {:induction false} NothingLeftIsDrained(c: Settings, s: Store)
    requires OutboxShape(s.outbox, s.order, c.maxAttempts) && Settled(s) && TotalLeft(c, s.outbox, s.order) == 0
    ensures Drained(s)
  {
    forall id | id in s.outbox ensures s.outbox[id].status == Published || s.outbox[id].status == Isolated {
      LeftIsCounted(c, s.outbox, s.order, id);
    }
  }

  lemma {:induction false} FirstSelectedIsLive(c: Settings, s: Store, b: Batch)
    requires Ordered(s.outbox, s.order) && Selected(c, s, b) != []
    ensures var r := Selected(c, s, b)[0];
      IsRowOf(s, r) && (r.status == Pending || r.status == Publishing)
  {
    ClaimSelectionIsClaimable(s, b.at, StaleBefore(c, b.at), c.batchSize);
    assert Selected(c, s, b)[0] in Selected(c, s, b);
  }

  lemma {:induction false} DrainedStaysDrained(c: Settings, s: Store, batches: seq<Batch>)
    requires ValidSettings(c) && OutboxShape(s.outbox, s.order, c.maxAttempts) && Drained(s)
    requires TimelyBatches(c, s, batches)
    ensures Drained(RunBatches(c, s, batches))
    decreases |batches|
  {
    if batches != [] {
      var b := batches[0];
      TimelyReturns(c, s, b);
      BatchDoesItsRows(c, s, b);
      if Selected(c, s, b) != [] {
        FirstSelectedIsLive(c, s, b);
        assert false;
      }
      DrainedStaysDrained(c, RunBatch(c, s, b).0, batches[1..]);
    }
  }

  // -------------------------------------------------------------- the publisher

  class Publisher {
    const store: InMemoryEventingStore
    const settings: Settings

    constructor (store: InMemoryEventingStore, settings: Settings)
      requires ValidSettings(settings)
      ensures this.store == store && this.settings == settings
    {
      this.store := store;
      this.settings := settings;
    }

    // The mark that follows one send.
    method MarkRow(row: OutboxRow, attempt: Attempt) returns (marked: bool)
      requires row.claimToken.Some?
      modifies store
      ensures marked <==> HoldsClaim(old(store.View()), row.envelope.messageId, row.claimToken.value)
      ensures marked ==> store.View() == MarkAfter(settings, old(store.View()), row, row.claimToken.value, attempt)
      ensures !marked ==> store.View() == old(store.View())
    {
      if attempt.confirmed {
        marked := store.MarkOutboxPublished(row.envelope.messageId, row.claimToken.value, attempt.clock);
      } else {
        var exhaust := row.attemptCount >= settings.maxAttempts;
        var seconds := if 1 <= row.attemptCount <= |settings.backoffSeconds| then settings.backoffSeconds[row.attemptCount - 1] else 0;
        marked := store.MarkOutboxFailure(row.envelope.messageId, row.claimToken.value, attempt.clock,
                                          attempt.clock + 1000 * seconds, "publish_failed", exhaust);
      }
    }

    // The loop over the rows just claimed; None stands for the thrown error.
    method PublishClaimed(rows: seq<OutboxRow>, attempts: seq<Attempt>) returns (tally: Option<Tally>)
      requires |attempts| >= |rows|
      requires forall r :: r in rows ==> r.claimToken.Some?
      modifies store
      ensures store.View() == PublishRows(settings, old(store.View()), rows, attempts, Tally(0, 0, 0)).0
      ensures tally == PublishRows(settings, old(store.View()), rows, attempts, Tally(0, 0, 0)).1
    {
      var t := Tally(0, 0, 0);
      ghost var target := PublishRows(settings, store.View(), rows, attempts, t);
      for i := 0 to |rows|
        invariant PublishRows(settings, store.View(), rows[i..], attempts[i..], t) == target
      {
        var row, attempt := rows[i], attempts[i];
        assert rows[i..][0] == row && attempts[i..][0] == attempt;
        assert rows[i..][1..] == rows[i + 1..] && attempts[i..][1..] == attempts[i + 1..];
        if attempt.storeFails {
          return None;
        }
        var marked := MarkRow(row, attempt);
        if !marked {
          return None;
        }
        if attempt.confirmed {
          t := t.(published := t.published + 1);
        } else if row.attemptCount >= settings.maxAttempts {
          t := t.(isolated := t.isolated + 1);
        } else {
          t := t.(retained := t.retained + 1);
        }
      }
      return Some(t);
    }

    method PublishBatch(b: Batch) returns (r: BatchResult)
      requires Ordered(store.outbox, store.order) && Supplies(settings, b)
      modifies store
      ensures store.View() == RunBatch(settings, old(store.View()), b).0
      ensures r == RunBatch(settings, old(store.View()), b).1
    {
      ghost var start := store.View();
      var rows := store.ClaimOutbox(b.at, StaleBefore(settings, b.at), settings.batchSize, b.tokens);
      assert rows == ClaimAll(Selected(settings, start, b), b.tokens, b.at);
      var tally := PublishClaimed(rows, b.attempts);
      return if tally.Some? then BatchDone(|rows|, tally.value) else StorageUnavailable;
    }
  }
}
