// The store object: four maps changed in place, each operation proved to do
// exactly what the model says to the whole state.
module EventingStore {
  import opened Prelude
  import opened EventingModel

  // Rows in insertion order.
  function Rows(outbox: map<Uuid, OutboxRow>, order: seq<Uuid>): (rows: seq<OutboxRow>)
    requires forall id :: id in order ==> id in outbox
    ensures |rows| == |order|
    ensures forall i :: 0 <= i < |order| ==> rows[i] == outbox[order[i]]
  {
    if order == [] then [] else [outbox[order[0]]] + Rows(outbox, order[1..])
  }

  function ClaimableRows(rows: seq<OutboxRow>, at: int, staleBefore: int): (r: seq<OutboxRow>)
    ensures |r| <= |rows|
  {
    if rows == [] then []
    else (if Claimable(rows[0], at, staleBefore) then [rows[0]] else []) + ClaimableRows(rows[1..], at, staleBefore)
  }

  predicate EarlierAvailable(a: OutboxRow, b: OutboxRow) { a.availableAt <= b.availableAt }

  function Take<T>(s: seq<T>, limit: nat): (r: seq<T>)
    ensures |r| <= |s| && |r| <= limit && r == s[..|r|]
  {
    if |s| <= limit then s else s[..limit]
  }

  // Every claimable row, oldest first.
  function Candidates(s: Store, at: int, staleBefore: int): seq<OutboxRow>
    requires Ordered(s.outbox, s.order)
  {
    Sort(EarlierAvailable, ClaimableRows(Rows(s.outbox, s.order), at, staleBefore))
  }

  // The rows one claim takes.
  function ClaimSelection(s: Store, at: int, staleBefore: int, limit: nat): seq<OutboxRow>
    requires Ordered(s.outbox, s.order)
  {
    Take(Candidates(s, at, staleBefore), limit)
  }

  // Claims `rows` one after the other, the k-th with tokens[k].
  function ClaimRows(s: Store, rows: seq<OutboxRow>, tokens: seq<Token>, at: int): Store
    requires |tokens| >= |rows|
    decreases |rows|
  {
    if rows == [] then s
    else ClaimRows(s.(outbox := s.outbox[rows[0].envelope.messageId := ClaimedRow(rows[0], tokens[0], at)]), rows[1..], tokens[1..], at)
  }

  ghost predicate Ordered(outbox: map<Uuid, OutboxRow>, order: seq<Uuid>) {
    && (forall id :: id in outbox ==> outbox[id].envelope.messageId == id)
    && Distinct(order)
    && (forall id :: id in order <==> id in outbox)
  }

  // ------------------------------------------------- what a claim selects

  lemma {:induction false} ClaimableRowsMembers(rows: seq<OutboxRow>, at: int, staleBefore: int)
    ensures forall r :: r in ClaimableRows(rows, at, staleBefore) <==> r in rows && Claimable(r, at, staleBefore)
  {
    if rows != [] {
      ClaimableRowsMembers(rows[1..], at, staleBefore);
      assert rows == [rows[0]] + rows[1..];
    }
  }

  lemma {:induction false} ClaimableRowsDistinct(rows: seq<OutboxRow>, at: int, staleBefore: int)
    requires Distinct(rows)
    ensures Distinct(ClaimableRows(rows, at, staleBefore))
  {
    if rows != [] {
      ClaimableRowsDistinct(rows[1..], at, staleBefore);
      ClaimableRowsMembers(rows[1..], at, staleBefore);
      forall k | 0 <= k < |rows[1..]| ensures rows[1..][k] != rows[0] { assert rows[k + 1] == rows[1..][k]; }
    }
  }

  lemma {:induction false} RowsDistinct(s: Store)
    requires Ordered(s.outbox, s.order)
    ensures Distinct(Rows(s.outbox, s.order))
    ensures forall r :: r in Rows(s.outbox, s.order) <==> r.envelope.messageId in s.outbox && s.outbox[r.envelope.messageId] == r
  {
    var rows := Rows(s.outbox, s.order);
    forall i, j | 0 <= i < j < |rows| ensures rows[i] != rows[j] {
      assert rows[i].envelope.messageId == s.order[i] && rows[j].envelope.messageId == s.order[j];
    }
    forall r ensures r in rows <==> r.envelope.messageId in s.outbox && s.outbox[r.envelope.messageId] == r {
      if r.envelope.messageId in s.outbox && s.outbox[r.envelope.messageId] == r {
        assert r.envelope.messageId in s.order;
        var i :| 0 <= i < |s.order| && s.order[i] == r.envelope.messageId;
        assert rows[i] == r;
      }
    }
  }

  lemma {:induction false} EarlierAvailableIsTotal()
    ensures TotalPreorder(EarlierAvailable)
  {
  }

  predicate IsRowOf(s: Store, r: OutboxRow) {
    r.envelope.messageId in s.outbox && s.outbox[r.envelope.messageId] == r
  }

  lemma {:induction false} CandidatesAreTheClaimableRows(s: Store, at: int, staleBefore: int)
    requires Ordered(s.outbox, s.order)
    ensures forall r :: r in Candidates(s, at, staleBefore) <==> IsRowOf(s, r) && Claimable(r, at, staleBefore)
    ensures Distinct(Candidates(s, at, staleBefore))
    ensures Sorted(EarlierAvailable, Candidates(s, at, staleBefore))
  {
    var rows := Rows(s.outbox, s.order);
    var claimable := ClaimableRows(rows, at, staleBefore);
    RowsDistinct(s);
    ClaimableRowsMembers(rows, at, staleBefore);
    ClaimableRowsDistinct(rows, at, staleBefore);
    EarlierAvailableIsTotal();
    SortContents(EarlierAvailable, claimable);
    SortMembers(EarlierAvailable, claimable);
    SortSorted(EarlierAvailable, claimable);
    DistinctIsOrderFree(Candidates(s, at, staleBefore), claimable);
  }

  // A claim takes only claimable rows, each once and at most `limit`.
  lemma {:induction false} ClaimSelectionIsClaimable(s: Store, at: int, staleBefore: int, limit: nat)
    requires Ordered(s.outbox, s.order)
    ensures var sel := ClaimSelection(s, at, staleBefore, limit);
      && |sel| <= limit
      && Distinct(sel)
      && (forall r :: r in sel ==> IsRowOf(s, r) && Claimable(r, at, staleBefore))
  {
    CandidatesAreTheClaimableRows(s, at, staleBefore);
    var sel := ClaimSelection(s, at, staleBefore, limit);
    forall r | r in sel ensures r in Candidates(s, at, staleBefore) {
      var i :| 0 <= i < |sel| && sel[i] == r;
    }
  }

  // No claimable row is left behind while there is room, nor while a younger row is taken.
  lemma {:induction false} ClaimSelectionTakesOldest(s: Store, at: int, staleBefore: int, limit: nat, id: Uuid)
    requires Ordered(s.outbox, s.order) && id in s.outbox && Claimable(s.outbox[id], at, staleBefore)
    requires s.outbox[id] !in ClaimSelection(s, at, staleBefore, limit)
    ensures |ClaimSelection(s, at, staleBefore, limit)| == limit
    ensures forall r :: r in ClaimSelection(s, at, staleBefore, limit) ==> r.availableAt <= s.outbox[id].availableAt
  {
    CandidatesAreTheClaimableRows(s, at, staleBefore);
    var all := Candidates(s, at, staleBefore);
    var sel := ClaimSelection(s, at, staleBefore, limit);
    assert IsRowOf(s, s.outbox[id]);
    var j :| 0 <= j < |all| && all[j] == s.outbox[id];
    assert forall k :: 0 <= k < |sel| ==> sel[k] == all[k] && sel[k] in sel;
    assert |sel| <= j;
    forall r | r in sel ensures r.availableAt <= s.outbox[id].availableAt {
      var i :| 0 <= i < |sel| && sel[i] == r;
      assert EarlierAvailable(all[i], all[j]);
    }
  }

  // Claiming rows of the outbox changes exactly those rows.
  lemma {:induction false} ClaimRowsEffect(s: Store, rows: seq<OutboxRow>, tokens: seq<Token>, at: int)
    requires Ordered(s.outbox, s.order) && |tokens| >= |rows|
    requires forall r :: r in rows ==> IsRowOf(s, r)
    requires Distinct(rows)
    ensures var t := ClaimRows(s, rows, tokens, at);
      && t == s.(outbox := t.outbox)
      && t.outbox.Keys == s.outbox.Keys
      && Ordered(t.outbox, t.order)
      && (forall k :: 0 <= k < |rows| ==> IsRowOf(s, rows[k]) && t.outbox[rows[k].envelope.messageId] == ClaimedRow(rows[k], tokens[k], at))
      && (forall id :: id in s.outbox && s.outbox[id] !in rows ==> t.outbox[id] == s.outbox[id])
    decreases |rows|
  {
    if rows != [] {
      var id0 := rows[0].envelope.messageId;
      assert IsRowOf(s, rows[0]);
      var s1 := s.(outbox := s.outbox[id0 := ClaimedRow(rows[0], tokens[0], at)]);
      var rest := rows[1..];
      forall r | r in rest ensures IsRowOf(s1, r) && r.envelope.messageId != id0 {
        var k :| 0 <= k < |rest| && rest[k] == r;
        assert rows[k + 1] == r && rows[0] != rows[k + 1];
        assert IsRowOf(s, rows[k + 1]);
      }
      ClaimRowsEffect(s1, rest, tokens[1..], at);
      var t := ClaimRows(s, rows, tokens, at);
      forall k | 0 <= k < |rows| ensures IsRowOf(s, rows[k]) && t.outbox[rows[k].envelope.messageId] == ClaimedRow(rows[k], tokens[k], at) {
        assert rows[k] in rows;
        if k == 0 {
          assert s1.outbox[id0].envelope.messageId == id0;
          assert s1.outbox[id0] !in rest;
        } else {
          assert rest[k - 1] == rows[k];
        }
      }
      forall id | id in s.outbox && s.outbox[id] !in rows ensures t.outbox[id] == s.outbox[id] {
        assert rows[0] in rows;
        assert id != id0;
        assert s1.outbox[id] !in rest by { assert forall r :: r in rest ==> r in rows; }
      }
    }
  }

  lemma {:induction false} ClaimKeepsOrder(s: Store, at: int, staleBefore: int, limit: nat, tokens: seq<Token>)
    requires Ordered(s.outbox, s.order) && |tokens| == limit
    ensures Ordered(ClaimRows(s, ClaimSelection(s, at, staleBefore, limit), tokens, at).outbox, s.order)
  {
    ClaimSelectionIsClaimable(s, at, staleBefore, limit);
    ClaimRowsEffect(s, ClaimSelection(s, at, staleBefore, limit), tokens, at);
  }

  // Claiming the first of the rows, and then the rest.
  lemma {:induction false} ClaimNext(s: Store, rows: seq<OutboxRow>, tokens: seq<Token>, at: int, i: nat)
    requires i < |rows| <= |tokens|
    ensures var next := ClaimedRow(rows[i], tokens[i], at);
      ClaimRows(s, rows[i..], tokens[i..], at) == ClaimRows(s.(outbox := s.outbox[next.envelope.messageId := next]), rows[i + 1..], tokens[i + 1..], at)
  {
    assert rows[i..][0] == rows[i] && tokens[i..][0] == tokens[i];
    assert rows[i..][1..] == rows[i + 1..] && tokens[i..][1..] == tokens[i + 1..];
  }

  lemma {:induction false} NothingLeftToClaim(s: Store, rows: seq<OutboxRow>, tokens: seq<Token>, at: int)
    requires |tokens| >= |rows|
    ensures ClaimRows(s, rows[|rows|..], tokens[|rows|..], at) == s
    ensures rows[0..] == rows && tokens[0..] == tokens
  {
  }

  class InMemoryEventingStore {
    var outbox: map<Uuid, OutboxRow>
    var order: seq<Uuid>
    var inbox: map<ReceiptKey, Digest>
    var jobs: map<Uuid, JobRecord>
    var isolations: map<IsolationKey, Isolation>
    var effects: seq<Effect>

    constructor ()
      ensures View() == EmptyStore
    {
      outbox, order, inbox, jobs, isolations, effects := map[], [], map[], map[], map[], [];
    }

    function View(): Store
      reads this
    {
      Store(outbox, order, inbox, jobs, isolations, effects)
    }

    // Restores a snapshot taken when a transaction began.
    method Restore(snapshot: Store)
      modifies this
      ensures View() == snapshot
    {
      outbox, order, inbox := snapshot.outbox, snapshot.order, snapshot.inbox;
      jobs, isolations, effects := snapshot.jobs, snapshot.isolations, snapshot.effects;
    }

    method AppendOutbox(row: OutboxRow) returns (accepted: bool)
      modifies this
      ensures accepted <==> row.envelope.messageId !in old(outbox)
      ensures View() == AppendRow(old(View()), row)
    {
      if row.envelope.messageId in outbox {
        return false;
      }
      outbox := outbox[row.envelope.messageId := row];
      order := order + [row.envelope.messageId];
      return true;
    }

    method ClaimOutbox(at: int, staleBefore: int, limit: nat, tokens: seq<Token>) returns (claimed: seq<OutboxRow>)
      requires Ordered(outbox, order)
      requires |tokens| == limit
      modifies this
      ensures Ordered(outbox, order)
      ensures var sel := ClaimSelection(old(View()), at, staleBefore, limit);
        && View() == ClaimRows(old(View()), sel, tokens, at)
        && |claimed| == |sel|
        && (forall k :: 0 <= k < |sel| ==> claimed[k] == ClaimedRow(sel[k], tokens[k], at))
    {
      var selected := Take(Sort(EarlierAvailable, ClaimableRows(Rows(outbox, order), at, staleBefore)), limit);
      assert selected == ClaimSelection(View(), at, staleBefore, limit);
      hide ClaimRows, Sort, Ordered, ClaimSelection, Candidates, ClaimableRows, Rows, Take, Claimable;
      ClaimKeepsOrder(View(), at, staleBefore, limit, tokens);
      claimed := [];
      ghost var start := View();
      ghost var target := ClaimRows(start, selected, tokens, at);
      NothingLeftToClaim(start, selected, tokens, at);
      for i := 0 to |selected|
        invariant |claimed| == i
        invariant forall k :: 0 <= k < i ==> claimed[k] == ClaimedRow(selected[k], tokens[k], at)
        invariant View() == start.(outbox := outbox)
        invariant ClaimRows(View(), selected[i..], tokens[i..], at) == target
      {
        var next := ClaimedRow(selected[i], tokens[i], at);
        ClaimNext(View(), selected, tokens, at, i);
        outbox := outbox[next.envelope.messageId := next];
        claimed := claimed + [next];
      }
      NothingLeftToClaim(View(), selected, tokens, at);
    }

    method MarkOutboxPublished(id: Uuid, token: Token, at: int) returns (marked: bool)
      modifies this`outbox
      ensures marked <==> HoldsClaim(old(View()), id, token)
      ensures View() == MarkPublished(old(View()), id, token, at)
    {
      if id !in outbox || outbox[id].status != Publishing || outbox[id].claimToken != Some(token) {
        return false;
      }
      outbox := outbox[id := outbox[id].(claimToken := None, claimedAt := None, status := Published, publishedAt := Some(at))];
      return true;
    }

    method MarkOutboxFailure(id: Uuid, token: Token, at: int, availableAt: int, errorCode: string, isolate: bool) returns (marked: bool)
      modifies this`outbox
      ensures marked <==> HoldsClaim(old(View()), id, token)
      ensures View() == MarkFailure(old(View()), id, token, at, availableAt, errorCode, isolate)
    {
      if id !in outbox || outbox[id].status != Publishing || outbox[id].claimToken != Some(token) {
        return false;
      }
      var row := outbox[id].(claimToken := None, claimedAt := None, isolatedAt := None);
      row := row.(status := if isolate then Isolated else Pending, availableAt := availableAt, lastErrorCode := Some(errorCode));
      if isolate {
        row := row.(isolatedAt := Some(at));
      }
      outbox := outbox[id := row];
      return true;
    }

    method ReplayOutboxRow(id: Uuid, at: int) returns (replayed: bool)
      modifies this`outbox
      ensures replayed <==> Replayable(old(View()), id)
      ensures View() == ReplayOutbox(old(View()), id, at)
    {
      if id !in outbox || outbox[id].status != Isolated {
        return false;
      }
      var row := outbox[id].(isolatedAt := None, lastErrorCode := None);
      outbox := outbox[id := row.(status := Pending, attemptCount := 0, availableAt := at)];
      return true;
    }

    method FindJobByIdempotencyKey(key: string) returns (found: Option<JobRecord>)
      ensures found.Some? <==> KeyTaken(View(), key)
      ensures found.Some? ==> found.value in jobs.Values && found.value.envelope.Job? && found.value.envelope.idempotencyKey == key
    {
      if id :| id in jobs && jobs[id].envelope.Job? && jobs[id].envelope.idempotencyKey == key {
        return Some(jobs[id]);
      }
      return None;
    }

    method CreateJobRow(e: Envelope) returns (accepted: bool)
      requires e.Job?
      modifies this`jobs
      ensures accepted <==> !JobConflict(old(View()), e)
      ensures View() == CreateJob(old(View()), e)
    {
      var taken := FindJobByIdempotencyKey(e.idempotencyKey);
      if e.messageId in jobs || taken.Some? {
        return false;
      }
      jobs := jobs[e.messageId := NewJob(e)];
      return true;
    }

    method ClaimJob(id: Uuid) returns (claimed: bool)
      modifies this`jobs
      ensures claimed <==> HasJob(old(View()), id, Queued)
      ensures View() == SetJob(old(View()), id, Queued, Processing)
    {
      if id !in jobs || jobs[id].status != Queued {
        return false;
      }
      jobs := jobs[id := jobs[id].(status := Processing)];
      return true;
    }

    method CompleteJob(id: Uuid) returns (completed: bool)
      modifies this`jobs
      ensures completed <==> HasJob(old(View()), id, Processing)
      ensures View() == SetJob(old(View()), id, Processing, Completed)
    {
      if id !in jobs || jobs[id].status != Processing {
        return false;
      }
      jobs := jobs[id := jobs[id].(status := Completed)];
      return true;
    }

    method IsolateJob(id: Uuid) returns (isolated: bool)
      modifies this`jobs
      ensures isolated <==> HasJob(old(View()), id, Processing)
      ensures View() == SetJob(old(View()), id, Processing, IsolatedJob)
    {
      if id !in jobs || jobs[id].status != Processing {
        return false;
      }
      jobs := jobs[id := jobs[id].(status := IsolatedJob)];
      return true;
    }

    method CancelJobRow(id: Uuid, reason: string) returns (row: Option<JobRecord>)
      modifies this`jobs
      ensures View() == CancelJob(old(View()), id, reason)
      ensures row == if id in jobs then Some(jobs[id]) else None
    {
      if id !in jobs {
        return None;
      }
      if jobs[id].status != Queued {
        return Some(jobs[id]);
      }
      jobs := jobs[id := jobs[id].(status := Cancelled, cancelReason := Some(reason))];
      return Some(jobs[id]);
    }

    method CreateInboxReceipt(key: ReceiptKey, digest: Digest) returns (accepted: bool)
      modifies this`inbox
      ensures accepted <==> key !in old(inbox)
      ensures View() == AddReceipt(old(View()), key, digest)
    {
      if key in inbox {
        return false;
      }
      inbox := inbox[key := digest];
      return true;
    }

    method CreateIsolation(key: IsolationKey, record: Isolation)
      modifies this`isolations
      ensures View() == AddIsolation(old(View()), key, record)
    {
      if key !in isolations {
        isolations := isolations[key := record];
      }
    }

    method RecordEffect(effect: Effect)
      modifies this`effects
      ensures View() == AddEffect(old(View()), effect)
    {
      effects := effects + [effect];
    }
  }
}
