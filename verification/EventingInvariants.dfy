// What every committed state of the eventing database satisfies, and why each
// operation keeps it.
module EventingInvariants {
  import opened Prelude
  import opened EventingModel
  import opened EventingStore
  import opened EventingService

  // ------------------------------------------------------------------ outbox

  // The shape of one row, for publishers that give up after `maxAttempts`.
  ghost predicate RowShape(row: OutboxRow, maxAttempts: nat) {
    && (row.status == Publishing <==> row.claimToken.Some?)
    && (row.status == Publishing <==> row.claimedAt.Some?)
    && (row.status == Published <==> row.publishedAt.Some?)
    && (row.status == Isolated <==> row.isolatedAt.Some?)
    && (row.status == Pending ==> row.attemptCount < maxAttempts)
    && (row.status == Publishing ==> row.attemptCount >= 1)
    && (row.status == Published ==> row.attemptCount >= 1)
    && (row.status == Isolated ==> row.attemptCount >= maxAttempts)
  }

  ghost predicate OutboxShape(outbox: map<Uuid, OutboxRow>, order: seq<Uuid>, maxAttempts: nat) {
    && Ordered(outbox, order)
    && (forall id :: id in outbox ==> RowShape(outbox[id], maxAttempts))
  }

  // -------------------------------------------------------------------- jobs

  ghost predicate JobsBacked(jobs: map<Uuid, JobRecord>, outbox: map<Uuid, OutboxRow>) {
    && JobsFiled(jobs)
    && (forall id :: id in jobs ==> jobs[id].status != Processing)
    && (forall id :: id in jobs ==> id in outbox && outbox[id].envelope == jobs[id].envelope)
  }

  // ----------------------------------------------------------------- effects

  function EffectKey(f: Effect): ReceiptKey { ReceiptKey(f.envelope.messageId, f.consumer) }

  // Every effect left the receipt of its own payload.
  ghost predicate EffectsReceipted(effects: seq<Effect>, inbox: map<ReceiptKey, Digest>) {
    forall i :: 0 <= i < |effects| ==>
      EffectKey(effects[i]) in inbox && inbox[EffectKey(effects[i])] == Sha256(effects[i].envelope)
  }

  ghost predicate OncePerConsumer(effects: seq<Effect>) {
    forall i, j :: 0 <= i < j < |effects| ==> EffectKey(effects[i]) != EffectKey(effects[j])
  }

  ghost predicate JobEffectsCompleted(effects: seq<Effect>, jobs: map<Uuid, JobRecord>) {
    forall i :: 0 <= i < |effects| && effects[i].envelope.Job? ==>
      var id := effects[i].envelope.messageId;
      id in jobs && jobs[id].envelope == effects[i].envelope && jobs[id].status == Completed
  }

  ghost predicate OncePerJob(effects: seq<Effect>) {
    forall i, j :: 0 <= i < j < |effects| && effects[i].envelope.Job? ==> effects[i].envelope != effects[j].envelope
  }

  ghost predicate HasEffect(effects: seq<Effect>, e: Envelope) {
    exists i :: 0 <= i < |effects| && effects[i].envelope == e
  }

  ghost predicate CompletedJobsHaveEffect(effects: seq<Effect>, jobs: map<Uuid, JobRecord>) {
    forall id :: id in jobs && jobs[id].status == Completed ==> HasEffect(effects, jobs[id].envelope)
  }

  // A receipt holds the digest of a message of its own id; an event's receipt
  // comes with that event's effect.
  ghost predicate ReceiptsEarned(inbox: map<ReceiptKey, Digest>, effects: seq<Effect>) {
    forall k :: k in inbox ==>
      && inbox[k].envelope.messageId == k.messageId
      && (inbox[k].envelope.Event? ==> Effect(inbox[k].envelope, k.consumer) in effects)
  }

  ghost predicate EffectsSound(effects: seq<Effect>, inbox: map<ReceiptKey, Digest>, jobs: map<Uuid, JobRecord>) {
    && EffectsReceipted(effects, inbox)
    && OncePerConsumer(effects)
    && JobEffectsCompleted(effects, jobs)
    && OncePerJob(effects)
    && CompletedJobsHaveEffect(effects, jobs)
    && ReceiptsEarned(inbox, effects)
  }

  ghost predicate DbSound(s: Store, maxAttempts: nat) {
    && OutboxShape(s.outbox, s.order, maxAttempts)
    && JobsBacked(s.jobs, s.outbox)
    && EffectsSound(s.effects, s.inbox, s.jobs)
  }

  // -------------------------------------------------------------- monotonicity

  predicate FinalJob(status: JobStatus) {
    status == Cancelled || status == Completed || status == IsolatedJob
  }

  // Facts no operation takes back.
  ghost predicate Advances(s: Store, t: Store) {
    && Grows(s, t)
    && (forall id :: id in s.outbox && s.outbox[id].status == Published ==> t.outbox[id] == s.outbox[id])
    && (forall id :: id in s.jobs && FinalJob(s.jobs[id].status) ==> t.jobs[id] == s.jobs[id])
    && (forall k :: k in s.inbox ==> k in t.inbox && t.inbox[k] == s.inbox[k])
    && (forall k :: k in s.isolations ==> k in t.isolations && t.isolations[k] == s.isolations[k])
    && s.effects <= t.effects
  }

  lemma {:induction false} AdvancesReflexive(s: Store)
    ensures Advances(s, s)
  {
  }

  lemma {:induction false} AdvancesTransitive(a: Store, b: Store, c: Store)
    requires Advances(a, b) && Advances(b, c)
    ensures Advances(a, c)
  {
  }

  // --------------------------------------------------------- outbox operations

  lemma {:induction false} AppendOrdered(s: Store, row: OutboxRow)
    requires Ordered(s.outbox, s.order)
    ensures Ordered(AppendRow(s, row).outbox, AppendRow(s, row).order)
  {
    var t := AppendRow(s, row);
    if row.envelope.messageId !in s.outbox {
      var n := |s.order|;
      assert forall i :: 0 <= i < n ==> s.order[i] in s.order;
      forall i, j | 0 <= i < j < |t.order| ensures t.order[i] != t.order[j] {
        assert t.order[i] == s.order[i] && s.order[i] in s.order;
      }
      forall id ensures id in t.order <==> id in t.outbox {
        assert t.order[n] == row.envelope.messageId;
        assert id in t.order <==> id in s.order || id == row.envelope.messageId;
      }
    }
  }

  lemma {:induction false} AppendKeepsOutbox(s: Store, e: Envelope, maxAttempts: nat)
    requires OutboxShape(s.outbox, s.order, maxAttempts) && JobsBacked(s.jobs, s.outbox) && maxAttempts >= 1
    ensures var t := AppendRow(s, NewRow(e)); OutboxShape(t.outbox, t.order, maxAttempts) && JobsBacked(t.jobs, t.outbox)
  {
    AppendOrdered(s, NewRow(e));
  }

  lemma {:induction false} AppendAdvances(s: Store, e: Envelope)
    ensures var t := AppendRow(s, NewRow(e));
      Advances(s, t) && t.effects == s.effects && t.inbox == s.inbox && t.jobs == s.jobs
  {
  }

  lemma {:induction false} AppendKeeps(s: Store, e: Envelope, maxAttempts: nat)
    requires DbSound(s, maxAttempts) && maxAttempts >= 1
    ensures DbSound(AppendRow(s, NewRow(e)), maxAttempts)
    ensures Advances(s, AppendRow(s, NewRow(e)))
  {
    hide OutboxShape, JobsBacked, EffectsSound, Advances, AppendRow;
    AppendKeepsOutbox(s, e, maxAttempts);
    AppendAdvances(s, e);
  }

  lemma {:induction false} NewJobFiled(s: Store, e: Envelope)
    requires JobsFiled(s.jobs) && e.Job? && !JobConflict(s, e)
    ensures JobsFiled(s.jobs[e.messageId := NewJob(e)])
  {
  }

  lemma {:induction false} NewJobKeepsEffects(s: Store, e: Envelope)
    requires EffectsSound(s.effects, s.inbox, s.jobs) && e.Job? && e.messageId !in s.jobs
    ensures EffectsSound(s.effects, s.inbox, s.jobs[e.messageId := NewJob(e)])
  {
    var jobs := s.jobs[e.messageId := NewJob(e)];
    assert JobEffectsCompleted(s.effects, jobs);
    assert CompletedJobsHaveEffect(s.effects, jobs);
  }

  lemma {:induction false} SubmitFilesJob(s: Store, e: Envelope, maxAttempts: nat)
    requires JobsBacked(s.jobs, s.outbox) && JobsBacked(s.jobs, AppendRow(s, NewRow(e)).outbox)
    requires e.Job? && !JobConflict(s, e) && e.messageId !in s.outbox
    ensures JobsBacked(SubmitTransaction(s, e).jobs, SubmitTransaction(s, e).outbox)
  {
    NewJobFiled(s, e);
    var t := SubmitTransaction(s, e);
    assert t == AppendRow(s, NewRow(e)).(jobs := s.jobs[e.messageId := NewJob(e)]);
  }

  lemma {:induction false} SubmitAdvances(s: Store, e: Envelope)
    requires JobsBacked(s.jobs, s.outbox) && e.Job? && !JobConflict(s, e) && e.messageId !in s.outbox
    ensures var a, t := AppendRow(s, NewRow(e)), SubmitTransaction(s, e);
      && Advances(s, t) && t.effects == s.effects && t.inbox == s.inbox && t.outbox == a.outbox && t.order == a.order
      && t.jobs == s.jobs[e.messageId := NewJob(e)] && e.messageId !in s.jobs
  {
  }

  lemma {:induction false} SubmitKeeps(s: Store, e: Envelope, maxAttempts: nat)
    requires DbSound(s, maxAttempts) && maxAttempts >= 1 && e.Job?
    ensures DbSound(SubmitTransaction(s, e), maxAttempts)
    ensures Advances(s, SubmitTransaction(s, e))
  {
    if !JobConflict(s, e) && e.messageId !in s.outbox {
      hide OutboxShape, JobsBacked, EffectsSound, Advances, AppendRow, SubmitTransaction, JobConflict;
      SubmitAdvances(s, e);
      NewJobKeepsEffects(s, e);
      AppendKeeps(s, e, maxAttempts);
      AppendAdvances(s, e);
      SubmitFilesJob(s, e, maxAttempts);
    }
  }

  // Any change of one row that keeps its envelope and shape, and no published row.
  lemma {:induction false} RowUpdateKeeps(s: Store, id: Uuid, row: OutboxRow, maxAttempts: nat)
    requires DbSound(s, maxAttempts) && id in s.outbox
    requires row.envelope == s.outbox[id].envelope && RowShape(row, maxAttempts)
    requires s.outbox[id].status != Published
    ensures DbSound(s.(outbox := s.outbox[id := row]), maxAttempts)
    ensures Advances(s, s.(outbox := s.outbox[id := row]))
  {
  }

  lemma {:induction false} ClaimKeeps(s: Store, id: Uuid, token: Token, at: int, staleBefore: int, maxAttempts: nat)
    requires DbSound(s, maxAttempts) && id in s.outbox && Claimable(s.outbox[id], at, staleBefore)
    ensures DbSound(ClaimOne(s, id, token, at), maxAttempts)
    ensures Advances(s, ClaimOne(s, id, token, at))
  {
    RowUpdateKeeps(s, id, ClaimedRow(s.outbox[id], token, at), maxAttempts);
  }

  lemma {:induction false} MarkPublishedKeeps(s: Store, id: Uuid, token: Token, at: int, maxAttempts: nat)
    requires DbSound(s, maxAttempts)
    ensures DbSound(MarkPublished(s, id, token, at), maxAttempts)
    ensures Advances(s, MarkPublished(s, id, token, at))
  {
    if HoldsClaim(s, id, token) {
      RowUpdateKeeps(s, id, MarkPublished(s, id, token, at).outbox[id], maxAttempts);
    }
  }

  // The publisher isolates exactly when the attempts of the claimed row are spent.
  lemma {:induction false} MarkFailureKeeps(s: Store, id: Uuid, token: Token, at: int, availableAt: int, errorCode: string, isolate: bool, maxAttempts: nat)
    requires DbSound(s, maxAttempts)
    requires HoldsClaim(s, id, token) ==> (isolate <==> s.outbox[id].attemptCount >= maxAttempts)
    ensures DbSound(MarkFailure(s, id, token, at, availableAt, errorCode, isolate), maxAttempts)
    ensures Advances(s, MarkFailure(s, id, token, at, availableAt, errorCode, isolate))
  {
    if HoldsClaim(s, id, token) {
      RowUpdateKeeps(s, id, MarkFailure(s, id, token, at, availableAt, errorCode, isolate).outbox[id], maxAttempts);
    }
  }

  lemma {:induction false} ReplayKeeps(s: Store, id: Uuid, at: int, maxAttempts: nat)
    requires DbSound(s, maxAttempts) && maxAttempts >= 1
    ensures DbSound(ReplayOutbox(s, id, at), maxAttempts)
    ensures Advances(s, ReplayOutbox(s, id, at))
  {
    if Replayable(s, id) {
      RowUpdateKeeps(s, id, ReplayOutbox(s, id, at).outbox[id], maxAttempts);
    }
  }

  // ------------------------------------------------------------ job operations

  lemma {:induction false} JobStatusKeepsFiling(jobs: map<Uuid, JobRecord>, outbox: map<Uuid, OutboxRow>, id: Uuid, job: JobRecord)
    requires JobsBacked(jobs, outbox) && id in jobs
    requires job.envelope == jobs[id].envelope && job.fingerprint == jobs[id].fingerprint && job.status != Processing
    ensures JobsBacked(jobs[id := job], outbox)
  {
    var t := jobs[id := job];
    assert forall i :: i in t ==> i in jobs && t[i].envelope == jobs[i].envelope && t[i].fingerprint == jobs[i].fingerprint;
  }

  // A queued job has no effect yet, so it may leave the queue without one.
  lemma {:induction false} QueuedJobHasNoEffect(effects: seq<Effect>, jobs: map<Uuid, JobRecord>, id: Uuid, job: JobRecord)
    requires JobEffectsCompleted(effects, jobs) && CompletedJobsHaveEffect(effects, jobs)
    requires id in jobs && jobs[id].status == Queued && job.status != Completed
    ensures JobEffectsCompleted(effects, jobs[id := job]) && CompletedJobsHaveEffect(effects, jobs[id := job])
  {
  }

  lemma {:induction false} QueuedJobUpdateKeeps(s: Store, id: Uuid, job: JobRecord, maxAttempts: nat)
    requires DbSound(s, maxAttempts) && HasJob(s, id, Queued)
    requires job.envelope == s.jobs[id].envelope && job.fingerprint == s.jobs[id].fingerprint
    requires job.status == Cancelled || job.status == IsolatedJob
    ensures DbSound(s.(jobs := s.jobs[id := job]), maxAttempts)
    ensures Advances(s, s.(jobs := s.jobs[id := job]))
  {
    JobStatusKeepsFiling(s.jobs, s.outbox, id, job);
    QueuedJobHasNoEffect(s.effects, s.jobs, id, job);
    JobUpdateAdvances(s, id, job);
  }

  lemma {:induction false} JobUpdateAdvances(s: Store, id: Uuid, job: JobRecord)
    requires id in s.jobs && !FinalJob(s.jobs[id].status) && job.envelope == s.jobs[id].envelope
    ensures Advances(s, s.(jobs := s.jobs[id := job]))
  {
  }

  lemma {:induction false} CancelKeeps(s: Store, id: Uuid, reason: string, maxAttempts: nat)
    requires DbSound(s, maxAttempts)
    ensures DbSound(EventingModel.CancelJob(s, id, reason), maxAttempts)
    ensures Advances(s, EventingModel.CancelJob(s, id, reason))
  {
    if HasJob(s, id, Queued) {
      QueuedJobUpdateKeeps(s, id, s.jobs[id].(status := Cancelled, cancelReason := Some(reason)), maxAttempts);
    }
  }

  // -------------------------------------------------------------- consumption

  lemma {:induction false} IsolateKeeps(s: Store, d: Delivery, reason: IsolationReason, maxAttempts: nat)
    requires DbSound(s, maxAttempts)
    ensures DbSound(Isolate(s, d, reason), maxAttempts)
    ensures Advances(s, Isolate(s, d, reason))
  {
  }

  // A receipt without an effect, as left by a job somebody else settled.
  lemma {:induction false} JobReceiptKeeps(s: Store, d: Delivery, maxAttempts: nat)
    requires DbSound(s, maxAttempts) && d.envelope.Job?
    ensures DbSound(AddReceipt(s, d.Key(), d.Fingerprint()), maxAttempts)
    ensures Advances(s, AddReceipt(s, d.Key(), d.Fingerprint()))
  {
    hide OncePerConsumer, OncePerJob, JobEffectsCompleted, CompletedJobsHaveEffect, JobsFiled, OutboxShape;
  }

  lemma {:induction false} IsolateJobKeeps(s: Store, id: Uuid, maxAttempts: nat)
    requires DbSound(s, maxAttempts)
    ensures DbSound(SetJob(s, id, Queued, IsolatedJob), maxAttempts)
    ensures Advances(s, SetJob(s, id, Queued, IsolatedJob))
  {
    if HasJob(s, id, Queued) {
      QueuedJobUpdateKeeps(s, id, s.jobs[id].(status := IsolatedJob), maxAttempts);
    }
  }

  // The committed result of handling a message for the first time.
  function Settle(s: Store, d: Delivery): Store {
    AddReceipt(AddEffect(s, Effect(d.envelope, d.consumer)), d.Key(), d.Fingerprint())
  }

  lemma {:induction false} NewEffectIsFirst(s: Store, d: Delivery)
    requires EffectsReceipted(s.effects, s.inbox) && OncePerConsumer(s.effects) && d.Key() !in s.inbox
    ensures EffectsReceipted(Settle(s, d).effects, Settle(s, d).inbox) && OncePerConsumer(Settle(s, d).effects)
  {
    var t := Settle(s, d);
    forall i, j | 0 <= i < j < |t.effects| ensures EffectKey(t.effects[i]) != EffectKey(t.effects[j]) {
      assert t.effects[i] == s.effects[i];
      assert EffectKey(s.effects[i]) in s.inbox;
    }
  }

  lemma {:induction false} EffectsGrow(s: Store, d: Delivery, jobs: map<Uuid, JobRecord>)
    requires CompletedJobsHaveEffect(s.effects, jobs)
    ensures CompletedJobsHaveEffect(Settle(s, d).effects, jobs)
    ensures HasEffect(Settle(s, d).effects, d.envelope)
  {
    var t := Settle(s, d);
    assert t.effects[|s.effects|].envelope == d.envelope;
    forall id | id in jobs && jobs[id].status == Completed ensures HasEffect(t.effects, jobs[id].envelope) {
      var i :| 0 <= i < |s.effects| && s.effects[i].envelope == jobs[id].envelope;
      assert t.effects[i].envelope == jobs[id].envelope;
    }
  }

  lemma {:induction false} NewReceiptIsEarned(s: Store, d: Delivery)
    requires ReceiptsEarned(s.inbox, s.effects) && d.Key() !in s.inbox
    ensures ReceiptsEarned(Settle(s, d).inbox, Settle(s, d).effects)
  {
    var t := Settle(s, d);
    assert t.effects[|s.effects|] == Effect(d.envelope, d.consumer);
    assert forall f :: f in s.effects ==> f in t.effects;
  }

  lemma {:induction false} SettleAdvances(s: Store, d: Delivery)
    requires d.Key() !in s.inbox
    ensures Advances(s, Settle(s, d))
  {
  }

  lemma {:induction false} HandleEventKeeps(s: Store, d: Delivery, maxAttempts: nat)
    requires DbSound(s, maxAttempts) && d.envelope.Event? && d.Key() !in s.inbox
    ensures DbSound(Settle(s, d), maxAttempts)
    ensures Advances(s, Settle(s, d))
  {
    hide Advances, OutboxShape, JobsBacked, CompletedJobsHaveEffect, ReceiptsEarned;
    SettleAdvances(s, d);
    NewEffectIsFirst(s, d);
    EffectsGrow(s, d, s.jobs);
    NewReceiptIsEarned(s, d);
  }

  lemma {:induction false} NewJobEffectIsFirst(s: Store, d: Delivery)
    requires JobEffectsCompleted(s.effects, s.jobs) && OncePerJob(s.effects)
    requires HasJob(s, d.envelope.messageId, Queued)
    ensures OncePerJob(Settle(s, d).effects)
  {
    var t := Settle(s, d);
    forall i, j | 0 <= i < j < |t.effects| && t.effects[i].envelope.Job? ensures t.effects[i].envelope != t.effects[j].envelope {
      assert t.effects[i] == s.effects[i];
      if j < |s.effects| {
        assert t.effects[j] == s.effects[j];
      } else {
        assert s.jobs[s.effects[i].envelope.messageId].status == Completed;
      }
    }
  }

  lemma {:induction false} CompletingKeepsOthers(s: Store, d: Delivery)
    requires JobEffectsCompleted(s.effects, s.jobs) && CompletedJobsHaveEffect(s.effects, s.jobs)
    requires HasJob(s, d.envelope.messageId, Queued) && s.jobs[d.envelope.messageId].envelope == d.envelope
    ensures var q := SetJob(s, d.envelope.messageId, Queued, Completed);
      && JobEffectsCompleted(Settle(s, d).effects, q.jobs)
      && CompletedJobsHaveEffect(Settle(s, d).effects, q.jobs)
  {
    EffectsGrow(s, d, s.jobs);
    var q := SetJob(s, d.envelope.messageId, Queued, Completed);
    var t := Settle(s, d);
    forall i | 0 <= i < |t.effects| && t.effects[i].envelope.Job?
      ensures var id := t.effects[i].envelope.messageId;
        id in q.jobs && q.jobs[id].envelope == t.effects[i].envelope && q.jobs[id].status == Completed
    {
      if i < |s.effects| {
        assert t.effects[i] == s.effects[i];
      }
    }
  }

  // The committed result of handling a queued job.
  function HandleJob(s: Store, d: Delivery): Store {
    Settle(SetJob(s, d.envelope.messageId, Queued, Completed), d)
  }

  lemma {:induction false} HandleJobKeepsEffects(s: Store, d: Delivery)
    requires EffectsSound(s.effects, s.inbox, s.jobs) && d.Key() !in s.inbox
    requires HasJob(s, d.envelope.messageId, Queued) && s.jobs[d.envelope.messageId].envelope == d.envelope
    ensures EffectsSound(HandleJob(s, d).effects, HandleJob(s, d).inbox, HandleJob(s, d).jobs)
  {
    NewEffectIsFirst(s, d);
    NewReceiptIsEarned(s, d);
    NewJobEffectIsFirst(s, d);
    CompletingKeepsOthers(s, d);
    assert HandleJob(s, d).effects == Settle(s, d).effects && HandleJob(s, d).inbox == Settle(s, d).inbox;
  }

  lemma {:induction false} HandleJobEffect(s: Store, d: Delivery)
    requires HasJob(s, d.envelope.messageId, Queued)
    ensures var t := HandleJob(s, d); var id := d.envelope.messageId;
      && t.outbox == s.outbox && t.order == s.order && t.jobs == s.jobs[id := s.jobs[id].(status := Completed)]
  {
  }

  lemma {:induction false} HandleJobAdvances(s: Store, d: Delivery)
    requires HasJob(s, d.envelope.messageId, Queued) && d.Key() !in s.inbox
    ensures Advances(s, HandleJob(s, d))
  {
  }

  lemma {:induction false} HandleJobKeeps(s: Store, d: Delivery, maxAttempts: nat)
    requires DbSound(s, maxAttempts) && d.Key() !in s.inbox
    requires HasJob(s, d.envelope.messageId, Queued) && s.jobs[d.envelope.messageId].fingerprint == d.Fingerprint()
    ensures DbSound(HandleJob(s, d), maxAttempts)
    ensures Advances(s, HandleJob(s, d))
  {
    var id := d.envelope.messageId;
    assert s.jobs[id].envelope == d.envelope;
    hide OutboxShape, EffectsSound, Advances, HandleJob;
    HandleJobEffect(s, d);
    HandleJobKeepsEffects(s, d);
    JobStatusKeepsFiling(s.jobs, s.outbox, id, s.jobs[id].(status := Completed));
    HandleJobAdvances(s, d);
  }

  lemma {:induction false} JobTransactionKeeps(s: Store, d: Delivery, h: Handler, run: HandlerRun, maxAttempts: nat)
    requires DbSound(s, maxAttempts) && d.envelope.Job? && d.Key() !in s.inbox
    ensures DbSound(JobTransaction(s, d, h, run).0, maxAttempts)
    ensures Advances(s, JobTransaction(s, d, h, run).0)
  {
    var id := d.envelope.messageId;
    if id !in s.jobs || s.jobs[id].fingerprint != d.Fingerprint() {
      IsolateKeeps(s, d, PayloadConflict, maxAttempts);
    } else if s.jobs[id].status == Queued {
      if !h.rechecks || run.recheck == Rejects {
        var a := SetJob(s, id, Queued, IsolatedJob);
        var b := Isolate(a, d, AuthoritativeStateRejected);
        IsolateJobKeeps(s, id, maxAttempts);
        IsolateKeeps(a, d, AuthoritativeStateRejected, maxAttempts);
        JobReceiptKeeps(b, d, maxAttempts);
        AdvancesTransitive(s, a, b);
        AdvancesTransitive(s, b, AddReceipt(b, d.Key(), d.Fingerprint()));
      } else {
        HandleJobKeeps(s, d, maxAttempts);
      }
    } else {
      JobReceiptKeeps(s, d, maxAttempts);
    }
  }

  lemma {:induction false} InboxTransactionKeeps(s: Store, d: Delivery, h: Handler, run: HandlerRun, maxAttempts: nat)
    requires DbSound(s, maxAttempts) && Matches(h, d.envelope)
    ensures DbSound(InboxTransaction(s, d, h, run).0, maxAttempts)
    ensures Advances(s, InboxTransaction(s, d, h, run).0)
  {
    if d.Key() in s.inbox {
      IsolateKeeps(s, d, PayloadConflict, maxAttempts);
    } else if h.kind == JobKind {
      JobTransactionKeeps(s, d, h, run, maxAttempts);
    } else {
      HandleEventKeeps(s, d, maxAttempts);
    }
  }

  // A delivery is on record when its receipt or an isolation of its payload exists.
  ghost predicate Recorded(s: Store, e: Envelope, consumer: string) {
    || (ReceiptKey(e.messageId, consumer) in s.inbox && s.inbox[ReceiptKey(e.messageId, consumer)] == Sha256(e))
    || (exists reason :: IsolationKey(e.messageId, consumer, Sha256(e), reason) in s.isolations)
  }

  lemma {:induction false} RecordedStays(s: Store, t: Store, e: Envelope, consumer: string)
    requires Advances(s, t) && Recorded(s, e, consumer)
    ensures Recorded(t, e, consumer)
  {
    if exists reason :: IsolationKey(e.messageId, consumer, Sha256(e), reason) in s.isolations {
      var reason :| IsolationKey(e.messageId, consumer, Sha256(e), reason) in s.isolations;
      assert IsolationKey(e.messageId, consumer, Sha256(e), reason) in t.isolations;
    }
  }

  lemma {:induction false} IsolateRecords(s: Store, d: Delivery, reason: IsolationReason)
    ensures Recorded(Isolate(s, d, reason), d.envelope, d.consumer)
  {
    assert IsolationKey(d.envelope.messageId, d.consumer, d.Fingerprint(), reason) in Isolate(s, d, reason).isolations;
  }

  lemma {:induction false} PrecheckRecords(s: Store, d: Delivery, h: Handler)
    requires Precheck(s, d, h).1.Some?
    ensures Recorded(Precheck(s, d, h).0, d.envelope, d.consumer)
  {
    IsolateRecords(s, d, UnsupportedMessage);
    IsolateRecords(s, d, PayloadConflict);
  }

  // A consume call that returns has put the delivery on record.
  lemma {:induction false} TransactionRecords(s: Store, d: Delivery, h: Handler, run: HandlerRun)
    requires !InboxTransaction(s, d, h, run).1.Thrown?
    ensures Recorded(InboxTransaction(s, d, h, run).0, d.envelope, d.consumer)
  {
    IsolateRecords(s, d, PayloadConflict);
  }

  lemma {:induction false} PrecheckPasses(s: Store, d: Delivery, h: Handler)
    ensures Precheck(s, d, h).1.None? ==> Precheck(s, d, h).0 == s
  {
  }

  // A handler that succeeds never leaves the transaction throwing.
  lemma {:induction false} NothingThrows(s: Store, d: Delivery, h: Handler, maxAttempts: nat)
    requires DbSound(s, maxAttempts)
    ensures !InboxTransaction(s, d, h, HandlerRun(Allows, true)).1.Thrown?
  {
  }
}
