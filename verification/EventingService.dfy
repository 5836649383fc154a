// The eventing core: appending events, submitting and cancelling jobs, and
// consuming one delivery, as ordered writes to the store with roll-back.
module EventingService {
  import opened Prelude
  import opened EventingModel
  import opened EventingStore

  datatype SubmitResult = Submitted(jobId: Uuid, status: JobStatus) | Conflict

  // Rows are filed under their own id, hold the digest of their envelope, and
  // no two share an idempotency key.
  ghost predicate JobsFiled(jobs: map<Uuid, JobRecord>) {
    && (forall id :: id in jobs ==>
          (jobs[id].envelope.Job? && jobs[id].envelope.messageId == id && jobs[id].fingerprint == Sha256(jobs[id].envelope)))
    && (forall i, j :: i in jobs && j in jobs && i != j ==>
          jobs[i].envelope.idempotencyKey != jobs[j].envelope.idempotencyKey)
  }

  // What other clients may have done in the meantime: jobs and outbox rows are
  // added and change status, but are never removed or rewritten.
  ghost predicate Grows(s: Store, t: Store) {
    && (forall id :: id in s.jobs ==> id in t.jobs && t.jobs[id].envelope == s.jobs[id].envelope)
    && (forall id :: id in s.outbox ==> id in t.outbox && t.outbox[id].envelope == s.outbox[id].envelope)
  }

  lemma {:induction false} ClaimThenSettle(s: Store, id: Uuid, to: JobStatus)
    ensures SetJob(SetJob(s, id, Queued, Processing), id, Processing, to) == if HasJob(s, id, Queued) then SetJob(s, id, Queued, to) else SetJob(s, id, Processing, to)
  {
    if HasJob(s, id, Queued) {
      assert s.jobs[id := s.jobs[id].(status := Processing)][id := s.jobs[id].(status := to)] == s.jobs[id := s.jobs[id].(status := to)];
    }
  }

  class EventingCore {
    const store: InMemoryEventingStore

    constructor (store: InMemoryEventingStore)
      ensures this.store == store
    {
      this.store := store;
    }

    method AppendEvent(e: Envelope) returns (pending: bool)
      modifies store
      ensures store.View() == AppendRow(old(store.View()), NewRow(e))
      ensures pending <==> e.messageId !in old(store.outbox) || Sha256(old(store.outbox)[e.messageId].envelope) == Sha256(e)
    {
      var accepted := store.AppendOutbox(NewRow(e));
      if !accepted {
        return Sha256(store.outbox[e.messageId].envelope) == Sha256(e);
      }
      return true;
    }

    // Stands for every await: other clients' transactions commit here.
    method OtherClients()
      requires JobsFiled(store.jobs)
      modifies store
      ensures JobsFiled(store.jobs) && Grows(old(store.View()), store.View())
    {
    }

    // `seen` is the store as this call's transaction found it.
    method SubmitJob(e: Envelope) returns (r: SubmitResult, ghost seen: Store)
      requires e.Job? && JobsFiled(store.jobs)
      modifies store
      ensures JobsFiled(store.jobs)
      ensures Grows(old(store.View()), seen) && Grows(SubmitTransaction(seen, e), store.View())
      ensures r == if e.messageId in store.jobs && store.jobs[e.messageId].envelope == e
        then Submitted(e.messageId, store.jobs[e.messageId].status) else Conflict
    {
      var prior := store.FindJobByIdempotencyKey(e.idempotencyKey);
      if prior.Some? {
        seen := store.View();
        if prior.value.fingerprint != Sha256(e) {
          return Conflict, seen;
        }
        return Submitted(prior.value.envelope.messageId, prior.value.status), seen;
      }
      OtherClients();
      seen := store.View();
      var before := store.View();
      var created := store.CreateJobRow(e);
      var appended := false;
      if created {
        appended := store.AppendOutbox(NewRow(e));
      }
      if !appended {
        store.Restore(before);
        OtherClients();
        var raced := store.FindJobByIdempotencyKey(e.idempotencyKey);
        if raced.Some? && raced.value.fingerprint == Sha256(e) {
          return Submitted(raced.value.envelope.messageId, raced.value.status), seen;
        }
        return Conflict, seen;
      }
      return Submitted(e.messageId, Queued), seen;
    }

    method CancelJob(jobId: Uuid, reason: string) returns (status: Option<JobStatus>)
      modifies store
      ensures store.View() == EventingModel.CancelJob(old(store.View()), jobId, reason)
      ensures status == if jobId in store.jobs then Some(store.jobs[jobId].status) else None
    {
      var row := store.CancelJobRow(jobId, reason);
      return if row.None? then None else Some(row.value.status);
    }

    method IsolateDelivery(d: Delivery, reason: IsolationReason) returns (r: ConsumeResult)
      modifies store
      ensures store.View() == Isolate(old(store.View()), d, reason)
      ensures r == IsolateResult(reason)
    {
      store.CreateIsolation(IsolationKey(d.envelope.messageId, d.consumer, d.Fingerprint(), reason), Isolation(d.isolationId, d.attempt));
      return if reason == AuthoritativeStateRejected then Skipped(StateRejected) else SetAside(reason);
    }

    method Receipt(d: Delivery)
      requires d.Key() !in store.inbox
      modifies store
      ensures store.View() == AddReceipt(old(store.View()), d.Key(), d.Fingerprint())
    {
      var accepted := store.CreateInboxReceipt(d.Key(), d.Fingerprint());
    }

    // The handler's run on a job this transaction has just claimed.
    method RunClaimedJob(d: Delivery, h: Handler, run: HandlerRun) returns (r: ConsumeResult)
      requires d.Key() !in store.inbox && HasJob(store.View(), d.envelope.messageId, Processing)
      modifies store
      ensures var s, id := old(store.View()), d.envelope.messageId;
        if !h.rechecks || run.recheck == Rejects then
          && r == Skipped(StateRejected)
          && store.View() == AddReceipt(Isolate(SetJob(s, id, Processing, IsolatedJob), d, AuthoritativeStateRejected), d.Key(), d.Fingerprint())
        else if run.recheck == RecheckThrows || !run.succeeds then r == Thrown("handler_failed")
        else
          && r == Handled
          && store.View() == AddReceipt(AddEffect(SetJob(s, id, Processing, Completed), Effect(d.envelope, d.consumer)), d.Key(), d.Fingerprint())
    {
      var id := d.envelope.messageId;
      if h.rechecks && run.recheck == RecheckThrows {
        return Thrown("handler_failed");
      }
      var allowed := h.rechecks && run.recheck == Allows;
      if allowed {
        if !run.succeeds {
          return Thrown("handler_failed");
        }
        store.RecordEffect(Effect(d.envelope, d.consumer));
      } else {
        var isolatedJob := store.IsolateJob(id);
        r := IsolateDelivery(d, AuthoritativeStateRejected);
        Receipt(d);
        return;
      }
      var completed := store.CompleteJob(id);
      Receipt(d);
      return Handled;
    }

    // The job branch of the transaction body, up to the point of throwing.
    method ConsumeJob(d: Delivery, h: Handler, run: HandlerRun) returns (r: ConsumeResult)
      requires d.Key() !in store.inbox
      modifies store
      ensures r == JobTransaction(old(store.View()), d, h, run).1
      ensures !r.Thrown? ==> store.View() == JobTransaction(old(store.View()), d, h, run).0
    {
      var id := d.envelope.messageId;
      if id !in store.jobs || store.jobs[id].fingerprint != d.Fingerprint() {
        r := IsolateDelivery(d, PayloadConflict);
        return;
      }
      ClaimThenSettle(store.View(), id, Completed);
      ClaimThenSettle(store.View(), id, IsolatedJob);
      var claimed := store.ClaimJob(id);
      if claimed {
        r := RunClaimedJob(d, h, run);
        return;
      }
      var current := store.jobs[id].status;
      if current == Cancelled || current == Completed {
        Receipt(d);
        return Skipped(JobCancelled);
      }
      if current == IsolatedJob {
        Receipt(d);
        return Skipped(StateRejected);
      }
      return Thrown("eventing_conflict");
    }

    method ConsumeInTransaction(d: Delivery, h: Handler, run: HandlerRun) returns (r: ConsumeResult)
      modifies store
      ensures store.View() == InboxTransaction(old(store.View()), d, h, run).0
      ensures r == InboxTransaction(old(store.View()), d, h, run).1
    {
      var before := store.View();
      if d.Key() in store.inbox {
        if store.inbox[d.Key()] == d.Fingerprint() {
          return Duplicate;
        }
        r := IsolateDelivery(d, PayloadConflict);
        return;
      }
      if h.kind == JobKind {
        r := ConsumeJob(d, h, run);
      } else if !run.succeeds {
        r := Thrown("handler_failed");
      } else {
        store.RecordEffect(Effect(d.envelope, d.consumer));
        Receipt(d);
        r := Handled;
      }
      if r.Thrown? {
        store.Restore(before);
      }
    }

    method Consume(d: Delivery, h: Handler, run: HandlerRun) returns (r: ConsumeResult)
      modifies store
      ensures store.View() == EventingModel.Consume(old(store.View()), d, h, run).0
      ensures r == EventingModel.Consume(old(store.View()), d, h, run).1
    {
      if !Matches(h, d.envelope) {
        r := IsolateDelivery(d, UnsupportedMessage);
        return;
      }
      if d.Key() in store.inbox {
        if store.inbox[d.Key()] == d.Fingerprint() {
          return Duplicate;
        }
        r := IsolateDelivery(d, PayloadConflict);
        return;
      }
      r := ConsumeInTransaction(d, h, run);
    }
  }
}
