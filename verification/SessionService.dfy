// The service calls on a browser session, each a sequence of store scripts.
// Every call is one way of taking the protocol's steps, so what is proved of all
// runs of the protocol holds of the calls, alone or interleaved.
module SessionService {
  import opened Prelude
  import opened SessionStore
  import opened SessionProtocol

  datatype RefreshOutcome = Refreshed(next: Index) | SessionInvalid | InProgress | DependencyUnavailable

  lemma {:induction false} OneMoreStep(s: System, steps: seq<Step>, step: Step)
    ensures Run(s, steps + [step]) == Apply(Run(s, steps), step)
  {
    assert (steps + [step])[..|steps + [step]| - 1] == steps;
  }

  lemma {:induction false} FirstStep(s: System, step: Step)
    ensures Run(s, [step]) == Apply(s, step)
  {
    assert [step] == [] + [step];
    OneMoreStep(s, [], step);
  }

  lemma {:induction false} LookingKeepsLeases(r: Redis, index: Index, nowMs: int)
    ensures Touch(r, index, nowMs).0.leases == r.leases
  {
  }

  // The session went from the old credential to the new one.
  predicate Handed(r: Redis, previous: Index, next: Index) {
    next in r.sessions && previous !in r.sessions && FamilyIs(r, r.sessions[next].id, next)
  }

  class BrowserSessionService {
    const store: RedisSessionStore

    constructor (store: RedisSessionStore)
      ensures this.store == store
    {
      this.store := store;
    }

    // `ghost` arguments say which run of the protocol the call continues: its
    // request number and lease owner are new, and so is the next credential.
    method Refresh(previous: Index, firstMs: int, owner: Owner, secondMs: int, exchangeSucceeds: bool, next: Index, tokens: nat, auditSucceeds: bool,
                   ghost s: System, ghost request: nat)
      returns (outcome: RefreshOutcome, ghost steps: seq<Step>)
      requires s.redis == store.View() && request !in s.refreshes && owner !in s.owners && next !in s.written
      modifies store
      ensures store.View() == Run(s, steps).redis && request !in Run(s, steps).refreshes
      ensures outcome.Refreshed? ==> outcome.next == next && Handed(store.View(), previous, next)
      ensures outcome.InProgress? ==> store.leases == old(store.leases)
    {
      hide Run, Touch, Delete, Rotate, CanRotate, ReleaseLease;
      var initial;
      outcome, initial, steps := LookAndLease(previous, firstMs, owner, s, request);
      if initial.None? {
        return;
      }
      outcome, steps := RefreshLeased(previous, initial.value, owner, secondMs, exchangeSucceeds, next, tokens, auditSucceeds, s, steps, request);
      OneMoreStep(s, steps, Release(request));
      steps := steps + [Release(request)];
      store.ReleaseRefreshLease(initial.value.id, owner);
    }

    // Looking the credential up and taking the lease; None ends the refresh.
    method LookAndLease(previous: Index, firstMs: int, owner: Owner, ghost s: System, ghost request: nat)
      returns (outcome: RefreshOutcome, initial: Option<SessionRecord>, ghost steps: seq<Step>)
      requires s.redis == store.View() && request !in s.refreshes && owner !in s.owners
      modifies store
      ensures var at := Run(s, steps);
        && at.redis == store.View() && at.written == s.written
        && (initial.None? ==> request !in at.refreshes)
        && (initial.Some? ==> request in at.refreshes && at.refreshes[request] == Leased(previous, initial.value, owner))
      ensures initial.None? ==> outcome.SessionInvalid? || (outcome.InProgress? && store.leases == old(store.leases))
    {
      hide Run, Touch;
      FirstStep(s, BeginRefresh(request, previous));
      steps := [BeginRefresh(request, previous)];
      OneMoreStep(s, steps, LookUp(request, firstMs));
      steps := steps + [LookUp(request, firstMs)];
      outcome := SessionInvalid;
      initial := store.GetSession(previous, firstMs);
      if initial.None? {
        return;
      }
      LookingKeepsLeases(s.redis, previous, firstMs);
      OneMoreStep(s, steps, TakeLease(request, owner));
      steps := steps + [TakeLease(request, owner)];
      var leased := store.AcquireRefreshLease(initial.value.id, owner);
      if !leased {
        outcome, initial := InProgress, None;
      }
    }

    // The part under the lease: look again, and go on only if nothing changed.
    method RefreshLeased(previous: Index, initial: SessionRecord, owner: Owner, secondMs: int, exchangeSucceeds: bool, next: Index, tokens: nat, auditSucceeds: bool,
                         ghost s: System, ghost before: seq<Step>, ghost request: nat)
      returns (outcome: RefreshOutcome, ghost steps: seq<Step>)
      requires var at := Run(s, before);
        at.redis == store.View() && request in at.refreshes && at.refreshes[request] == Leased(previous, initial, owner) && next !in at.written
      modifies store
      ensures var at := Run(s, steps);
        at.redis == store.View() && request in at.refreshes && at.refreshes[request] == Releasing(initial, owner)
      ensures outcome.Refreshed? ==> outcome.next == next && Handed(store.View(), previous, next)
      ensures !outcome.InProgress?
    {
      hide Run, Touch, Delete, Rotate, CanRotate;
      OneMoreStep(s, before, LookAgain(request, secondMs));
      steps := before + [LookAgain(request, secondMs)];
      var found := store.GetSession(previous, secondMs);
      if found.None? || found.value.id != initial.id || found.value.revision != initial.revision {
        return SessionInvalid, steps;
      }
      outcome, steps := ExchangeAndRotate(previous, initial, owner, found.value, secondMs, exchangeSucceeds, next, tokens, s, steps, request);
      if outcome.Refreshed? {
        outcome, steps := AuditRefreshed(previous, initial, owner, next, auditSucceeds, s, steps, request);
      }
    }

    // The token exchange, then the rotation under the revision just read.
    method ExchangeAndRotate(previous: Index, initial: SessionRecord, owner: Owner, current: SessionRecord, secondMs: int, exchangeSucceeds: bool, next: Index, tokens: nat,
                             ghost s: System, ghost before: seq<Step>, ghost request: nat)
      returns (outcome: RefreshOutcome, ghost steps: seq<Step>)
      requires var at := Run(s, before);
        && at.redis == store.View() && request in at.refreshes && next !in at.written
        && at.refreshes[request] == Checked(previous, initial, owner, current, secondMs)
      modifies store
      ensures var at := Run(s, steps);
        && at.redis == store.View() && request in at.refreshes
        && at.refreshes[request] == if outcome.Refreshed? then Rotated(initial, owner, next) else Releasing(initial, owner)
      ensures outcome.Refreshed? ==> outcome.next == next && Handed(store.View(), previous, next)
      ensures !outcome.InProgress?
    {
      hide Run, Touch, Delete;
      OneMoreStep(s, before, Exchange(request, exchangeSucceeds, next, tokens));
      steps := before + [Exchange(request, exchangeSucceeds, next, tokens)];
      if !exchangeSucceeds {
        return DependencyUnavailable, steps;
      }
      var record := current.(revision := current.revision + 1, tokens := tokens);
      if record.absoluteExpiresAtMs - secondMs <= 0 {
        return SessionInvalid, steps;
      }
      var rotated := store.RotateSession(previous, next, current.revision, record);
      if !rotated {
        return SessionInvalid, steps;
      }
      return Refreshed(next), steps;
    }

    // The audit after a rotation, with the new record deleted when it fails.
    method AuditRefreshed(previous: Index, initial: SessionRecord, owner: Owner, next: Index, auditSucceeds: bool,
                          ghost s: System, ghost before: seq<Step>, ghost request: nat)
      returns (outcome: RefreshOutcome, ghost steps: seq<Step>)
      requires var at := Run(s, before);
        at.redis == store.View() && request in at.refreshes && at.refreshes[request] == Rotated(initial, owner, next)
      requires Handed(store.View(), previous, next)
      modifies store
      ensures var at := Run(s, steps);
        at.redis == store.View() && request in at.refreshes && at.refreshes[request] == Releasing(initial, owner)
      ensures outcome == if auditSucceeds then Refreshed(next) else DependencyUnavailable
      ensures outcome.Refreshed? ==> Handed(store.View(), previous, next)
    {
      hide Run, Touch, Delete, Rotate, CanRotate;
      OneMoreStep(s, before, AuditRefresh(request, auditSucceeds));
      steps := before + [AuditRefresh(request, auditSucceeds)];
      if auditSucceeds {
        return Refreshed(next), steps;
      }
      OneMoreStep(s, steps, Compensate(request));
      steps := steps + [Compensate(request)];
      var deleted := store.DeleteSession(next);
      return DependencyUnavailable, steps;
    }

    // Logging out by reference, or by looking the credential up first.
    method Logout(index: Index, reference: Option<SessionId>, nowMs: int, auditSucceeds: bool, ghost s: System, ghost request: nat)
      returns (revoked: Option<SessionRecord>, ghost steps: seq<Step>)
      requires s.redis == store.View() && request !in s.logouts
      modifies store
      ensures store.View() == Run(s, steps).redis
      ensures reference.Some? && auditSucceeds ==> steps == [BeginLogout(request, reference.value), RevokeFamily(request)]
    {
      hide Run;
      var id := 0;
      if reference.Some? {
        id := reference.value;
        steps := [BeginLogout(request, id)];
        FirstStep(s, BeginLogout(request, id));
      } else {
        steps := [LogoutByCredential(request, index, nowMs)];
        FirstStep(s, LogoutByCredential(request, index, nowMs));
        var current := store.GetSession(index, nowMs);
        if current.None? {
          return None, steps;
        }
        id := current.value.id;
      }
      assert Run(s, steps).redis == store.View() && request in Run(s, steps).logouts && Run(s, steps).logouts[request].reference == id;
      if !auditSucceeds {
        return None, steps;
      }
      OneMoreStep(s, steps, RevokeFamily(request));
      steps := steps + [RevokeFamily(request)];
      revoked := store.RevokeSession(id);
    }

    // Completing a login: a new record under a new credential, taken back when
    // the audit fails.
    method CompleteLogin(index: Index, id: SessionId, nowMs: int, absoluteTtlMs: int, authenticatedAtMs: int, csrfToken: nat, tokens: nat, auditSucceeds: bool,
                         ghost s: System)
      returns (created: bool, ghost steps: seq<Step>)
      requires s.redis == store.View() && index !in s.written && id !in s.known
      modifies store
      ensures store.View() == Run(s, steps).redis
      ensures created ==> index in store.sessions && store.sessions[index].absoluteExpiresAtMs == nowMs + absoluteTtlMs
      ensures created ==> FamilyIs(store.View(), id, index)
    {
      var login := Login(index, id, nowMs, absoluteTtlMs, authenticatedAtMs, csrfToken, tokens);
      var record := SessionRecord(id, 0, nowMs + absoluteTtlMs, nowMs, authenticatedAtMs, csrfToken, tokens);
      steps := [login];
      FirstStep(s, login);
      hide Run;
      created := store.CreateSession(index, record);
      if created && !auditSucceeds {
        OneMoreStep(s, steps, Discard(index));
        steps := steps + [Discard(index)];
        var deleted := store.DeleteSession(index);
        created := false;
      }
    }
  }
}
