// For every run: rotation is a compare-and-swap, logout is final, nothing outlives its login.
module SessionTheorems {
  import opened SessionStore
  import opened SessionProtocol

  // ------------------------------------------------------ counting rotations

  lemma {:induction false} RotationsOfPrefix(rotations: seq<Rotation>, k: nat, id: SessionId)
    requires k <= |rotations|
    ensures RotationsOf(rotations[..k], id) <= RotationsOf(rotations, id)
    ensures k < |rotations| && rotations[k].id == id ==> RotationsOf(rotations[..k], id) < RotationsOf(rotations, id)
    decreases |rotations|
  {
    if k < |rotations| {
      var n := |rotations| - 1;
      assert rotations[..n][..k] == rotations[..k];
      RotationsOfPrefix(rotations[..n], k, id);
      if k < n {
        assert rotations[..n][k] == rotations[k];
      } else {
        assert rotations[..k] == rotations[..n];
      }
    } else {
      assert rotations[..k] == rotations;
    }
  }

  lemma {:induction false} NoRotations(rotations: seq<Rotation>, id: SessionId)
    requires forall k :: 0 <= k < |rotations| ==> rotations[k].id != id
    ensures RotationsOf(rotations, id) == 0
    decreases |rotations|
  {
    if rotations != [] {
      NoRotations(rotations[..|rotations| - 1], id);
    }
  }

  lemma {:induction false} OneMoreRotation(rotations: seq<Rotation>, r: Rotation, id: SessionId)
    ensures RotationsOf(rotations + [r], id) == RotationsOf(rotations, id) + (if r.id == id then 1 else 0)
  {
    assert (rotations + [r])[..|rotations + [r]| - 1] == rotations;
  }

  // ------------------------------------------------------- one step at a time

  // Steps that write no record and open no family.
  predicate Shrinks(s: System, s': System) {
    && s'.written == s.written && s'.expiry == s.expiry && s'.rotations == s.rotations
    && (forall i :: i in s'.redis.sessions ==> i in s.redis.sessions && s'.redis.sessions[i] == s.redis.sessions[i])
    && (forall id :: id in s'.redis.families ==> id in s.redis.families && s'.redis.families[id] == s.redis.families[id])
    && s.known <= s'.known
  }

  predicate RedisShrinks(r: Redis, r': Redis) {
    && (forall i :: i in r'.sessions ==> i in r.sessions && r'.sessions[i] == r.sessions[i])
    && (forall id :: id in r'.families ==> id in r.families && r'.families[id] == r.families[id])
  }

  lemma {:induction false} ReadingScriptsShrink(r: Redis, index: Index, nowMs: int, id: SessionId)
    ensures RedisShrinks(r, Touch(r, index, nowMs).0)
    ensures RedisShrinks(r, Delete(r, index))
    ensures RedisShrinks(r, Revoke(r, id))
  {
  }

  lemma {:induction false} LeaseScriptsShrink(r: Redis, id: SessionId, owner: Owner)
    ensures RedisShrinks(r, AcquireLease(r, id, owner))
    ensures RedisShrinks(r, ReleaseLease(r, id, owner))
  {
  }

  lemma {:induction false} OnlyLoginAndExchangeGrow(s: System, step: Step)
    requires !step.Login? && !step.Exchange?
    ensures Shrinks(s, Apply(s, step))
  {
    hide RedisShrinks, Touch, Delete, Revoke, AcquireLease, ReleaseLease;
    OnlyLoginAndExchangeAdd(s, step);
    HistoryUntouched(s, step);
    ShrinksFromParts(s, Apply(s, step));
  }

  lemma {:induction false} ExpiryShrinks(s: System, step: Step)
    requires step.SessionExpires? || step.FamilyExpires? || step.LeaseExpires?
    ensures RedisShrinks(s.redis, Apply(s, step).redis)
  {
  }

  lemma {:induction false} NothingShrinksNothing(r: Redis)
    ensures RedisShrinks(r, r)
  {
  }

  lemma {:induction false} OnlyLoginAndExchangeAdd(s: System, step: Step)
    requires !step.Login? && !step.Exchange?
    ensures RedisShrinks(s.redis, Apply(s, step).redis)
  {
    hide RedisShrinks, Touch, Delete, Revoke, AcquireLease, ReleaseLease;
    NothingShrinksNothing(s.redis);
    match step
    case SessionExpires(_) => ExpiryShrinks(s, step);
    case FamilyExpires(_) => ExpiryShrinks(s, step);
    case LeaseExpires(_) => ExpiryShrinks(s, step);
    case Access(index, nowMs) => ReadingScriptsShrink(s.redis, index, nowMs, 0);
    case Discard(index) => ReadingScriptsShrink(s.redis, index, 0, 0);
    case LookUp(q, nowMs) =>
      if q in s.refreshes && s.refreshes[q].Begun? { ReadingScriptsShrink(s.redis, s.refreshes[q].previous, nowMs, 0); }
    case TakeLease(q, owner) =>
      if q in s.refreshes && s.refreshes[q].Looked? { LeaseScriptsShrink(s.redis, s.refreshes[q].initial.id, owner); }
    case LookAgain(q, nowMs) =>
      if q in s.refreshes && s.refreshes[q].Leased? { ReadingScriptsShrink(s.redis, s.refreshes[q].previous, nowMs, 0); }
    case Compensate(q) =>
      if q in s.refreshes && s.refreshes[q].Compensating? { ReadingScriptsShrink(s.redis, s.refreshes[q].next, 0, 0); }
    case Release(q) =>
      if q in s.refreshes && s.refreshes[q].Releasing? { LeaseScriptsShrink(s.redis, s.refreshes[q].initial.id, s.refreshes[q].owner); }
    case LogoutByCredential(q, index, nowMs) => ReadingScriptsShrink(s.redis, index, nowMs, 0);
    case RevokeFamily(q) => if q in s.logouts { ReadingScriptsShrink(s.redis, 0, 0, s.logouts[q].reference); }
    case _ =>
  }

  lemma {:induction false} HistoryUntouched(s: System, step: Step)
    requires !step.Login? && !step.Exchange?
    ensures var s' := Apply(s, step);
      s'.written == s.written && s'.expiry == s.expiry && s'.rotations == s.rotations && s.known <= s'.known
  {
    hide Touch, Delete, Revoke, AcquireLease, ReleaseLease;
  }

  lemma {:induction false} ShrinksFromParts(s: System, s': System)
    requires RedisShrinks(s.redis, s'.redis)
    requires s'.written == s.written && s'.expiry == s.expiry && s'.rotations == s.rotations && s.known <= s'.known
    ensures Shrinks(s, s')
  {
  }

  lemma {:induction false} ShrinkingKeepsFacts(s: System, s': System)
    requires Recorded(s) && FamiliesCurrent(s) && RotationsOrdered(s) && Shrinks(s, s')
    ensures Recorded(s') && FamiliesCurrent(s') && RotationsOrdered(s')
  {
  }

  // A record handed out is the one written under the index presented.
  lemma {:induction false} TouchReturnsWritten(s: System, index: Index, nowMs: int)
    requires Recorded(s) && Touch(s.redis, index, nowMs).1.Some?
    ensures index in s.written && s.written[index] == Touch(s.redis, index, nowMs).1.value && s.written[index].id in s.known
  {
  }

  predicate Looks(step: Step) {
    step.LookUp? || step.LookAgain?
  }

  lemma {:induction false} LookUpKeepsRefreshes(s: System, request: nat, nowMs: int)
    requires Recorded(s) && RefreshesSound(s)
    ensures RefreshesSound(DoLookUp(s, request, nowMs))
  {
    if request in s.refreshes && s.refreshes[request].Begun? && Touch(s.redis, s.refreshes[request].previous, nowMs).1.Some? {
      TouchReturnsWritten(s, s.refreshes[request].previous, nowMs);
    }
    hide Recorded, FamiliesCurrent, RotationsOrdered, Touch;
  }

  lemma {:induction false} LookAgainKeepsRefreshes(s: System, request: nat, nowMs: int)
    requires Recorded(s) && RefreshesSound(s)
    ensures RefreshesSound(DoLookAgain(s, request, nowMs))
  {
    if request in s.refreshes && s.refreshes[request].Leased? && Touch(s.redis, s.refreshes[request].previous, nowMs).1.Some? {
      TouchReturnsWritten(s, s.refreshes[request].previous, nowMs);
    }
    hide Recorded, FamiliesCurrent, RotationsOrdered, Touch;
  }

  lemma {:induction false} OtherStepsKeepRefreshes(s: System, step: Step)
    requires RefreshesSound(s) && !step.Login? && !step.Exchange? && !Looks(step)
    ensures RefreshesSound(Apply(s, step))
  {
    var s' := Apply(s, step);
    HistoryUntouched(s, step);
    hide Touch, Delete, Revoke, AcquireLease, ReleaseLease;
    forall q | q in s'.refreshes ensures RefreshSound(s', s'.refreshes[q]) {
      if q in s.refreshes {
        assert RefreshSound(s, s.refreshes[q]);
      }
    }
  }

  lemma {:induction false} LookingKeepsRefreshes(s: System, step: Step)
    requires Recorded(s) && RefreshesSound(s) && !step.Login? && !step.Exchange?
    ensures RefreshesSound(Apply(s, step))
  {
    hide Recorded, RefreshesSound, DoLookUp, DoLookAgain;
    if step.LookUp? {
      LookUpKeepsRefreshes(s, step.request, step.nowMs);
    } else if step.LookAgain? {
      LookAgainKeepsRefreshes(s, step.request, step.nowMs);
    } else {
      OtherStepsKeepRefreshes(s, step);
    }
  }

  lemma {:induction false} StepsKeepLogouts(s: System, step: Step)
    requires Recorded(s) && LogoutsKnown(s) && !step.Login? && !step.Exchange?
    ensures LogoutsKnown(Apply(s, step))
  {
    if step.LogoutByCredential? && Touch(s.redis, step.index, step.nowMs).1.Some? {
      TouchReturnsWritten(s, step.index, step.nowMs);
    }
    hide Touch, Delete, Revoke, AcquireLease, ReleaseLease;
  }

  lemma {:induction false} FreshIdNeverRotated(s: System, id: SessionId)
    requires Recorded(s) && RotationsOrdered(s) && id !in s.known
    ensures RotationsOf(s.rotations, id) == 0
  {
    forall k | 0 <= k < |s.rotations| ensures s.rotations[k].id != id {
      assert s.rotations[k].previous in s.written;
    }
    NoRotations(s.rotations, id);
  }

  lemma {:induction false} LoginRecords(s: System, step: Step)
    requires Recorded(s) && step.Login?
    ensures Recorded(Apply(s, step))
  {
  }

  lemma {:induction false} LoginRotatesNothing(s: System, step: Step)
    requires RotationsOrdered(s) && step.Login?
    ensures RotationsOrdered(Apply(s, step))
  {
    hide RotationsOf, Create, CanCreate;
  }

  lemma {:induction false} LoginStartsFamily(s: System, step: Step)
    requires Recorded(s) && FamiliesCurrent(s) && RotationsOrdered(s) && step.Login?
    ensures FamiliesCurrent(Apply(s, step))
  {
    if step.id !in s.known {
      FreshIdNeverRotated(s, step.id);
    }
    hide Recorded, RotationsOrdered, RotationsOf;
  }

  lemma {:induction false} LoginKeepsFacts(s: System, step: Step)
    requires Recorded(s) && FamiliesCurrent(s) && RotationsOrdered(s) && step.Login?
    ensures Recorded(Apply(s, step)) && FamiliesCurrent(Apply(s, step)) && RotationsOrdered(Apply(s, step))
  {
    hide Recorded, RotationsOrdered, FamiliesCurrent, Apply;
    LoginRecords(s, step);
    LoginRotatesNothing(s, step);
    LoginStartsFamily(s, step);
  }

  lemma {:induction false} LoginKeepsInv(s: System, step: Step)
    requires Inv(s) && step.Login?
    ensures Inv(Apply(s, step))
  {
    LoginKeepsFacts(s, step);
    var s' := Apply(s, step);
    hide Recorded, FamiliesCurrent, RotationsOrdered;
    forall q | q in s'.refreshes ensures RefreshSound(s', s'.refreshes[q]) {
      assert RefreshSound(s, s.refreshes[q]);
    }
  }

  // The rotation an exchange performs, if it does.
  predicate Rotates(s: System, step: Step)
    requires step.Exchange?
  {
    |Apply(s, step).rotations| > |s.rotations|
  }

  lemma {:induction false} ExchangeEffect(s: System, step: Step)
    requires Inv(s) && step.Exchange? && Rotates(s, step)
    ensures var s' := Apply(s, step); var r := s.refreshes[step.request];
      && step.request in s.refreshes && r.Checked? && step.next !in s.written
      && r.previous in s.written && s.written[r.previous] == r.current
      && FamilyIs(s.redis, r.current.id, r.previous)
      && s'.written == s.written[step.next := r.current.(revision := r.current.revision + 1, tokens := step.tokens)]
      && s'.rotations == s.rotations + [Rotation(r.current.id, r.current.revision, r.previous, step.next)]
      && s'.redis.families == s.redis.families[r.current.id := step.next]
      && s'.redis.sessions == (s.redis.sessions - {r.previous})[step.next := s'.written[step.next]]
      && r.current.revision == RotationsOf(s.rotations, r.current.id)
  {
    assert RefreshSound(s, s.refreshes[step.request]);
  }

  lemma {:induction false} RotationKeepsOrder(s: System, step: Step)
    requires Inv(s) && step.Exchange? && Rotates(s, step)
    ensures RotationsOrdered(Apply(s, step))
  {
    ExchangeEffect(s, step);
    var s' := Apply(s, step);
    var n := |s.rotations|;
    assert s'.rotations[..n] == s.rotations;
    forall k | 0 <= k < |s'.rotations|
      ensures var r := s'.rotations[k];
        && r.revision == RotationsOf(s'.rotations[..k], r.id)
        && r.previous in s'.written && r.next in s'.written && r.previous != r.next
        && s'.written[r.previous].id == r.id && s'.written[r.next].id == r.id
        && s'.written[r.previous].revision == r.revision && s'.written[r.next].revision == r.revision + 1
    {
      if k < n {
        assert s'.rotations[k] == s.rotations[k] && s'.rotations[..k] == s.rotations[..k];
        assert step.next !in s.written;
      }
    }
  }

  lemma {:induction false} RotationKeepsFamilies(s: System, step: Step)
    requires Inv(s) && step.Exchange? && Rotates(s, step)
    ensures FamiliesCurrent(Apply(s, step))
  {
    ExchangeEffect(s, step);
    var s', r := Apply(s, step), s.refreshes[step.request];
    hide Apply, Rotates, Recorded, RotationsOrdered, RefreshesSound, LogoutsKnown;
    FamilyMoves(s, s', r.current, r.previous, step.next, s'.written[step.next]);
  }

  // One family moves on to its next record; the others stay where they are.
  lemma {:induction false} FamilyMoves(s: System, s': System, current: SessionRecord, previous: Index, next: Index, written: SessionRecord)
    requires FamiliesCurrent(s) && next !in s.written && written.id == current.id && written.revision == current.revision + 1
    requires s'.written == s.written[next := written] && s'.redis.families == s.redis.families[current.id := next]
    requires s'.rotations == s.rotations + [Rotation(current.id, current.revision, previous, next)] && current.revision == RotationsOf(s.rotations, current.id)
    ensures FamiliesCurrent(s')
  {
    forall id | id in s'.redis.families
      ensures s'.redis.families[id] in s'.written && s'.written[s'.redis.families[id]].id == id
      ensures s'.written[s'.redis.families[id]].revision == RotationsOf(s'.rotations, id)
    {
      OneMoreRotation(s.rotations, Rotation(current.id, current.revision, previous, next), id);
      hide RotationsOf;
    }
  }

  lemma {:induction false} RotationRecords(s: System, step: Step)
    requires Inv(s) && step.Exchange? && Rotates(s, step)
    ensures Recorded(Apply(s, step))
  {
    ExchangeEffect(s, step);
  }

  lemma {:induction false} ExchangeKeepsFacts(s: System, step: Step)
    requires Inv(s) && step.Exchange?
    ensures Recorded(Apply(s, step)) && FamiliesCurrent(Apply(s, step)) && RotationsOrdered(Apply(s, step))
  {
    if Rotates(s, step) {
      hide Recorded, FamiliesCurrent, RotationsOrdered, Apply;
      RotationRecords(s, step);
      RotationKeepsOrder(s, step);
      RotationKeepsFamilies(s, step);
    } else {
      assert Shrinks(s, Apply(s, step));
      ShrinkingKeepsFacts(s, Apply(s, step));
    }
  }

  lemma {:induction false} ExchangeKeepsRefreshes(s: System, step: Step)
    requires RefreshesSound(s) && LogoutsKnown(s) && step.Exchange?
    ensures RefreshesSound(Apply(s, step)) && LogoutsKnown(Apply(s, step))
  {
    hide Rotate, CanRotate;
    var s' := Apply(s, step);
    forall q | q in s'.refreshes ensures RefreshSound(s', s'.refreshes[q]) {
      assert RefreshSound(s, s.refreshes[q]);
    }
  }

  lemma {:induction false} ExchangeKeepsInv(s: System, step: Step)
    requires Inv(s) && step.Exchange?
    ensures Inv(Apply(s, step))
  {
    hide Recorded, FamiliesCurrent, RotationsOrdered, Apply, RefreshesSound, LogoutsKnown;
    ExchangeKeepsFacts(s, step);
    ExchangeKeepsRefreshes(s, step);
  }

  lemma {:induction false} StepKeepsInv(s: System, step: Step)
    requires Inv(s)
    ensures Inv(Apply(s, step))
  {
    if step.Login? {
      LoginKeepsInv(s, step);
    } else if step.Exchange? {
      ExchangeKeepsInv(s, step);
    } else {
      OnlyLoginAndExchangeGrow(s, step);
      ShrinkingKeepsFacts(s, Apply(s, step));
      LookingKeepsRefreshes(s, step);
      StepsKeepLogouts(s, step);
    }
  }

  lemma {:induction false} RunKeepsInv(s: System, steps: seq<Step>)
    requires Inv(s)
    ensures Inv(Run(s, steps))
    decreases |steps|
  {
    if steps != [] {
      RunKeepsInv(s, steps[..|steps| - 1]);
      StepKeepsInv(Run(s, steps[..|steps| - 1]), steps[|steps| - 1]);
    }
  }

  lemma {:induction false} EveryRunIsSound(steps: seq<Step>)
    ensures Inv(Run(Start, steps))
  {
    RunKeepsInv(Start, steps);
  }

  lemma {:induction false} RunSplits(s: System, a: seq<Step>, b: seq<Step>)
    ensures Run(s, a + b) == Run(Run(s, a), b)
    decreases |b|
  {
    if b == [] {
      assert a + b == a;
    } else {
      var n := |b| - 1;
      RunSplits(s, a, b[..n]);
      assert (a + b)[..|a + b| - 1] == a + b[..n];
      assert (a + b)[|a + b| - 1] == b[n];
    }
  }

  // ------------------------------------------------------------ logout is final

  // A known session without a family: nothing can open it again.
  predicate Closed(s: System, id: SessionId) {
    id in s.known && id !in s.redis.families
  }

  lemma {:induction false} ClosedStaysClosed(s: System, step: Step, id: SessionId)
    requires Inv(s) && Closed(s, id)
    ensures Closed(Apply(s, step), id)
  {
    if !step.Login? && !step.Exchange? {
      OnlyLoginAndExchangeGrow(s, step);
    } else if step.Exchange? && Rotates(s, step) {
      ExchangeEffect(s, step);
    }
  }

  lemma {:induction false} ClosedForever(s: System, steps: seq<Step>, id: SessionId)
    requires Inv(s) && Closed(s, id)
    ensures Closed(Run(s, steps), id)
    decreases |steps|
  {
    if steps != [] {
      var n := |steps| - 1;
      ClosedForever(s, steps[..n], id);
      RunKeepsInv(s, steps[..n]);
      ClosedStaysClosed(Run(s, steps[..n]), steps[n], id);
    }
  }

  lemma {:induction false} RevokeCloses(s: System, request: nat)
    requires Inv(s) && request in s.logouts
    ensures Closed(Apply(s, RevokeFamily(request)), s.logouts[request].reference)
  {
    var id := s.logouts[request].reference;
    if id in s.redis.families && s.redis.families[id] in s.redis.sessions {
      assert s.written[s.redis.families[id]].id == id;
    }
  }

  // Logout beats refresh: once the revoke of a logout has run, no continuation,
  // whatever refreshes are in flight and whatever leases have lapsed, has any
  // credential accepted for that session again.
  lemma {:induction false} LogoutIsFinal(steps: seq<Step>, request: nat, more: seq<Step>, index: Index, nowMs: int)
    requires request in Run(Start, steps).logouts
    ensures var id := Run(Start, steps).logouts[request].reference; var s := Run(Start, steps + [RevokeFamily(request)] + more);
      Accepted(s, index, nowMs) ==> Holder(s, index, nowMs).id != id
  {
    EveryRunIsSound(steps);
    var before := Run(Start, steps);
    var id := before.logouts[request].reference;
    RevokeCloses(before, request);
    StepKeepsInv(before, RevokeFamily(request));
    assert (steps + [RevokeFamily(request)])[..|steps|] == steps;
    assert Run(Start, steps + [RevokeFamily(request)]) == Apply(before, RevokeFamily(request));
    ClosedForever(Apply(before, RevokeFamily(request)), more, id);
    RunSplits(Start, steps + [RevokeFamily(request)], more);
  }

  // ------------------------------------------------- rotation compare-and-swap

  // At most one rotation ever succeeds per session and revision, and the k-th
  // rotation of a session takes it from revision k to revision k + 1.
  lemma {:induction false} RotationIsCompareAndSwap(steps: seq<Step>, i: nat, j: nat)
    requires i < j < |Run(Start, steps).rotations|
    ensures var s := Run(Start, steps); var a, b := s.rotations[i], s.rotations[j];
      && (a.id == b.id ==> a.revision < b.revision)
      && a.revision == RotationsOf(s.rotations[..i], a.id)
      && a.next in s.written && a.previous in s.written
      && s.written[a.next].revision == s.written[a.previous].revision + 1
  {
    EveryRunIsSound(steps);
    var s := Run(Start, steps);
    var a, b := s.rotations[i], s.rotations[j];
    assert s.rotations[..j][..i] == s.rotations[..i] && s.rotations[..j][i] == a;
    RotationsOfPrefix(s.rotations[..j], i, a.id);
    assert b.revision == RotationsOf(s.rotations[..j], b.id);
  }

  lemma {:induction false} RotationsOnlyGrow(s: System, steps: seq<Step>)
    requires Inv(s)
    ensures s.rotations <= Run(s, steps).rotations
    ensures forall i :: i in s.written ==> i in Run(s, steps).written && Run(s, steps).written[i] == s.written[i]
    ensures forall id :: id in s.expiry ==> id in Run(s, steps).expiry && Run(s, steps).expiry[id] == s.expiry[id]
    decreases |steps|
  {
    if steps != [] {
      var n := |steps| - 1;
      RotationsOnlyGrow(s, steps[..n]);
      RunKeepsInv(s, steps[..n]);
      HistoryGrows(Run(s, steps[..n]), steps[n]);
    }
  }

  lemma {:induction false} HistoryGrows(s: System, step: Step)
    requires Inv(s)
    ensures s.rotations <= Apply(s, step).rotations
    ensures forall i :: i in s.written ==> i in Apply(s, step).written && Apply(s, step).written[i] == s.written[i]
    ensures forall id :: id in s.expiry ==> id in Apply(s, step).expiry && Apply(s, step).expiry[id] == s.expiry[id]
  {
    if !step.Login? && !step.Exchange? {
      OnlyLoginAndExchangeGrow(s, step);
    }
  }

  lemma {:induction false} OnlyNewestAccepted(s: System, index: Index, nowMs: int)
    requires Inv(s) && Accepted(s, index, nowMs)
    ensures index in s.written && Holder(s, index, nowMs) == s.written[index]
    ensures s.written[index].revision == RotationsOf(s.rotations, s.written[index].id)
    ensures FamilyIs(s.redis, s.written[index].id, index)
    ensures nowMs < s.expiry[s.written[index].id]
  {
  }

  // A credential that was rotated out is never accepted again.
  lemma {:induction false} RotatedOutIsRefused(steps: seq<Step>, k: nat, more: seq<Step>, nowMs: int)
    requires k < |Run(Start, steps).rotations|
    ensures !Accepted(Run(Start, steps + more), Run(Start, steps).rotations[k].previous, nowMs)
  {
    EveryRunIsSound(steps);
    EveryRunIsSound(steps + more);
    RunSplits(Start, steps, more);
    RotationsOnlyGrow(Run(Start, steps), more);
    var s := Run(Start, steps + more);
    var r := Run(Start, steps).rotations[k];
    assert s.rotations[k] == r;
    RotationsOfPrefix(s.rotations, k, r.id);
    if Accepted(s, r.previous, nowMs) {
      OnlyNewestAccepted(s, r.previous, nowMs);
      assert false;
    }
  }

  // At any instant at most one credential of a session is accepted, and it is
  // the newest of its chain.
  lemma {:induction false} OneCredentialAtATime(steps: seq<Step>, i: Index, j: Index, nowMs: int)
    requires var s := Run(Start, steps); Accepted(s, i, nowMs) && Accepted(s, j, nowMs)
    ensures var s := Run(Start, steps);
      && (Holder(s, i, nowMs).id == Holder(s, j, nowMs).id ==> i == j)
      && Holder(s, i, nowMs).revision == RotationsOf(s.rotations, Holder(s, i, nowMs).id)
  {
    EveryRunIsSound(steps);
    OnlyNewestAccepted(Run(Start, steps), i, nowMs);
    OnlyNewestAccepted(Run(Start, steps), j, nowMs);
  }

  // No credential of a chain is accepted at or after the expiry its login fixed,
  // however often it was rotated.
  lemma {:induction false} NothingOutlivesItsLogin(steps: seq<Step>, id: SessionId, more: seq<Step>, index: Index, nowMs: int)
    requires id in Run(Start, steps).expiry && nowMs >= Run(Start, steps).expiry[id]
    ensures var s := Run(Start, steps + more);
      Accepted(s, index, nowMs) ==> Holder(s, index, nowMs).id != id
  {
    EveryRunIsSound(steps);
    EveryRunIsSound(steps + more);
    RunSplits(Start, steps, more);
    RotationsOnlyGrow(Run(Start, steps), more);
    var s := Run(Start, steps + more);
    if Accepted(s, index, nowMs) {
      OnlyNewestAccepted(s, index, nowMs);
    }
  }

  // ... and before that, a credential just issued is accepted: by login, and by
  // the rotation that replaces it.
  lemma {:induction false} LoginIsAccepted(steps: seq<Step>, step: Step, nowMs: int)
    requires step.Login? && nowMs < step.nowMs + step.absoluteTtlMs
    requires step.index !in Run(Start, steps).written && step.id !in Run(Start, steps).known
    ensures var s := Apply(Run(Start, steps), step);
      Accepted(s, step.index, nowMs) && Holder(s, step.index, nowMs).id == step.id && Holder(s, step.index, nowMs).revision == 0
  {
    EveryRunIsSound(steps);
    var s := Run(Start, steps);
    assert step.id !in s.redis.families;
  }

  lemma {:induction false} RotationIsAccepted(steps: seq<Step>, step: Step, nowMs: int)
    requires step.Exchange? && Rotates(Run(Start, steps), step)
    ensures var s := Run(Start, steps); var r := s.refreshes[step.request]; var s' := Apply(s, step);
      && step.request in s.refreshes && r.Checked?
      && (Accepted(s', step.next, nowMs) <==> nowMs < r.current.absoluteExpiresAtMs)
      && !Accepted(s', r.previous, nowMs)
  {
    EveryRunIsSound(steps);
    ExchangeEffect(Run(Start, steps), step);
  }
}
