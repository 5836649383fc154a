// Over every run: receipts are final, releases append-only, activations of one scope apart.
module ConfigurationTheorems {
  import opened Prelude
  import opened ConfigurationModel
  import opened ConfigurationInvariants

  // ---------------------------------------------------------------- receipts

  // Once an operation id has a receipt, the store answers every later use of it
  // with the first result or, for other content, a conflict, and stays as it is.
  // The service adds one refusal: a termination repeated after its end has passed.
  lemma {:induction false} ReceiptsAreFinal(calls: seq<Call>, more: seq<Call>, operationId: Id, c: Command)
    requires operationId in Run(Empty, calls).receipts
    ensures var receipt := Run(Empty, calls).receipts[operationId]; var s := Run(Empty, calls + more);
      && Commit(s, operationId, c)
         == (s, if receipt.fingerprint == FingerprintOf(c) then Answered(receipt.result, true) else Failed(OperationConflict))
      && Request(s, operationId, c).0 == s
      && (receipt.fingerprint == FingerprintOf(c) ==>
            Request(s, operationId, c).1
            == if c.Terminate? && c.effectiveTo < c.occurredAt then Failed(InvalidInput) else Answered(receipt.result, true))
  {
    RunSplits(Empty, calls, more);
    RunGrows(Empty, calls);
    RunGrows(Run(Empty, calls), more);
    RunIsSound(calls + more);
    var s := Run(Empty, calls + more);
    assert s.receipts[operationId] == Run(Empty, calls).receipts[operationId];
    assert Passed(s.drafts, s.definitions, s.receipts[operationId].fingerprint);
    hide Run, Passed, Commit, Request, FingerprintOf;
    ReceiptAnswers(s, operationId, c);
  }

  lemma {:induction false} ReceiptAnswers(s: Store, operationId: Id, c: Command)
    requires operationId in s.receipts && Passed(s.drafts, s.definitions, s.receipts[operationId].fingerprint)
    ensures var receipt := s.receipts[operationId];
      && Commit(s, operationId, c)
         == (s, if receipt.fingerprint == FingerprintOf(c) then Answered(receipt.result, true) else Failed(OperationConflict))
      && Request(s, operationId, c).0 == s
      && (receipt.fingerprint == FingerprintOf(c) ==>
            Request(s, operationId, c).1
            == if c.Terminate? && c.effectiveTo < c.occurredAt then Failed(InvalidInput) else Answered(receipt.result, true))
  {
    hide Perform;
  }

  // ------------------------------------------------------------------ drafts

  predicate SavedUnder(f: Fingerprint, d: Id, expected: nat) {
    f.OfDraft? && f.dictionaryId == d && f.expectedRevision == expected
  }

  // Every saved draft moved its dictionary past the revision it expected, and no
  // two saves of a dictionary expected the same one.
  ghost predicate SavesInTurn(receipts: map<Id, Receipt>, drafts: map<Id, Draft>) {
    && (forall op, d, r: nat | op in receipts && SavedUnder(receipts[op].fingerprint, d, r) :: d in drafts && r < drafts[d].revision)
    && (forall op, other, d, r: nat | op in receipts && other in receipts && SavedUnder(receipts[op].fingerprint, d, r)
                                      && SavedUnder(receipts[other].fingerprint, d, r) :: op == other)
  }

  lemma {:induction false} SavingTakesTurn(s: Store, c: Command)
    requires Perform(s, c).Performed?
    ensures var after := Perform(s, c).store.drafts;
      && (forall d | d in s.drafts :: d in after && s.drafts[d].revision <= after[d].revision)
      && (c.SaveDraft? ==> c.dictionaryId in after && after[c.dictionaryId].revision == c.expectedRevision + 1)
      && (c.SaveDraft? && c.dictionaryId in s.drafts ==> s.drafts[c.dictionaryId].revision == c.expectedRevision)
  {
    hide ClashesWithAny, FirstNamed, AllCodes, Codes, HasVersion;
  }

  lemma {:induction false} RequestKeepsTurns(s: Store, operationId: Id, c: Command)
    requires SavesInTurn(s.receipts, s.drafts)
    ensures SavesInTurn(Request(s, operationId, c).0.receipts, Request(s, operationId, c).0.drafts)
  {
    hide Perform, ServiceCheck;
    if ServiceCheck(s, c).None? && operationId !in s.receipts && Perform(s, c).Performed? {
      SavingTakesTurn(s, c);
      PerformLeavesReceipts(s, c);
    }
  }

  lemma {:induction false} PerformLeavesReceipts(s: Store, c: Command)
    requires Perform(s, c).Performed?
    ensures Perform(s, c).store.receipts == s.receipts
  {
    hide ClashesWithAny, FirstNamed, AllCodes, Codes, HasVersion;
  }

  // Saving a draft is a compare-and-swap on its revision: of all operations that
  // saved a dictionary, no two did so under the same expected revision.
  lemma {:induction false} DraftSavesTakeTurns(calls: seq<Call>)
    ensures SavesInTurn(Run(Empty, calls).receipts, Run(Empty, calls).drafts)
    decreases |calls|
  {
    if calls != [] {
      var n := |calls| - 1;
      DraftSavesTakeTurns(calls[..n]);
      hide Request, SavesInTurn;
      RequestKeepsTurns(Run(Empty, calls[..n]), calls[n].operationId, calls[n].command);
    }
  }

  // ---------------------------------------------------------------- releases

  // Releases are numbered 1..n without gaps, are never edited or removed, and
  // keep every code of every earlier release.
  lemma {:induction false} ReleasesAreAppendOnly(calls: seq<Call>, more: seq<Call>, d: Id, i: nat)
    requires i < |ReleasesOf(Run(Empty, calls).dictionaries, d)|
    ensures var now, later := ReleasesOf(Run(Empty, calls).dictionaries, d), ReleasesOf(Run(Empty, calls + more).dictionaries, d);
      && i < |later| && later[i] == now[i] && now[i].releaseVersion == i + 1
      && forall j | i <= j < |later| :: Codes(now[i].items) <= Codes(later[j].items)
  {
    RunSplits(Empty, calls, more);
    RunGrows(Empty, calls);
    RunGrows(Run(Empty, calls), more);
    RunIsSound(calls);
    RunIsSound(calls + more);
  }

  lemma {:induction false} ValuesAreAppendOnly(calls: seq<Call>, more: seq<Call>, key: Id, i: nat)
    requires i < |ReleasesOf(Run(Empty, calls).values, key)|
    ensures var now, later := ReleasesOf(Run(Empty, calls).values, key), ReleasesOf(Run(Empty, calls + more).values, key);
      i < |later| && later[i] == now[i] && now[i].valueVersion == i + 1
  {
    RunSplits(Empty, calls, more);
    RunGrows(Empty, calls);
    RunGrows(Run(Empty, calls), more);
    RunIsSound(calls);
  }

  // ------------------------------------------------------------- activations

  // Two activations of one slot are in force at once at `t`.
  predicate Collide(s: Store, i: nat, j: nat, t: Instant)
    requires i < |s.activations| && j < |s.activations|
  {
    && SameSlot(s.activations[i], s.activations[j])
    && InForce(s.terminations, s.activations[i], t) && InForce(s.terminations, s.activations[j], t)
  }

  ghost predicate Disjoint(s: Store) {
    forall i, j, t: Instant | 0 <= i < j < |s.activations| :: !Collide(s, i, j, t)
  }

  predicate OpenEnded(s: Store, a: Activation) {
    EffectiveEnd(s.terminations, a).None?
  }

  predicate BothOpenEnded(s: Store, i: nat, j: nat)
    requires i < |s.activations| && j < |s.activations|
  {
    SameSlot(s.activations[i], s.activations[j]) && OpenEnded(s, s.activations[i]) && OpenEnded(s, s.activations[j])
  }

  // Intervals collide only at the sentinel instant, and only when neither ends
  // and one of them starts there.
  lemma {:induction false} CollisionsAreAtTheSentinel(s: Store, i: nat, j: nat, t: Instant)
    requires Sound(s) && i < j < |s.activations| && Collide(s, i, j, t)
    ensures t == SENTINEL && BothOpenEnded(s, i, j)
    ensures s.activations[i].effectiveFrom == SENTINEL || s.activations[j].effectiveFrom == SENTINEL
  {
    assert !Crosses(s.terminations, s.activations[i], s.activations[j]);
  }

  lemma {:induction false} OpenEndedCollide(s: Store, i: nat, j: nat)
    requires i < j < |s.activations| && BothOpenEnded(s, i, j)
    ensures Collide(s, i, j, SENTINEL)
  {
  }

  // In every reachable store the intervals are disjoint exactly when no two
  // activations of one slot are both without an end.
  lemma {:induction false} DisjointExactlyWhen(calls: seq<Call>)
    ensures var s := Run(Empty, calls);
      Disjoint(s) <==> forall i, j | 0 <= i < j < |s.activations| :: !BothOpenEnded(s, i, j)
  {
    RunIsSound(calls);
    var s := Run(Empty, calls);
    if Disjoint(s) {
      forall i, j | 0 <= i < j < |s.activations| ensures !BothOpenEnded(s, i, j) {
        if BothOpenEnded(s, i, j) {
          OpenEndedCollide(s, i, j);
          assert false;
        }
      }
    }
    if forall i, j | 0 <= i < j < |s.activations| :: !BothOpenEnded(s, i, j) {
      forall i, j, t: Instant | 0 <= i < j < |s.activations| ensures !Collide(s, i, j, t) {
        if Collide(s, i, j, t) {
          CollisionsAreAtTheSentinel(s, i, j, t);
          assert false;
        }
      }
    }
  }

  // With every activation starting before the sentinel, no two ever collide.
  lemma {:induction false} DisjointBelowSentinel(calls: seq<Call>)
    requires forall k | 0 <= k < |Run(Empty, calls).activations| :: Run(Empty, calls).activations[k].effectiveFrom < SENTINEL
    ensures Disjoint(Run(Empty, calls))
  {
    RunIsSound(calls);
    var s := Run(Empty, calls);
    forall i, j, t: Instant | 0 <= i < j < |s.activations| ensures !Collide(s, i, j, t) {
      if Collide(s, i, j, t) {
        CollisionsAreAtTheSentinel(s, i, j, t);
        assert false;
      }
    }
  }

  // What a caller can check beforehand: an activation the store accepts keeps
  // the intervals disjoint unless it has no end and its slot already holds an
  // activation without one.
  lemma {:induction false} AcceptedKeepsDisjoint(calls: seq<Call>, operationId: Id, c: Command)
    requires c.Activate? && Disjoint(Run(Empty, calls))
    requires var s := Run(Empty, calls); Request(s, operationId, c).1 == Answered(ActivationAdded, false)
    requires c.activation.activationId !in Run(Empty, calls).terminations
    ensures var s := Run(Empty, calls);
      Disjoint(Request(s, operationId, c).0)
      <==> !(c.activation.effectiveTo.None? && exists k :: 0 <= k < |s.activations| && SameSlot(s.activations[k], c.activation) && OpenEnded(s, s.activations[k]))
  {
    var s := Run(Empty, calls);
    var s' := Request(s, operationId, c).0;
    RunIsSound(calls);
    RequestKeepsSound(s, operationId, c);
    assert s'.activations == s.activations + [c.activation] && s'.terminations == s.terminations;
    hide Request, Run, Disjoint, Sound;
    OneMoreActivation(s, s', c.activation);
  }

  lemma {:induction false} OneMoreActivation(s: Store, s': Store, a: Activation)
    requires Disjoint(s) && Sound(s') && s'.activations == s.activations + [a] && s'.terminations == s.terminations && a.activationId !in s.terminations
    ensures Disjoint(s') <==> !(a.effectiveTo.None? && exists k :: 0 <= k < |s.activations| && SameSlot(s.activations[k], a) && OpenEnded(s, s.activations[k]))
  {
    var n := |s.activations|;
    if k :| 0 <= k < n && SameSlot(s.activations[k], a) && OpenEnded(s, s.activations[k]) && a.effectiveTo.None? {
      OpenEndedCollide(s', k, n);
      assert Collide(s', k, n, SENTINEL);
    } else {
      forall i, j, t: Instant | 0 <= i < j < |s'.activations| ensures !Collide(s', i, j, t) {
        if j < n {
          assert !Collide(s, i, j, t);
        } else if Collide(s', i, j, t) {
          CollisionsAreAtTheSentinel(s', i, j, t);
          assert false;
        }
      }
    }
  }

  lemma {:induction false} OneMore(s: Store, calls: seq<Call>, c: Call)
    ensures Run(s, calls + [c]) == Request(Run(s, calls), c.operationId, c.command).0
  {
    assert (calls + [c])[..|calls + [c]| - 1] == calls;
  }

  // Parameter 7 with one scope and one value, and two activations without an
  // end for the same scope, the second from the sentinel instant.
  const ExampleDefinition := Definition(7, 5, [ScopePriority(3, 0)], FailClosed, None)
  const ExampleFirst := Activation(1, 7, Scope(3, 4), 0, None, 1)
  const ExampleSecond := Activation(2, 7, Scope(3, 4), SENTINEL, None, 1)
  const ExampleCalls := [
    Call(1, RegisterParameter(ExampleDefinition)), Call(2, PublishValue(7, 6, 0, 1)),
    Call(3, Activate(ExampleFirst, 2)), Call(4, Activate(ExampleSecond, 3))]

  lemma {:induction false} ExampleBeforeActivations()
    ensures var s := Run(Empty, ExampleCalls[..2]);
      && s.definitions == map[7 := ExampleDefinition] && s.values == map[7 := [ValueRelease(7, 6, 0, 1)]]
      && s.activations == [] && s.terminations == map[] && forall o | o in s.receipts :: o <= 2
  {
    var s1 := Request(Empty, 1, ExampleCalls[0].command).0;
    assert s1.definitions == map[7 := ExampleDefinition] && s1.receipts.Keys == {1} && s1.values == map[];
    assert ExampleCalls[..1] == [] + [ExampleCalls[0]] && ExampleCalls[..2] == ExampleCalls[..1] + [ExampleCalls[1]];
    OneMore(Empty, [], ExampleCalls[0]);
    OneMore(Empty, ExampleCalls[..1], ExampleCalls[1]);
    var s2 := Request(s1, 2, ExampleCalls[1].command).0;
    assert ReleasesOf(s1.values, 7) + [ValueRelease(7, 6, 0, 1)] == [ValueRelease(7, 6, 0, 1)];
    assert s2.values == map[7 := [ValueRelease(7, 6, 0, 1)]];
  }

  lemma {:induction false} ExampleAccepted(s: Store, op: Id, a: Activation, eventId: Id)
    requires s.definitions == map[7 := ExampleDefinition] && s.values == map[7 := [ValueRelease(7, 6, 0, 1)]]
    requires op !in s.receipts && a.parameterKey == 7 && a.scope == Scope(3, 4) && a.valueVersion == 1 && a.effectiveTo.None?
    requires !ClashesWithAny(s, a)
    ensures Request(s, op, Activate(a, eventId)).0.activations == s.activations + [a]
    ensures var s' := Request(s, op, Activate(a, eventId)).0;
      && s'.definitions == s.definitions && s'.values == s.values && s'.terminations == s.terminations
      && forall o :: o in s'.receipts ==> o in s.receipts || o == op
  {
    assert ExampleDefinition.allowedScopes[0].scopeType == 3;
    assert ReleasesOf(s.values, 7)[0].valueVersion == 1;
  }

  // Four calls, all accepted, after which two values are in force for one slot.
  lemma {:induction false} SentinelCollision()
    ensures var s := Run(Empty, ExampleCalls);
      && s.activations == [ExampleFirst, ExampleSecond]
      && Collide(s, 0, 1, SENTINEL)
  {
    ExampleBeforeActivations();
    var s2 := Run(Empty, ExampleCalls[..2]);
    assert ExampleCalls[..3] == ExampleCalls[..2] + [ExampleCalls[2]] && ExampleCalls == ExampleCalls[..3] + [ExampleCalls[3]];
    OneMore(Empty, ExampleCalls[..2], ExampleCalls[2]);
    OneMore(Empty, ExampleCalls[..3], ExampleCalls[3]);
    ExampleAccepted(s2, 3, ExampleFirst, 2);
    var s3 := Run(Empty, ExampleCalls[..3]);
    hide Request, Run;
    assert !ClashesWithAny(s3, ExampleSecond);
    ExampleAccepted(s3, 4, ExampleSecond, 3);
  }

  // ------------------------------------------------------------ terminations

  // The first of these activations ended at 10, asked for at 5; and the same
  // operation repeated at 11.
  const ExampleEnd := Terminate(1, 7, 10, 9, 5, 4)
  const ExampleRepeat := Terminate(1, 7, 10, 9, 11, 4)

  // The repetition comes after the end it asks for: the store would answer it
  // with the first result, the service refuses it.
  lemma {:induction false} LateRepetitionRefused()
    ensures var before := Run(Empty, ExampleCalls[..3]); var s := Run(Empty, ExampleCalls[..3] + [Call(5, ExampleEnd)]);
      && Request(before, 5, ExampleEnd).1 == Answered(ActivationTerminated(Termination(1, 7, 10, 5, 9)), false)
      && FingerprintOf(ExampleRepeat) == FingerprintOf(ExampleEnd)
      && Commit(s, 5, ExampleRepeat) == (s, Answered(ActivationTerminated(Termination(1, 7, 10, 5, 9)), true))
      && Request(s, 5, ExampleRepeat) == (s, Failed(InvalidInput))
  {
    ExampleBeforeActivations();
    assert ExampleCalls[..3] == ExampleCalls[..2] + [ExampleCalls[2]];
    OneMore(Empty, ExampleCalls[..2], ExampleCalls[2]);
    ExampleAccepted(Run(Empty, ExampleCalls[..2]), 3, ExampleFirst, 2);
    var before := Run(Empty, ExampleCalls[..3]);
    OneMore(Empty, ExampleCalls[..3], Call(5, ExampleEnd));
    hide Run;
    assert before.activations == [ExampleFirst] && 5 !in before.receipts;
    assert FirstNamed(before.activations, 1, 7) == Some(ExampleFirst);
  }

  // An accepted termination changes what is in force at no instant before its
  // end, ends the activation it names there, and touches no other activation.
  lemma {:induction false} TerminationEffect(s: Store, operationId: Id, c: Command, t: Instant)
    requires c.Terminate? && Request(s, operationId, c).1.Answered? && !Request(s, operationId, c).1.replayed
    ensures var s' := Request(s, operationId, c).0;
      && s'.activations == s.activations
      && (exists k :: 0 <= k < |s.activations| && Names(s.activations[k], c.activationId, c.parameterKey) && s.activations[k].effectiveFrom < c.effectiveTo)
      && (forall k | 0 <= k < |s.activations| ::
            InForce(s'.terminations, s.activations[k], t)
            == (InForce(s.terminations, s.activations[k], t) && (s.activations[k].activationId == c.activationId ==> t < c.effectiveTo)))
  {
    FirstNamedIsNamed(s.activations, c.activationId, c.parameterKey);
  }

  // Over a whole run: what is in force later was in force all along.
  lemma {:induction false} IntervalsOnlyShrink(calls: seq<Call>, more: seq<Call>, k: nat, t: Instant)
    requires k < |Run(Empty, calls).activations|
    ensures var s, s' := Run(Empty, calls), Run(Empty, calls + more);
      && k < |s'.activations| && s'.activations[k] == s.activations[k]
      && (InForce(s'.terminations, s'.activations[k], t) ==> InForce(s.terminations, s.activations[k], t))
  {
    RunSplits(Empty, calls, more);
    RunGrows(Empty, calls);
    RunGrows(Run(Empty, calls), more);
  }
}
