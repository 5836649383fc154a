// The configuration store: maps and lists changed in place, one operation a method.
module ConfigurationStore {
  import opened Prelude
  import opened ConfigurationModel

  class MemoryConfigurationStore {
    var drafts: map<Id, Draft>
    var dictionaries: map<Id, seq<DictionaryRelease>>
    var definitions: map<Id, Definition>
    var values: map<Id, seq<ValueRelease>>
    var activations: seq<Activation>
    var terminations: map<Id, Termination>
    var receipts: map<Id, Receipt>
    var outbox: map<Id, Event>

    constructor ()
      ensures View() == Empty
    {
      drafts, dictionaries, definitions, values := map[], map[], map[], map[];
      activations, terminations, receipts, outbox := [], map[], map[], map[];
    }

    function View(): Store
      reads this
    {
      Store(drafts, dictionaries, definitions, values, activations, terminations, receipts, outbox)
    }

    // The receipt of an earlier use of the operation id, if there is one.
    method Replay(operationId: Id, fingerprint: Fingerprint) returns (prior: Option<Answer>)
      ensures prior == if operationId !in receipts then None
                       else if receipts[operationId].fingerprint != fingerprint then Some(Failed(OperationConflict))
                       else Some(Answered(receipts[operationId].result, true))
    {
      if operationId !in receipts {
        return None;
      }
      if receipts[operationId].fingerprint != fingerprint {
        return Some(Failed(OperationConflict));
      }
      return Some(Answered(receipts[operationId].result, true));
    }

    method SaveDictionaryDraft(operationId: Id, dictionaryId: Id, ownerModule: Id, items: seq<Item>, expectedRevision: nat, updatedAt: Instant)
      returns (answer: Answer)
      modifies this
      ensures (View(), answer) == Commit(old(View()), operationId, SaveDraft(dictionaryId, ownerModule, items, expectedRevision, updatedAt))
    {
      var fingerprint := OfDraft(dictionaryId, expectedRevision, items, ownerModule);
      var prior := Replay(operationId, fingerprint);
      if prior.Some? {
        return prior.value;
      }
      var current := 0;
      if dictionaryId in drafts {
        current := drafts[dictionaryId].revision;
      }
      if current != expectedRevision || (dictionaryId in drafts && drafts[dictionaryId].ownerModule != ownerModule) {
        return Failed(OperationConflict);
      }
      var draft := Draft(dictionaryId, ownerModule, items, expectedRevision + 1, updatedAt);
      drafts := drafts[dictionaryId := draft];
      receipts := receipts[operationId := Receipt(fingerprint, DraftSaved(draft))];
      return Answered(DraftSaved(draft), false);
    }

    // The codes of all releases of a dictionary, gathered one release at a time.
    method PublishedCodes(releases: seq<DictionaryRelease>) returns (codes: set<Id>)
      ensures codes == AllCodes(releases)
    {
      codes := {};
      var i := |releases|;
      while i > 0
        invariant 0 <= i <= |releases|
        invariant codes == AllCodes(releases[i..])
      {
        i := i - 1;
        assert releases[i..][1..] == releases[i + 1..];
        codes := Codes(releases[i].items) + codes;
      }
      assert releases[0..] == releases;
    }

    method PublishDictionary(operationId: Id, dictionaryId: Id, expectedRevision: nat, publishedAt: Instant, eventId: Id) returns (answer: Answer)
      modifies this
      ensures (View(), answer) == Commit(old(View()), operationId, Command.PublishDictionary(dictionaryId, expectedRevision, publishedAt, eventId))
    {
      var fingerprint := OfDictionary(dictionaryId, expectedRevision);
      var prior := Replay(operationId, fingerprint);
      if prior.Some? {
        return prior.value;
      }
      if dictionaryId !in drafts || drafts[dictionaryId].revision != expectedRevision {
        return Failed(OperationConflict);
      }
      var draft := drafts[dictionaryId];
      var releases := ReleasesOf(dictionaries, dictionaryId);
      var oldCodes := PublishedCodes(releases);
      if !(oldCodes <= Codes(draft.items)) {
        return Failed(OperationConflict);
      }
      var release := DictionaryRelease(draft.dictionaryId, draft.ownerModule, draft.items, publishedAt, |releases| + 1);
      dictionaries := dictionaries[draft.dictionaryId := releases + [release]];
      outbox := outbox[eventId := Event(EventKind.DictionaryPublished, dictionaryId, release.releaseVersion)];
      receipts := receipts[operationId := Receipt(fingerprint, DictionaryReleased(release))];
      return Answered(DictionaryReleased(release), false);
    }

    method RegisterParameter(operationId: Id, definition: Definition) returns (answer: Answer)
      modifies this
      ensures (View(), answer) == Commit(old(View()), operationId, Command.RegisterParameter(definition))
    {
      var prior := Replay(operationId, OfDefinition(definition));
      if prior.Some? {
        return prior.value;
      }
      if definition.parameterKey in definitions {
        return Failed(OperationConflict);
      }
      definitions := definitions[definition.parameterKey := definition];
      receipts := receipts[operationId := Receipt(OfDefinition(definition), ParameterRegistered(definition))];
      return Answered(ParameterRegistered(definition), false);
    }

    method PublishParameterValue(operationId: Id, parameterKey: Id, value: Id, publishedAt: Instant, eventId: Id) returns (answer: Answer)
      modifies this
      ensures (View(), answer) == Commit(old(View()), operationId, PublishValue(parameterKey, value, publishedAt, eventId))
    {
      var prior := Replay(operationId, OfValue(parameterKey, value));
      if prior.Some? {
        return prior.value;
      }
      if parameterKey !in definitions {
        return Failed(NotFound);
      }
      var releases := ReleasesOf(values, parameterKey);
      var release := ValueRelease(parameterKey, value, publishedAt, |releases| + 1);
      values := values[parameterKey := releases + [release]];
      outbox := outbox[eventId := Event(EventKind.ParameterPublished, parameterKey, release.valueVersion)];
      receipts := receipts[operationId := Receipt(OfValue(parameterKey, value), ValueReleased(release))];
      return Answered(ValueReleased(release), false);
    }

    method FindParameterValue(parameterKey: Id, valueVersion: nat) returns (found: Option<ValueRelease>)
      ensures found.Some? <==> HasVersion(ReleasesOf(values, parameterKey), valueVersion)
      ensures found.Some? ==> found.value in ReleasesOf(values, parameterKey) && found.value.valueVersion == valueVersion
    {
      var releases := ReleasesOf(values, parameterKey);
      var i := 0;
      while i < |releases|
        invariant 0 <= i <= |releases|
        invariant forall j :: 0 <= j < i ==> releases[j].valueVersion != valueVersion
      {
        if releases[i].valueVersion == valueVersion {
          return Some(releases[i]);
        }
        i := i + 1;
      }
      return None;
    }

    method OverlapsExisting(candidate: Activation) returns (overlaps: bool)
      ensures overlaps == ClashesWithAny(View(), candidate)
    {
      var i := 0;
      while i < |activations|
        invariant 0 <= i <= |activations|
        invariant forall j :: 0 <= j < i ==> !Clashes(terminations, activations[j], candidate)
      {
        if Clashes(terminations, activations[i], candidate) {
          return true;
        }
        i := i + 1;
      }
      return false;
    }

    method Activate(operationId: Id, candidate: Activation, eventId: Id) returns (answer: Answer)
      modifies this
      ensures (View(), answer) == Commit(old(View()), operationId, Command.Activate(candidate, eventId))
    {
      var prior := Replay(operationId, OfActivation(candidate));
      if prior.Some? {
        return prior.value;
      }
      var release := FindParameterValue(candidate.parameterKey, candidate.valueVersion);
      if candidate.parameterKey !in definitions || release.None? {
        return Failed(NotFound);
      }
      var overlaps := OverlapsExisting(candidate);
      if overlaps {
        return Failed(Overlap);
      }
      activations := activations + [candidate];
      outbox := outbox[eventId := Event(ActivationChanged, candidate.parameterKey, 0)];
      receipts := receipts[operationId := Receipt(OfActivation(candidate), ActivationAdded)];
      return Answered(ActivationAdded, false);
    }

    method FindActivation(activationId: Id, parameterKey: Id) returns (found: Option<Activation>)
      ensures found == FirstNamed(activations, activationId, parameterKey)
    {
      var i := 0;
      while i < |activations|
        invariant 0 <= i <= |activations|
        invariant FirstNamed(activations, activationId, parameterKey) == FirstNamed(activations[i..], activationId, parameterKey)
      {
        if Names(activations[i], activationId, parameterKey) {
          return Some(activations[i]);
        }
        assert activations[i..][1..] == activations[i + 1..];
        i := i + 1;
      }
      return None;
    }

    method TerminateActivation(operationId: Id, activationId: Id, parameterKey: Id, effectiveTo: Instant, terminationId: Id, occurredAt: Instant, eventId: Id)
      returns (answer: Answer)
      modifies this
      ensures (View(), answer)
              == Commit(old(View()), operationId, Terminate(activationId, parameterKey, effectiveTo, terminationId, occurredAt, eventId))
    {
      var fingerprint := OfTermination(activationId, effectiveTo, parameterKey, terminationId);
      var prior := Replay(operationId, fingerprint);
      if prior.Some? {
        return prior.value;
      }
      var found := FindActivation(activationId, parameterKey);
      if found.None? {
        return Failed(NotFound);
      }
      var activation := found.value;
      if activation.activationId in terminations || effectiveTo < occurredAt || effectiveTo <= activation.effectiveFrom {
        return Failed(OperationConflict);
      }
      if activation.effectiveTo.Some? && effectiveTo > activation.effectiveTo.value {
        return Failed(OperationConflict);
      }
      var termination := Termination(activation.activationId, activation.parameterKey, effectiveTo, occurredAt, terminationId);
      terminations := terminations[activation.activationId := termination];
      outbox := outbox[eventId := Event(ActivationChanged, parameterKey, 0)];
      receipts := receipts[operationId := Receipt(fingerprint, ActivationTerminated(termination))];
      return Answered(ActivationTerminated(termination), false);
    }

    method ListEffectiveActivations(parameterKey: Id, scopes: seq<Scope>, at: Instant) returns (effective: seq<Activation>)
      ensures effective == ListEffective(terminations, activations, parameterKey, scopes, at)
    {
      effective := [];
      var i := 0;
      while i < |activations|
        invariant 0 <= i <= |activations|
        invariant effective == ListEffective(terminations, activations[..i], parameterKey, scopes, at)
      {
        assert activations[..i + 1][..i] == activations[..i];
        if Effective(terminations, activations[i], parameterKey, scopes, at) {
          effective := effective + [Materialize(terminations, activations[i])];
        }
        i := i + 1;
      }
      assert activations[..|activations|] == activations;
    }
  }

  // ---------------------------------------------------------------- validation

  // The uniqueness rules of a parameter definition, checked in one pass.
  method ValidateDefinition(d: Definition) returns (ok: bool)
    ensures ok <==> DefinitionOk(d)
  {
    var priorities: set<nat>, scopeTypes: set<Id> := {}, {};
    var i := 0;
    while i < |d.allowedScopes|
      invariant 0 <= i <= |d.allowedScopes|
      invariant forall p :: p in priorities <==> exists j :: 0 <= j < i && d.allowedScopes[j].priority == p
      invariant forall t :: t in scopeTypes <==> exists j :: 0 <= j < i && d.allowedScopes[j].scopeType == t
      invariant forall j, k :: 0 <= j < k < i ==> d.allowedScopes[j].priority != d.allowedScopes[k].priority
      invariant forall j, k :: 0 <= j < k < i ==> d.allowedScopes[j].scopeType != d.allowedScopes[k].scopeType
    {
      if d.allowedScopes[i].priority in priorities || d.allowedScopes[i].scopeType in scopeTypes {
        return false;
      }
      priorities, scopeTypes := priorities + {d.allowedScopes[i].priority}, scopeTypes + {d.allowedScopes[i].scopeType};
      i := i + 1;
    }
    if d.allowedScopes == [] || (d.missingPolicy.UseDefault? && d.defaultValue.None?) || (d.missingPolicy.FailClosed? && d.defaultValue.Some?) {
      return false;
    }
    return true;
  }

  method ValidateItems(items: seq<Item>) returns (ok: bool)
    ensures ok <==> ItemsOk(items)
  {
    var seen: set<Id> := {};
    var i := 0;
    while i < |items|
      invariant 0 <= i <= |items|
      invariant forall c :: c in seen <==> exists j :: 0 <= j < i && items[j].code == c
      invariant forall j, k :: 0 <= j < k < i ==> items[j].code != items[k].code
    {
      if items[i].code in seen {
        return false;
      }
      seen := seen + {items[i].code};
      i := i + 1;
    }
    return true;
  }
}
