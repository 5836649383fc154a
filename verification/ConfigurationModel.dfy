// Business configuration: dictionary drafts and releases, parameter values,
// activations of a value for a scope over an interval, and receipts.
module ConfigurationModel {
  import opened Prelude

  type Id = nat

  // The last instant with a four-digit year, 9999-12-31T23:59:59.999Z. Instants
  // are ordered as their ISO text is, and no accepted text sorts after it.
  const SENTINEL: int := 253402300799999

  type Instant = t: int | t <= SENTINEL witness 0

  datatype Item = Item(code: Id, enabled: bool, caption: Id, order: nat)

  datatype Draft = Draft(dictionaryId: Id, ownerModule: Id, items: seq<Item>, revision: nat, updatedAt: Instant)

  datatype DictionaryRelease = DictionaryRelease(
    dictionaryId: Id, ownerModule: Id, items: seq<Item>, publishedAt: Instant, releaseVersion: nat)

  datatype ScopePriority = ScopePriority(scopeType: Id, priority: nat)

  datatype MissingPolicy = FailClosed | UseDefault

  datatype Definition = Definition(
    parameterKey: Id, ownerModule: Id, allowedScopes: seq<ScopePriority>, missingPolicy: MissingPolicy, defaultValue: Option<Id>)

  datatype ValueRelease = ValueRelease(parameterKey: Id, value: Id, publishedAt: Instant, valueVersion: nat)

  datatype Scope = Scope(scopeType: Id, scopeReference: Id)

  datatype Activation = Activation(
    activationId: Id, parameterKey: Id, scope: Scope, effectiveFrom: Instant, effectiveTo: Option<Instant>, valueVersion: nat)

  datatype Termination = Termination(
    activationId: Id, parameterKey: Id, effectiveTo: Instant, occurredAt: Instant, terminationId: Id)

  datatype EventKind = DictionaryPublished | ParameterPublished | ActivationChanged

  datatype Event = Event(kind: EventKind, resourceId: Id, version: nat)

  datatype Error = InvalidInput | NotFound | OperationConflict | Overlap | Missing

  datatype Command =
    | SaveDraft(dictionaryId: Id, ownerModule: Id, items: seq<Item>, expectedRevision: nat, updatedAt: Instant)
    | PublishDictionary(dictionaryId: Id, expectedRevision: nat, publishedAt: Instant, eventId: Id)
    | RegisterParameter(definition: Definition)
    | PublishValue(parameterKey: Id, value: Id, publishedAt: Instant, eventId: Id)
    | Activate(activation: Activation, eventId: Id)
    | Terminate(activationId: Id, parameterKey: Id, effectiveTo: Instant, terminationId: Id, occurredAt: Instant, eventId: Id)

  // What the service hashes. The hash is taken to be injective.
  datatype Fingerprint =
    | OfDraft(dictionaryId: Id, expectedRevision: nat, items: seq<Item>, ownerModule: Id)
    | OfDictionary(dictionaryId: Id, expectedRevision: nat)
    | OfDefinition(definition: Definition)
    | OfValue(parameterKey: Id, value: Id)
    | OfActivation(activation: Activation)
    | OfTermination(activationId: Id, effectiveTo: Instant, parameterKey: Id, terminationId: Id)

  function FingerprintOf(c: Command): Fingerprint {
    match c
    case SaveDraft(id, owner, items, expected, _) => OfDraft(id, expected, items, owner)
    case PublishDictionary(id, expected, _, _) => OfDictionary(id, expected)
    case RegisterParameter(definition) => OfDefinition(definition)
    case PublishValue(key, value, _, _) => OfValue(key, value)
    case Activate(activation, _) => OfActivation(activation)
    case Terminate(id, key, to, terminationId, _, _) => OfTermination(id, to, key, terminationId)
  }

  datatype OperationResult =
    | DraftSaved(draft: Draft)
    | DictionaryReleased(dictionaryRelease: DictionaryRelease)
    | ParameterRegistered(definition: Definition)
    | ValueReleased(valueRelease: ValueRelease)
    | ActivationAdded
    | ActivationTerminated(termination: Termination)

  datatype Receipt = Receipt(fingerprint: Fingerprint, result: OperationResult)

  datatype Store = Store(
    drafts: map<Id, Draft>,
    dictionaries: map<Id, seq<DictionaryRelease>>,
    definitions: map<Id, Definition>,
    values: map<Id, seq<ValueRelease>>,
    activations: seq<Activation>,
    terminations: map<Id, Termination>,
    receipts: map<Id, Receipt>,
    outbox: map<Id, Event>)

  const Empty := Store(map[], map[], map[], map[], [], map[], map[], map[])

  // ------------------------------------------------------------------ reading

  function ReleasesOf<T>(lists: map<Id, seq<T>>, key: Id): seq<T> {
    if key in lists then lists[key] else []
  }

  function Codes(items: seq<Item>): (r: set<Id>)
    ensures forall c :: c in r <==> exists i :: 0 <= i < |items| && items[i].code == c
  {
    if items == [] then {} else {items[0].code} + Codes(items[1..])
  }

  function AllCodes(releases: seq<DictionaryRelease>): (r: set<Id>)
    ensures forall c :: c in r <==> exists i :: 0 <= i < |releases| && c in Codes(releases[i].items)
  {
    if releases == [] then {} else Codes(releases[0].items) + AllCodes(releases[1..])
  }

  predicate HasVersion(releases: seq<ValueRelease>, version: nat) {
    exists i :: 0 <= i < |releases| && releases[i].valueVersion == version
  }

  function Earlier(a: Option<Instant>, b: Option<Instant>): Option<Instant> {
    if a.None? then b else if b.None? then a else if b.value < a.value then b else a
  }

  // Where an activation really ends; None when it never does.
  function EffectiveEnd(terminations: map<Id, Termination>, a: Activation): Option<Instant> {
    Earlier(a.effectiveTo, if a.activationId in terminations then Some(terminations[a.activationId].effectiveTo) else None)
  }

  predicate Before(t: Instant, end: Option<Instant>) {
    end.None? || t < end.value
  }

  predicate InForce(terminations: map<Id, Termination>, a: Activation, t: Instant) {
    a.effectiveFrom <= t && Before(t, EffectiveEnd(terminations, a))
  }

  predicate SameSlot(a: Activation, b: Activation) {
    a.parameterKey == b.parameterKey && a.scope == b.scope
  }

  function OrSentinel(end: Option<Instant>): Instant {
    if end.None? then SENTINEL else end.value
  }

  // The overlap test activate makes against one existing activation.
  predicate Clashes(terminations: map<Id, Termination>, current: Activation, candidate: Activation) {
    && SameSlot(current, candidate)
    && current.effectiveFrom < OrSentinel(candidate.effectiveTo)
    && candidate.effectiveFrom < OrSentinel(EffectiveEnd(terminations, current))
  }

  predicate ClashesWithAny(s: Store, candidate: Activation) {
    exists i :: 0 <= i < |s.activations| && Clashes(s.terminations, s.activations[i], candidate)
  }

  predicate Requested(scopes: seq<Scope>, a: Activation) {
    exists i :: 0 <= i < |scopes| && scopes[i] == a.scope
  }

  predicate Effective(terminations: map<Id, Termination>, a: Activation, key: Id, scopes: seq<Scope>, at: Instant) {
    a.parameterKey == key && Requested(scopes, a) && InForce(terminations, a, at)
  }

  // An activation as readers see it: with its effective end.
  function Materialize(terminations: map<Id, Termination>, a: Activation): Activation {
    a.(effectiveTo := EffectiveEnd(terminations, a))
  }

  function ListEffective(terminations: map<Id, Termination>, activations: seq<Activation>, key: Id, scopes: seq<Scope>, at: Instant): seq<Activation> {
    if activations == [] then []
    else
      var n := |activations| - 1;
      ListEffective(terminations, activations[..n], key, scopes, at) +
      (if Effective(terminations, activations[n], key, scopes, at) then [Materialize(terminations, activations[n])] else [])
  }

  predicate Names(a: Activation, activationId: Id, key: Id) {
    a.activationId == activationId && a.parameterKey == key
  }

  function FirstNamed(activations: seq<Activation>, activationId: Id, key: Id): Option<Activation> {
    if activations == [] then None
    else if Names(activations[0], activationId, key) then Some(activations[0])
    else FirstNamed(activations[1..], activationId, key)
  }

  // ------------------------------------------------------------------ writing

  datatype Performed = Refused(error: Error) | Performed(store: Store, result: OperationResult)

  function DoSaveDraft(s: Store, c: Command): Performed
    requires c.SaveDraft?
  {
    var revision := if c.dictionaryId in s.drafts then s.drafts[c.dictionaryId].revision else 0;
    if revision != c.expectedRevision || (c.dictionaryId in s.drafts && s.drafts[c.dictionaryId].ownerModule != c.ownerModule)
    then Refused(OperationConflict)
    else
      var draft := Draft(c.dictionaryId, c.ownerModule, c.items, c.expectedRevision + 1, c.updatedAt);
      Performed(s.(drafts := s.drafts[c.dictionaryId := draft]), DraftSaved(draft))
  }

  function DoPublishDictionary(s: Store, c: Command): Performed
    requires c.PublishDictionary?
  {
    if c.dictionaryId !in s.drafts || s.drafts[c.dictionaryId].revision != c.expectedRevision then Refused(OperationConflict)
    else
      var draft := s.drafts[c.dictionaryId];
      var releases := ReleasesOf(s.dictionaries, c.dictionaryId);
      if !(AllCodes(releases) <= Codes(draft.items)) then Refused(OperationConflict)
      else
        var r := DictionaryRelease(draft.dictionaryId, draft.ownerModule, draft.items, c.publishedAt, |releases| + 1);
        Performed(s.(dictionaries := s.dictionaries[draft.dictionaryId := releases + [r]],
                     outbox := s.outbox[c.eventId := Event(EventKind.DictionaryPublished, c.dictionaryId, r.releaseVersion)]),
                  DictionaryReleased(r))
  }

  function DoRegister(s: Store, c: Command): Performed
    requires c.RegisterParameter?
  {
    if c.definition.parameterKey in s.definitions then Refused(OperationConflict)
    else Performed(s.(definitions := s.definitions[c.definition.parameterKey := c.definition]), ParameterRegistered(c.definition))
  }

  function DoPublishValue(s: Store, c: Command): Performed
    requires c.PublishValue?
  {
    if c.parameterKey !in s.definitions then Refused(NotFound)
    else
      var releases := ReleasesOf(s.values, c.parameterKey);
      var r := ValueRelease(c.parameterKey, c.value, c.publishedAt, |releases| + 1);
      Performed(s.(values := s.values[c.parameterKey := releases + [r]],
                   outbox := s.outbox[c.eventId := Event(EventKind.ParameterPublished, c.parameterKey, r.valueVersion)]),
                ValueReleased(r))
  }

  function DoActivate(s: Store, c: Command): Performed
    requires c.Activate?
  {
    var a := c.activation;
    if a.parameterKey !in s.definitions || !HasVersion(ReleasesOf(s.values, a.parameterKey), a.valueVersion) then Refused(NotFound)
    else if ClashesWithAny(s, a) then Refused(Overlap)
    else Performed(s.(activations := s.activations + [a], outbox := s.outbox[c.eventId := Event(ActivationChanged, a.parameterKey, 0)]),
                   ActivationAdded)
  }

  function DoTerminate(s: Store, c: Command): Performed
    requires c.Terminate?
  {
    var found := FirstNamed(s.activations, c.activationId, c.parameterKey);
    if found.None? then Refused(NotFound)
    else
      var a := found.value;
      if || a.activationId in s.terminations || c.effectiveTo < c.occurredAt || c.effectiveTo <= a.effectiveFrom
         || (a.effectiveTo.Some? && c.effectiveTo > a.effectiveTo.value)
      then Refused(OperationConflict)
      else
        var t := Termination(a.activationId, a.parameterKey, c.effectiveTo, c.occurredAt, c.terminationId);
        Performed(s.(terminations := s.terminations[a.activationId := t],
                     outbox := s.outbox[c.eventId := Event(ActivationChanged, c.parameterKey, 0)]),
                  ActivationTerminated(t))
  }

  function Perform(s: Store, c: Command): Performed {
    match c
    case SaveDraft(_, _, _, _, _) => DoSaveDraft(s, c)
    case PublishDictionary(_, _, _, _) => DoPublishDictionary(s, c)
    case RegisterParameter(_) => DoRegister(s, c)
    case PublishValue(_, _, _, _) => DoPublishValue(s, c)
    case Activate(_, _) => DoActivate(s, c)
    case Terminate(_, _, _, _, _, _) => DoTerminate(s, c)
  }

  datatype Answer = Failed(error: Error) | Answered(result: OperationResult, replayed: bool)

  // A store operation: the receipt first, then the work, then the receipt.
  function Commit(s: Store, operationId: Id, c: Command): (Store, Answer) {
    if operationId in s.receipts then
      if s.receipts[operationId].fingerprint != FingerprintOf(c) then (s, Failed(OperationConflict))
      else (s, Answered(s.receipts[operationId].result, true))
    else
      match Perform(s, c)
      case Refused(error) => (s, Failed(error))
      case Performed(s', result) =>
        (s'.(receipts := s'.receipts[operationId := Receipt(FingerprintOf(c), result)]), Answered(result, false))
  }

  // ------------------------------------------------- what the service demands

  predicate DefinitionOk(d: Definition) {
    && d.allowedScopes != []
    && (forall i, j :: 0 <= i < j < |d.allowedScopes| ==> d.allowedScopes[i].priority != d.allowedScopes[j].priority)
    && (forall i, j :: 0 <= i < j < |d.allowedScopes| ==> d.allowedScopes[i].scopeType != d.allowedScopes[j].scopeType)
    && (d.missingPolicy.UseDefault? <==> d.defaultValue.Some?)
  }

  predicate ItemsOk(items: seq<Item>) {
    forall i, j :: 0 <= i < j < |items| ==> items[i].code != items[j].code
  }

  predicate Allows(d: Definition, scopeType: Id) {
    exists i :: 0 <= i < |d.allowedScopes| && d.allowedScopes[i].scopeType == scopeType
  }

  function ServiceCheck(s: Store, c: Command): Option<Error> {
    match c
    case SaveDraft(id, owner, items, expected, _) =>
      if !ItemsOk(items) then Some(InvalidInput)
      else if expected > 0 && (id !in s.drafts || s.drafts[id].ownerModule != owner) then Some(OperationConflict)
      else None
    case PublishDictionary(id, _, _, _) => if id !in s.drafts then Some(NotFound) else None
    case RegisterParameter(d) => if !DefinitionOk(d) then Some(InvalidInput) else None
    case PublishValue(key, _, _, _) => if key !in s.definitions then Some(NotFound) else None
    case Activate(a, _) =>
      if a.parameterKey !in s.definitions then Some(NotFound)
      else if !Allows(s.definitions[a.parameterKey], a.scope.scopeType) || (a.effectiveTo.Some? && a.effectiveTo.value <= a.effectiveFrom)
      then Some(InvalidInput)
      else None
    case Terminate(_, key, to, _, occurredAt, _) =>
      if key !in s.definitions then Some(NotFound)
      else if to < occurredAt then Some(InvalidInput)
      else None
  }

  // A service call that is authorised: its own checks, then the store.
  function Request(s: Store, operationId: Id, c: Command): (Store, Answer) {
    var refused := ServiceCheck(s, c);
    if refused.Some? then (s, Failed(refused.value)) else Commit(s, operationId, c)
  }

  datatype Call = Call(operationId: Id, command: Command)

  function Run(s: Store, calls: seq<Call>): Store
    decreases |calls|
  {
    if calls == [] then s
    else
      var n := |calls| - 1;
      Request(Run(s, calls[..n]), calls[n].operationId, calls[n].command).0
  }
}
