// What every call of the configuration service keeps, and what only grows.
module ConfigurationInvariants {
  import opened ConfigurationModel

  // ------------------------------------------------------------ the invariant

  ghost predicate ReleasesNumbered(dictionaries: map<Id, seq<DictionaryRelease>>, values: map<Id, seq<ValueRelease>>) {
    && (forall d, i | d in dictionaries && 0 <= i < |dictionaries[d]| :: dictionaries[d][i].releaseVersion == i + 1)
    && (forall k, i | k in values && 0 <= i < |values[k]| :: values[k][i].valueVersion == i + 1)
  }

  // Every release keeps each code of every earlier release.
  ghost predicate CodesKept(dictionaries: map<Id, seq<DictionaryRelease>>) {
    forall d, i, j | d in dictionaries && 0 <= i < j < |dictionaries[d]| :: Codes(dictionaries[d][i].items) <= Codes(dictionaries[d][j].items)
  }

  // Two activations of one slot reach into each other before the sentinel.
  predicate Crosses(terminations: map<Id, Termination>, a: Activation, b: Activation) {
    && SameSlot(a, b)
    && a.effectiveFrom < OrSentinel(EffectiveEnd(terminations, b))
    && b.effectiveFrom < OrSentinel(EffectiveEnd(terminations, a))
  }

  ghost predicate Apart(activations: seq<Activation>, terminations: map<Id, Termination>) {
    forall i, j | 0 <= i < j < |activations| :: !Crosses(terminations, activations[i], activations[j])
  }

  ghost predicate Backed(a: Activation, definitions: map<Id, Definition>, values: map<Id, seq<ValueRelease>>) {
    && a.parameterKey in definitions
    && Allows(definitions[a.parameterKey], a.scope.scopeType)
    && HasVersion(ReleasesOf(values, a.parameterKey), a.valueVersion)
  }

  ghost predicate AllBacked(activations: seq<Activation>, definitions: map<Id, Definition>, values: map<Id, seq<ValueRelease>>) {
    forall i | 0 <= i < |activations| :: Backed(activations[i], definitions, values)
  }

  ghost predicate DefinitionsOk(definitions: map<Id, Definition>) {
    forall k | k in definitions :: DefinitionOk(definitions[k])
  }

  ghost predicate DraftsFiled(drafts: map<Id, Draft>) {
    forall d | d in drafts :: drafts[d].dictionaryId == d
  }

  // What the service's checks found when the call behind a receipt passed them.
  predicate Passed(drafts: map<Id, Draft>, definitions: map<Id, Definition>, f: Fingerprint) {
    match f
    case OfDraft(id, _, items, owner) => ItemsOk(items) && id in drafts && drafts[id].ownerModule == owner
    case OfDictionary(id, _) => id in drafts
    case OfDefinition(d) => DefinitionOk(d)
    case OfValue(key, _) => key in definitions
    case OfActivation(a) =>
      && a.parameterKey in definitions && Allows(definitions[a.parameterKey], a.scope.scopeType)
      && (a.effectiveTo.Some? ==> a.effectiveFrom < a.effectiveTo.value)
    case OfTermination(_, _, key, _) => key in definitions
  }

  ghost predicate ReceiptsPassed(receipts: map<Id, Receipt>, drafts: map<Id, Draft>, definitions: map<Id, Definition>) {
    forall op | op in receipts :: Passed(drafts, definitions, receipts[op].fingerprint)
  }

  ghost predicate Sound(s: Store) {
    && DraftsFiled(s.drafts)
    && ReleasesNumbered(s.dictionaries, s.values)
    && CodesKept(s.dictionaries)
    && Apart(s.activations, s.terminations)
    && AllBacked(s.activations, s.definitions, s.values)
    && DefinitionsOk(s.definitions)
    && ReceiptsPassed(s.receipts, s.drafts, s.definitions)
  }

  // ---------------------------------------------------------- growing only

  ghost predicate MapGrows<K, V>(m: map<K, V>, m': map<K, V>) {
    forall k | k in m :: k in m' && m'[k] == m[k]
  }

  ghost predicate ListsGrow<T>(m: map<Id, seq<T>>, m': map<Id, seq<T>>) {
    forall k | k in m :: k in m' && m[k] <= m'[k]
  }

  ghost predicate DraftsAdvance(m: map<Id, Draft>, m': map<Id, Draft>) {
    forall d | d in m :: d in m' && m'[d].ownerModule == m[d].ownerModule && m[d].revision <= m'[d].revision
  }

  ghost predicate Grows(s: Store, s': Store) {
    && DraftsAdvance(s.drafts, s'.drafts)
    && ListsGrow(s.dictionaries, s'.dictionaries)
    && MapGrows(s.definitions, s'.definitions)
    && ListsGrow(s.values, s'.values)
    && s.activations <= s'.activations
    && MapGrows(s.terminations, s'.terminations)
    && MapGrows(s.receipts, s'.receipts)
  }

  lemma {:induction false} PerformGrows(s: Store, c: Command)
    requires DraftsFiled(s.drafts) && Perform(s, c).Performed?
    ensures Grows(s, Perform(s, c).store) && DraftsFiled(Perform(s, c).store.drafts)
    ensures Perform(s, c).store.receipts == s.receipts
  {
    hide HasVersion, ClashesWithAny, FirstNamed;
    match c
    case SaveDraft(_, _, _, _, _) =>
    case PublishDictionary(_, _, _, _) =>
    case RegisterParameter(_) =>
    case PublishValue(_, _, _, _) =>
    case Activate(_, _) =>
    case Terminate(_, _, _, _, _, _) => FirstNamedIsNamed(s.activations, c.activationId, c.parameterKey);
  }

  lemma {:induction false} FirstNamedIsNamed(activations: seq<Activation>, activationId: Id, key: Id)
    ensures FirstNamed(activations, activationId, key).Some? ==>
              exists i :: 0 <= i < |activations| && activations[i] == FirstNamed(activations, activationId, key).value && Names(activations[i], activationId, key)
  {
    if activations != [] && !Names(activations[0], activationId, key) {
      FirstNamedIsNamed(activations[1..], activationId, key);
      if FirstNamed(activations, activationId, key).Some? {
        var i :| 0 <= i < |activations[1..]| && activations[1..][i] == FirstNamed(activations, activationId, key).value && Names(activations[1..][i], activationId, key);
        assert activations[i + 1] == activations[1..][i];
      }
    }
  }

  lemma {:induction false} RequestGrows(s: Store, operationId: Id, c: Command)
    requires DraftsFiled(s.drafts)
    ensures Grows(s, Request(s, operationId, c).0) && DraftsFiled(Request(s, operationId, c).0.drafts)
  {
    hide Perform, ServiceCheck;
    if ServiceCheck(s, c).None? && operationId !in s.receipts && Perform(s, c).Performed? {
      PerformGrows(s, c);
    }
  }

  lemma {:induction false} GrowsChains(s: Store, t: Store, u: Store)
    requires Grows(s, t) && Grows(t, u)
    ensures Grows(s, u)
  {
  }

  lemma {:induction false} RunGrows(s: Store, calls: seq<Call>)
    requires DraftsFiled(s.drafts)
    ensures Grows(s, Run(s, calls)) && DraftsFiled(Run(s, calls).drafts)
    decreases |calls|
  {
    if calls != [] {
      var n := |calls| - 1;
      RunGrows(s, calls[..n]);
      RequestGrows(Run(s, calls[..n]), calls[n].operationId, calls[n].command);
      hide Request, Grows, DraftsFiled;
      GrowsChains(s, Run(s, calls[..n]), Run(s, calls));
    }
  }

  lemma {:induction false} RunSplits(s: Store, a: seq<Call>, b: seq<Call>)
    ensures Run(s, a + b) == Run(Run(s, a), b)
    decreases |b|
  {
    hide Request;
    if b == [] {
      assert a + b == a;
    } else {
      var n := |b| - 1;
      RunSplits(s, a, b[..n]);
      assert (a + b)[..|a + b| - 1] == a + b[..n];
      assert (a + b)[|a + b| - 1] == b[n];
    }
  }

  // ----------------------------------------------------- each part is kept

  lemma {:induction false} PublishingKeepsCodes(s: Store, c: Command)
    requires c.PublishDictionary? && Perform(s, c).Performed? && DraftsFiled(s.drafts) && CodesKept(s.dictionaries)
    ensures CodesKept(Perform(s, c).store.dictionaries)
  {
    var releases := ReleasesOf(s.dictionaries, c.dictionaryId);
    var after: map<Id, seq<DictionaryRelease>> := Perform(s, c).store.dictionaries;
    hide Codes, AllCodes;
    forall d, i, j | d in after && 0 <= i < j < |after[d]| ensures Codes(after[d][i].items) <= Codes(after[d][j].items) {
      if d == c.dictionaryId && j == |releases| {
        assert after[d][i] == releases[i];
        assert Codes(releases[i].items) <= AllCodes(releases);
      }
    }
  }

  lemma {:induction false} PerformKeepsReleases(s: Store, c: Command)
    requires DraftsFiled(s.drafts) && ReleasesNumbered(s.dictionaries, s.values) && CodesKept(s.dictionaries) && Perform(s, c).Performed?
    ensures var s' := Perform(s, c).store; ReleasesNumbered(s'.dictionaries, s'.values) && CodesKept(s'.dictionaries)
  {
    hide Codes, AllCodes, HasVersion, ClashesWithAny, FirstNamed;
    if c.PublishDictionary? {
      hide CodesKept;
      PublishingKeepsCodes(s, c);
    } else if c.PublishValue? {
      hide CodesKept;
    } else {
      assert Perform(s, c).store.dictionaries == s.dictionaries && Perform(s, c).store.values == s.values;
    }
  }

  lemma {:induction false} ActivatingKeepsApart(s: Store, c: Command)
    requires c.Activate? && Perform(s, c).Performed? && Apart(s.activations, s.terminations)
    ensures Apart(Perform(s, c).store.activations, s.terminations)
  {
    var after := s.activations + [c.activation];
    forall i, j | 0 <= i < j < |after| ensures !Crosses(s.terminations, after[i], after[j]) {
      if j == |s.activations| {
        assert !Clashes(s.terminations, s.activations[i], c.activation);
      }
    }
  }

  // A termination moves no effective end to a later instant.
  lemma {:induction false} TerminatingShortens(s: Store, c: Command, a: Activation)
    requires c.Terminate? && Perform(s, c).Performed?
    ensures var after := Perform(s, c).store.terminations;
      && OrSentinel(EffectiveEnd(after, a)) <= OrSentinel(EffectiveEnd(s.terminations, a))
      && (forall t: Instant :: InForce(after, a, t) ==> InForce(s.terminations, a, t))
      && (forall t: Instant | t < c.effectiveTo :: InForce(after, a, t) == InForce(s.terminations, a, t))
  {
  }

  lemma {:induction false} TerminatingKeepsApart(s: Store, c: Command)
    requires c.Terminate? && Perform(s, c).Performed? && Apart(s.activations, s.terminations)
    ensures Apart(s.activations, Perform(s, c).store.terminations)
  {
    var after := Perform(s, c).store.terminations;
    forall i, j | 0 <= i < j < |s.activations| ensures !Crosses(after, s.activations[i], s.activations[j]) {
      TerminatingShortens(s, c, s.activations[i]);
      TerminatingShortens(s, c, s.activations[j]);
      assert !Crosses(s.terminations, s.activations[i], s.activations[j]);
    }
  }

  lemma {:induction false} PerformKeepsApart(s: Store, c: Command)
    requires Apart(s.activations, s.terminations) && Perform(s, c).Performed?
    ensures var s' := Perform(s, c).store; Apart(s'.activations, s'.terminations)
  {
    hide Apart, HasVersion, ClashesWithAny, FirstNamed, AllCodes, Codes;
    if c.Activate? {
      ActivatingKeepsApart(s, c);
    } else if c.Terminate? {
      TerminatingKeepsApart(s, c);
    }
  }

  lemma {:induction false} PerformKeepsBacked(s: Store, c: Command)
    requires DraftsFiled(s.drafts) && AllBacked(s.activations, s.definitions, s.values)
    requires ServiceCheck(s, c).None? && Perform(s, c).Performed?
    ensures var s' := Perform(s, c).store; AllBacked(s'.activations, s'.definitions, s'.values)
  {
    var s' := Perform(s, c).store;
    PerformGrows(s, c);
    hide ClashesWithAny, FirstNamed, AllCodes, Codes, DraftsFiled, DefinitionOk, ItemsOk;
    forall i | 0 <= i < |s'.activations| ensures Backed(s'.activations[i], s'.definitions, s'.values) {
      if i < |s.activations| {
        assert s'.activations[i] == s.activations[i];
        BackedStays(s.activations[i], s, s');
      }
    }
  }

  lemma {:induction false} BackedStays(a: Activation, s: Store, s': Store)
    requires Backed(a, s.definitions, s.values) && Grows(s, s')
    ensures Backed(a, s'.definitions, s'.values)
  {
    var before := ReleasesOf(s.values, a.parameterKey);
    var i :| 0 <= i < |before| && before[i].valueVersion == a.valueVersion;
    assert ReleasesOf(s'.values, a.parameterKey)[i] == before[i];
  }

  lemma {:induction false} PassedStays(s: Store, s': Store, f: Fingerprint)
    requires Grows(s, s') && Passed(s.drafts, s.definitions, f)
    ensures Passed(s'.drafts, s'.definitions, f)
  {
  }

  lemma {:induction false} CheckedPasses(s: Store, c: Command)
    requires DraftsFiled(s.drafts) && ServiceCheck(s, c).None? && Perform(s, c).Performed?
    ensures Passed(Perform(s, c).store.drafts, Perform(s, c).store.definitions, FingerprintOf(c))
  {
    hide ClashesWithAny, FirstNamed, AllCodes, Codes, HasVersion, DefinitionOk, ItemsOk, Allows;
  }

  lemma {:induction false} PerformKeepsDefinitions(s: Store, c: Command)
    requires DefinitionsOk(s.definitions) && ServiceCheck(s, c).None? && Perform(s, c).Performed?
    ensures DefinitionsOk(Perform(s, c).store.definitions)
  {
    hide ClashesWithAny, FirstNamed, AllCodes, Codes, HasVersion, DefinitionOk, ItemsOk, Allows;
  }

  lemma {:induction false} RequestKeepsSound(s: Store, operationId: Id, c: Command)
    requires Sound(s)
    ensures Sound(Request(s, operationId, c).0)
  {
    var s' := Request(s, operationId, c).0;
    RequestGrows(s, operationId, c);
    if ServiceCheck(s, c).None? && operationId !in s.receipts && Perform(s, c).Performed? {
      PerformKeepsReleases(s, c);
      PerformKeepsApart(s, c);
      PerformKeepsBacked(s, c);
      PerformKeepsDefinitions(s, c);
      CheckedPasses(s, c);
      PerformGrows(s, c);
      hide Perform, ServiceCheck, Apart, AllBacked, DefinitionsOk, CodesKept, ReleasesNumbered, Passed, DraftsFiled;
      forall op | op in s'.receipts ensures Passed(s'.drafts, s'.definitions, s'.receipts[op].fingerprint) {
        if op != operationId {
          PassedStays(s, s', s.receipts[op].fingerprint);
        }
      }
    }
  }

  lemma {:induction false} RunIsSound(calls: seq<Call>)
    ensures Sound(Run(Empty, calls))
    decreases |calls|
  {
    if calls != [] {
      var n := |calls| - 1;
      RunIsSound(calls[..n]);
      hide Sound, Request;
      RequestKeepsSound(Run(Empty, calls[..n]), calls[n].operationId, calls[n].command);
    }
  }
}
