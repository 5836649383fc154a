// Resolving a parameter: the one activation in force with the highest scope priority, or the default.
module ConfigurationResolution {
  import opened Prelude
  import opened ConfigurationModel
  import opened ConfigurationStore
  import opened ConfigurationInvariants
  import opened ConfigurationTheorems

  datatype Resolved =
    | FromDefault(parameterKey: Id, value: Id)
    | FromActivation(activationId: Id, effectiveFrom: Instant, effectiveTo: Option<Instant>, parameterKey: Id, scope: Scope, value: Id, valueVersion: nat)

  datatype Resolution = Unresolved(error: Error) | Resolved(resolved: Resolved)

  // A later entry for a scope type would win, as in a map built from pairs.
  function PriorityOf(scopes: seq<ScopePriority>, scopeType: Id): int {
    if scopes == [] then -1
    else
      var n := |scopes| - 1;
      if scopes[n].scopeType == scopeType then scopes[n].priority else PriorityOf(scopes[..n], scopeType)
  }

  function Rank(d: Definition, a: Activation): int {
    PriorityOf(d.allowedScopes, a.scope.scopeType)
  }

  function HigherFirst(d: Definition): (Activation, Activation) -> bool {
    (a: Activation, b: Activation) => Rank(d, a) >= Rank(d, b)
  }

  function Selected(d: Definition, effective: seq<Activation>): Option<Activation> {
    var sorted := Sort(HigherFirst(d), effective);
    if sorted == [] then None else Some(sorted[0])
  }

  function FindValue(releases: seq<ValueRelease>, version: nat): Option<ValueRelease> {
    if releases == [] then None
    else if releases[0].valueVersion == version then Some(releases[0])
    else FindValue(releases[1..], version)
  }

  function ResolveFrom(s: Store, d: Definition, key: Id, effective: seq<Activation>): Resolution {
    match Selected(d, effective)
    case None =>
      if d.missingPolicy.FailClosed? || d.defaultValue.None? then Unresolved(Missing) else Resolved(FromDefault(key, d.defaultValue.value))
    case Some(a) =>
      match FindValue(ReleasesOf(s.values, key), a.valueVersion)
      case None => Unresolved(Missing)
      case Some(r) => Resolved(FromActivation(a.activationId, a.effectiveFrom, a.effectiveTo, key, a.scope, r.value, r.valueVersion))
  }

  predicate ScopesOk(scopes: seq<Scope>) {
    |scopes| <= 20 && forall i, j :: 0 <= i < j < |scopes| ==> scopes[i].scopeType != scopes[j].scopeType
  }

  function Resolve(s: Store, key: Id, scopes: seq<Scope>, at: Instant): Resolution {
    if !ScopesOk(scopes) then Unresolved(InvalidInput)
    else if key !in s.definitions then Unresolved(NotFound)
    else ResolveFrom(s, s.definitions[key], key, ListEffective(s.terminations, s.activations, key, scopes, at))
  }

  // The service reads the cache and the store; a cached result is used only when
  // it equals what the store says.
  class ConfigurationService {
    const store: MemoryConfigurationStore

    constructor (s: MemoryConfigurationStore)
      ensures store == s
    {
      store := s;
    }

    method ResolveParameter(key: Id, scopes: seq<Scope>, at: Instant, cached: Option<Resolved>) returns (r: Resolution)
      ensures r == Resolve(store.View(), key, scopes, at)
    {
      if !ScopesOk(scopes) {
        return Unresolved(InvalidInput);
      }
      if key !in store.definitions {
        return Unresolved(NotFound);
      }
      var definition := store.definitions[key];
      var activations := store.ListEffectiveActivations(key, scopes, at);
      var selected := Selected(definition, activations);
      var result;
      if selected.None? {
        if definition.missingPolicy.FailClosed? || definition.defaultValue.None? {
          return Unresolved(Missing);
        }
        result := FromDefault(key, definition.defaultValue.value);
      } else {
        var a := selected.value;
        var release := FindValue(ReleasesOf(store.values, key), a.valueVersion);
        if release.None? {
          return Unresolved(Missing);
        }
        result := FromActivation(a.activationId, a.effectiveFrom, a.effectiveTo, key, a.scope, release.value.value, release.value.valueVersion);
      }
      return Resolved(if cached.Some? && cached.value == result then cached.value else result);
    }
  }

  // --------------------------------------------------------------- priorities

  lemma {:induction false} PriorityIsTheOne(scopes: seq<ScopePriority>, k: nat)
    requires k < |scopes|
    requires forall i, j :: 0 <= i < j < |scopes| ==> scopes[i].scopeType != scopes[j].scopeType
    ensures PriorityOf(scopes, scopes[k].scopeType) == scopes[k].priority
    decreases |scopes|
  {
    var n := |scopes| - 1;
    if k < n {
      PriorityIsTheOne(scopes[..n], k);
    }
  }

  // Activations of different allowed scope types never tie.
  lemma {:induction false} RanksDiffer(d: Definition, a: Activation, b: Activation)
    requires DefinitionOk(d) && Allows(d, a.scope.scopeType) && Allows(d, b.scope.scopeType)
    requires a.scope.scopeType != b.scope.scopeType
    ensures Rank(d, a) != Rank(d, b)
  {
    var i :| 0 <= i < |d.allowedScopes| && d.allowedScopes[i].scopeType == a.scope.scopeType;
    var j :| 0 <= j < |d.allowedScopes| && d.allowedScopes[j].scopeType == b.scope.scopeType;
    PriorityIsTheOne(d.allowedScopes, i);
    PriorityIsTheOne(d.allowedScopes, j);
    assert if i < j then d.allowedScopes[i].priority != d.allowedScopes[j].priority else d.allowedScopes[j].priority != d.allowedScopes[i].priority;
  }

  // ----------------------------------------------------------- what is listed

  lemma {:induction false} ListedExactly(terminations: map<Id, Termination>, activations: seq<Activation>, key: Id, scopes: seq<Scope>, at: Instant, x: Activation)
    ensures x in ListEffective(terminations, activations, key, scopes, at) <==>
            exists k :: 0 <= k < |activations| && Effective(terminations, activations[k], key, scopes, at) && x == Materialize(terminations, activations[k])
    decreases |activations|
  {
    hide Effective, Materialize;
    if activations != [] {
      var n := |activations| - 1;
      ListedExactly(terminations, activations[..n], key, scopes, at, x);
      if k :| 0 <= k < |activations| && Effective(terminations, activations[k], key, scopes, at) && x == Materialize(terminations, activations[k]) {
        if k < n {
          assert activations[..n][k] == activations[k];
        }
      }
      if k :| 0 <= k < n && Effective(terminations, activations[..n][k], key, scopes, at) && x == Materialize(terminations, activations[..n][k]) {
        assert activations[..n][k] == activations[k];
      }
    }
  }

  ghost predicate TypesDiffer(list: seq<Activation>) {
    forall i, j | 0 <= i < j < |list| :: list[i].scope.scopeType != list[j].scope.scopeType
  }

  ghost predicate NoneCollide(activations: seq<Activation>, terminations: map<Id, Termination>, at: Instant) {
    forall i, j | 0 <= i < j < |activations| ::
      !(SameSlot(activations[i], activations[j]) && InForce(terminations, activations[i], at) && InForce(terminations, activations[j], at))
  }

  lemma {:induction false} RequestedTypesDiffer(scopes: seq<Scope>, a: Activation, b: Activation)
    requires ScopesOk(scopes) && Requested(scopes, a) && Requested(scopes, b) && a.scope != b.scope
    ensures a.scope.scopeType != b.scope.scopeType
  {
    var i :| 0 <= i < |scopes| && scopes[i] == a.scope;
    var j :| 0 <= j < |scopes| && scopes[j] == b.scope;
    if i < j {
      assert scopes[i].scopeType != scopes[j].scopeType;
    } else {
      assert scopes[j].scopeType != scopes[i].scopeType;
    }
  }

  lemma {:induction false} ListedTypesDiffer(terminations: map<Id, Termination>, activations: seq<Activation>, key: Id, scopes: seq<Scope>, at: Instant)
    requires ScopesOk(scopes) && NoneCollide(activations, terminations, at)
    ensures TypesDiffer(ListEffective(terminations, activations, key, scopes, at))
    decreases |activations|
  {
    if activations != [] {
      var n := |activations| - 1;
      var before := activations[..n];
      ListedTypesDiffer(terminations, before, key, scopes, at);
      var list := ListEffective(terminations, activations, key, scopes, at);
      hide InForce, Requested;
      forall i, j | 0 <= i < j < |list| ensures list[i].scope.scopeType != list[j].scope.scopeType {
        var rest := ListEffective(terminations, before, key, scopes, at);
        assert list[i] == rest[i];
        if j == |rest| {
          ListedExactly(terminations, before, key, scopes, at, rest[i]);
          var k :| 0 <= k < |before| && Effective(terminations, before[k], key, scopes, at) && rest[i] == Materialize(terminations, before[k]);
          assert !SameSlot(activations[k], activations[n]);
          RequestedTypesDiffer(scopes, activations[k], activations[n]);
        } else {
          assert list[j] == rest[j];
        }
      }
    }
  }

  lemma {:induction false} NoneCollideThen(s: Store, at: Instant)
    requires Sound(s) && (at < SENTINEL || Disjoint(s))
    ensures NoneCollide(s.activations, s.terminations, at)
  {
    hide Sound, InForce;
    forall i, j | 0 <= i < j < |s.activations|
      ensures !(SameSlot(s.activations[i], s.activations[j]) && InForce(s.terminations, s.activations[i], at) && InForce(s.terminations, s.activations[j], at))
    {
      if Collide(s, i, j, at) {
        CollisionsAreAtTheSentinel(s, i, j, at);
      }
    }
  }

  // ------------------------------------------------------------ the selection

  lemma {:induction false} HigherFirstTotal(d: Definition)
    ensures TotalPreorder(HigherFirst(d))
  {
    hide Rank;
  }

  ghost predicate RanksApart(d: Definition, list: seq<Activation>) {
    forall i, j | 0 <= i < j < |list| :: Rank(d, list[i]) != Rank(d, list[j])
  }

  lemma {:induction false} RanksSeparate(d: Definition, list: seq<Activation>)
    requires RanksApart(d, list)
    ensures SeparatesElementsOf(HigherFirst(d), multiset(list))
  {
    hide Rank;
    forall a, b | a in multiset(list) && b in multiset(list) && HigherFirst(d)(a, b) && HigherFirst(d)(b, a) ensures a == b {
      assert a in list && b in list;
      var i :| 0 <= i < |list| && list[i] == a;
      var j :| 0 <= j < |list| && list[j] == b;
      assert Rank(d, list[i]) == Rank(d, list[j]);
    }
  }

  lemma {:induction false} SelectedIsHighest(d: Definition, list: seq<Activation>)
    requires list != []
    ensures Selected(d, list).Some? && Selected(d, list).value in list
    ensures forall a | a in list :: Rank(d, Selected(d, list).value) >= Rank(d, a)
  {
    hide Rank;
    var sorted := Sort(HigherFirst(d), list);
    HigherFirstTotal(d);
    SortSorted(HigherFirst(d), list);
    SortMembers(HigherFirst(d), list);
    SortContents(HigherFirst(d), list);
    forall a | a in list ensures Rank(d, sorted[0]) >= Rank(d, a) {
      var k :| 0 <= k < |sorted| && sorted[k] == a;
      if k > 0 {
        assert HigherFirst(d)(sorted[0], sorted[k]);
      }
    }
  }

  lemma {:induction false} ListedRanksApart(s: Store, key: Id, scopes: seq<Scope>, at: Instant)
    requires Sound(s) && (at < SENTINEL || Disjoint(s)) && key in s.definitions && ScopesOk(scopes)
    ensures RanksApart(s.definitions[key], ListEffective(s.terminations, s.activations, key, scopes, at))
  {
    var list := ListEffective(s.terminations, s.activations, key, scopes, at);
    var d := s.definitions[key];
    NoneCollideThen(s, at);
    ListedTypesDiffer(s.terminations, s.activations, key, scopes, at);
    assert AllBacked(s.activations, s.definitions, s.values) && DefinitionOk(d);
    hide Sound, Disjoint, InForce, Requested, NoneCollide, Rank, DefinitionOk, ScopesOk, AllBacked;
    forall i, j | 0 <= i < j < |list| ensures Rank(d, list[i]) != Rank(d, list[j]) {
      ListedIsAllowed(s, key, scopes, at, list[i]);
      ListedIsAllowed(s, key, scopes, at, list[j]);
      RanksDiffer(d, list[i], list[j]);
    }
  }

  lemma {:induction false} ListedIsAllowed(s: Store, key: Id, scopes: seq<Scope>, at: Instant, x: Activation)
    requires AllBacked(s.activations, s.definitions, s.values) && key in s.definitions
    requires x in ListEffective(s.terminations, s.activations, key, scopes, at)
    ensures Allows(s.definitions[key], x.scope.scopeType) && HasVersion(ReleasesOf(s.values, key), x.valueVersion)
  {
    ListedExactly(s.terminations, s.activations, key, scopes, at, x);
    var k :| 0 <= k < |s.activations| && Effective(s.terminations, s.activations[k], key, scopes, at) && x == Materialize(s.terminations, s.activations[k]);
    assert Backed(s.activations[k], s.definitions, s.values);
  }

  // The order in which the store lists the activations does not matter.
  lemma {:induction false} ResolutionIgnoresOrder(calls: seq<Call>, key: Id, scopes: seq<Scope>, at: Instant, list: seq<Activation>)
    requires var s := Run(Empty, calls);
      && key in s.definitions && ScopesOk(scopes) && (at < SENTINEL || Disjoint(s))
      && multiset(list) == multiset(ListEffective(s.terminations, s.activations, key, scopes, at))
    ensures var s := Run(Empty, calls); ResolveFrom(s, s.definitions[key], key, list) == Resolve(s, key, scopes, at)
  {
    RunIsSound(calls);
    var s := Run(Empty, calls);
    var d := s.definitions[key];
    var effective := ListEffective(s.terminations, s.activations, key, scopes, at);
    ListedRanksApart(s, key, scopes, at);
    RanksSeparate(d, effective);
    HigherFirstTotal(d);
    SortForgetsOrder(HigherFirst(d), effective, list);
  }

  lemma {:induction false} FindValueAt(releases: seq<ValueRelease>, version: nat, first: nat)
    requires forall i | 0 <= i < |releases| :: releases[i].valueVersion == first + i
    requires HasVersion(releases, version)
    ensures first <= version < first + |releases| && FindValue(releases, version) == Some(releases[version - first])
  {
    if releases[0].valueVersion != version {
      var i :| 0 <= i < |releases| && releases[i].valueVersion == version;
      assert releases[1..][i - 1] == releases[i];
      FindValueAt(releases[1..], version, first + 1);
    }
  }

  // An activation that is in force for a requested scope, with every other such
  // activation of the parameter strictly below it.
  ghost predicate Best(s: Store, k: nat, key: Id, scopes: seq<Scope>, at: Instant)
    requires k < |s.activations| && key in s.definitions
  {
    && Effective(s.terminations, s.activations[k], key, scopes, at)
    && forall j | 0 <= j < |s.activations| && j != k && Effective(s.terminations, s.activations[j], key, scopes, at) ::
         Rank(s.definitions[key], s.activations[j]) < Rank(s.definitions[key], s.activations[k])
  }

  lemma {:induction false} EffectiveIsListed(s: Store, key: Id, scopes: seq<Scope>, at: Instant, k: nat)
    requires AllBacked(s.activations, s.definitions, s.values) && key in s.definitions
    requires k < |s.activations| && Effective(s.terminations, s.activations[k], key, scopes, at)
    ensures Materialize(s.terminations, s.activations[k]) in ListEffective(s.terminations, s.activations, key, scopes, at)
    ensures Allows(s.definitions[key], s.activations[k].scope.scopeType)
  {
    ListedExactly(s.terminations, s.activations, key, scopes, at, Materialize(s.terminations, s.activations[k]));
    assert Backed(s.activations[k], s.definitions, s.values);
  }

  lemma {:induction false} EffectiveNeverTie(s: Store, key: Id, scopes: seq<Scope>, at: Instant, j: nat, k: nat)
    requires NoneCollide(s.activations, s.terminations, at) && ScopesOk(scopes)
    requires AllBacked(s.activations, s.definitions, s.values) && key in s.definitions && DefinitionOk(s.definitions[key])
    requires j < k < |s.activations|
    requires Effective(s.terminations, s.activations[j], key, scopes, at) && Effective(s.terminations, s.activations[k], key, scopes, at)
    ensures Rank(s.definitions[key], s.activations[j]) != Rank(s.definitions[key], s.activations[k])
  {
    EffectiveIsListed(s, key, scopes, at, j);
    EffectiveIsListed(s, key, scopes, at, k);
    hide Requested, ScopesOk, Rank, DefinitionOk, AllBacked, InForce, Allows;
    assert !SameSlot(s.activations[j], s.activations[k]);
    RequestedTypesDiffer(scopes, s.activations[j], s.activations[k]);
    RanksDiffer(s.definitions[key], s.activations[j], s.activations[k]);
  }

  lemma {:induction false} RankIgnoresEnd(d: Definition, a: Activation, terminations: map<Id, Termination>)
    ensures Rank(d, Materialize(terminations, a)) == Rank(d, a)
  {
  }

  lemma {:induction false} SelectedIsBest(s: Store, key: Id, scopes: seq<Scope>, at: Instant) returns (k: nat)
    requires Sound(s) && (at < SENTINEL || Disjoint(s)) && key in s.definitions && ScopesOk(scopes)
    requires ListEffective(s.terminations, s.activations, key, scopes, at) != []
    ensures k < |s.activations| && Best(s, k, key, scopes, at)
    ensures Selected(s.definitions[key], ListEffective(s.terminations, s.activations, key, scopes, at)) == Some(Materialize(s.terminations, s.activations[k]))
  {
    var d := s.definitions[key];
    var list := ListEffective(s.terminations, s.activations, key, scopes, at);
    SelectedIsHighest(d, list);
    var x := Selected(d, list).value;
    ListedExactly(s.terminations, s.activations, key, scopes, at, x);
    k :| 0 <= k < |s.activations| && Effective(s.terminations, s.activations[k], key, scopes, at) && x == Materialize(s.terminations, s.activations[k]);
    NoneCollideThen(s, at);
    assert AllBacked(s.activations, s.definitions, s.values) && DefinitionOk(d);
    hide Sound, Disjoint, Effective, Rank, DefinitionOk, ScopesOk, Selected, AllBacked, Materialize, NoneCollide;
    forall j | 0 <= j < |s.activations| && j != k && Effective(s.terminations, s.activations[j], key, scopes, at)
      ensures Rank(d, s.activations[j]) < Rank(d, s.activations[k])
    {
      EffectiveIsListed(s, key, scopes, at, j);
      RankIgnoresEnd(d, s.activations[j], s.terminations);
      RankIgnoresEnd(d, s.activations[k], s.terminations);
      if j < k {
        EffectiveNeverTie(s, key, scopes, at, j, k);
      } else {
        EffectiveNeverTie(s, key, scopes, at, k, j);
      }
    }
  }

  lemma {:induction false} NothingListed(s: Store, key: Id, scopes: seq<Scope>, at: Instant)
    ensures ListEffective(s.terminations, s.activations, key, scopes, at) == []
            <==> forall k | 0 <= k < |s.activations| :: !Effective(s.terminations, s.activations[k], key, scopes, at)
  {
    var list := ListEffective(s.terminations, s.activations, key, scopes, at);
    hide Effective, Materialize, ListEffective;
    if list != [] {
      ListedExactly(s.terminations, s.activations, key, scopes, at, list[0]);
    }
    forall k | 0 <= k < |s.activations| && Effective(s.terminations, s.activations[k], key, scopes, at) ensures list != [] {
      ListedExactly(s.terminations, s.activations, key, scopes, at, Materialize(s.terminations, s.activations[k]));
    }
  }

  // The result a chosen activation leads to; its value is there.
  ghost predicate ResolvesTo(s: Store, key: Id, a: Activation, r: Resolution) {
    && 1 <= a.valueVersion <= |ReleasesOf(s.values, key)|
    && r == Resolved(FromActivation(a.activationId, a.effectiveFrom, EffectiveEnd(s.terminations, a), key, a.scope,
                                    ReleasesOf(s.values, key)[a.valueVersion - 1].value, a.valueVersion))
  }

  lemma {:induction false} SelectedResolves(s: Store, d: Definition, key: Id, list: seq<Activation>, a: Activation)
    requires Sound(s) && HasVersion(ReleasesOf(s.values, key), a.valueVersion)
    requires Selected(d, list) == Some(Materialize(s.terminations, a))
    ensures ResolvesTo(s, key, a, ResolveFrom(s, d, key, list))
  {
    ValuesNumbered(s, key);
    hide Sound, Selected, EffectiveEnd;
    FindValueAt(ReleasesOf(s.values, key), a.valueVersion, 1);
  }

  // What resolving means: with nothing in force the default, or an error where
  // there is none; otherwise the value, which always exists, of the one
  // activation in force that outranks all others.
  lemma {:induction false} ResolutionFollowsPriority(calls: seq<Call>, key: Id, scopes: seq<Scope>, at: Instant)
    requires var s := Run(Empty, calls); key in s.definitions && ScopesOk(scopes) && (at < SENTINEL || Disjoint(s))
    ensures var s := Run(Empty, calls); var d := s.definitions[key]; var r := Resolve(s, key, scopes, at);
      if forall k | 0 <= k < |s.activations| :: !Effective(s.terminations, s.activations[k], key, scopes, at)
      then r == if d.defaultValue.Some? then Resolved(FromDefault(key, d.defaultValue.value)) else Unresolved(Missing)
      else exists k :: 0 <= k < |s.activations| && Best(s, k, key, scopes, at) && ResolvesTo(s, key, s.activations[k], r)
  {
    RunIsSound(calls);
    var s := Run(Empty, calls);
    NothingListed(s, key, scopes, at);
    ResolutionOfSound(s, key, scopes, at);
  }

  lemma {:induction false} ResolutionOfSound(s: Store, key: Id, scopes: seq<Scope>, at: Instant)
    requires Sound(s) && key in s.definitions && ScopesOk(scopes) && (at < SENTINEL || Disjoint(s))
    ensures var d := s.definitions[key]; var list := ListEffective(s.terminations, s.activations, key, scopes, at); var r := Resolve(s, key, scopes, at);
      if list == []
      then r == if d.defaultValue.Some? then Resolved(FromDefault(key, d.defaultValue.value)) else Unresolved(Missing)
      else exists k :: 0 <= k < |s.activations| && Best(s, k, key, scopes, at) && ResolvesTo(s, key, s.activations[k], r)
  {
    var d := s.definitions[key];
    var list := ListEffective(s.terminations, s.activations, key, scopes, at);
    assert DefinitionOk(d) && AllBacked(s.activations, s.definitions, s.values);
    hide Sound, Disjoint, ScopesOk, Best, ResolvesTo, ListEffective, AllBacked, Effective;
    if list != [] {
      hide Selected, ResolveFrom;
      var k := SelectedIsBest(s, key, scopes, at);
      SelectedIsListed(s, d, key, scopes, at, k);
      SelectedResolves(s, d, key, list, s.activations[k]);
    }
  }

  lemma {:induction false} SelectedIsListed(s: Store, d: Definition, key: Id, scopes: seq<Scope>, at: Instant, k: nat)
    requires AllBacked(s.activations, s.definitions, s.values) && key in s.definitions && k < |s.activations|
    requires ListEffective(s.terminations, s.activations, key, scopes, at) != []
    requires Selected(d, ListEffective(s.terminations, s.activations, key, scopes, at)) == Some(Materialize(s.terminations, s.activations[k]))
    ensures HasVersion(ReleasesOf(s.values, key), s.activations[k].valueVersion)
  {
    var list := ListEffective(s.terminations, s.activations, key, scopes, at);
    hide AllBacked, HasVersion, ListEffective;
    SelectedIsHighest(d, list);
    ListedIsAllowed(s, key, scopes, at, Materialize(s.terminations, s.activations[k]));
  }

  lemma {:induction false} ValuesNumbered(s: Store, key: Id)
    requires Sound(s)
    ensures forall i | 0 <= i < |ReleasesOf(s.values, key)| :: ReleasesOf(s.values, key)[i].valueVersion == 1 + i
  {
  }
}
