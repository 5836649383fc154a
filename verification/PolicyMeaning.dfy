// The canonical form means what the policy meant, and a cached evaluation stays right while it lives.
module PolicyMeaning {
  import opened Prelude
  import opened Texts
  import opened PolicyModel
  import opened PolicyTerms
  import opened PolicyCanonical
  import opened PolicyTheorems
  import opened PolicyEvaluation

  // -------------------------------------------------------- meaning preserved

  lemma {:induction false} RoleFindsSame(permissions: seq<Permission>, r: Role, code: Text)
    requires ValidRole(permissions, r)
    ensures NormRole(r).roleId == FinalRole(r).roleId
    ensures FindBy(BoundCode, NormRole(r).permissions, code) == FindBy(BoundCode, FinalRole(r).permissions, code)
  {
    RoleCodes(r);
    SortContents(ByKey(BoundCode), Map(NormBinding, r.permissions));
    FindByForgetsOrder(BoundCode, NormRole(r).permissions, FinalRole(r).permissions, code);
  }

  lemma {:induction false} RolesFindSame(permissions: seq<Permission>, roles: seq<Role>, roleId: Text, code: Text)
    requires forall r | r in roles :: ValidRole(permissions, r)
    ensures FindBinding(Map(NormRole, roles), roleId, code) == FindBinding(Map(FinalRole, roles), roleId, code)
  {
    if roles != [] {
      assert roles[0] in roles;
      RoleFindsSame(permissions, roles[0], code);
      hide NormRole, FinalRole, ValidRole;
      RolesFindSame(permissions, roles[1..], roleId, code);
    }
  }

  lemma {:induction false} FinalFindsSame(p: Policy, roleId: Text, code: Text)
    requires ValidPolicy(p)
    ensures FindBinding(Normalized(p).roles, roleId, code) == FindBinding(Final(p).roles, roleId, code)
  {
    hide NormRole, FinalRole, ValidRole, ValidPermission, ValidGrant, LowerRoleId;
    RolesFindSame(p.permissions, p.roles, roleId, code);
    forall x | x in p.roles ensures RoleIdOf(FinalRole(x)) == LowerRoleId(x) {
      FinalRoleId(x);
    }
    MapCompose(FinalRole, RoleIdOf, LowerRoleId, p.roles);
    SortContents(ByKey(RoleIdOf), Map(FinalRole, p.roles));
    FindByForgetsOrder(RoleIdOf, Map(FinalRole, p.roles), Final(p).roles, roleId);
  }

  lemma {:induction false} CombinedForgetsOrder(le: Collation, s: seq<Term>, t: seq<Term>)
    requires TotalOrder(le) && multiset(s) == multiset(t)
    ensures CombinedScope(le, s) == CombinedScope(le, t)
  {
    SameMembers(s, t);
    DedupeForgetsOrder(s, t);
    CollationSeparates(le, DedupeBy(TermText, s));
    hide TermText, ByCollatedText;
    CollationTotal(le);
    SortForgetsOrder(ByCollatedText(le), DedupeBy(TermText, s), DedupeBy(TermText, t));
  }

  lemma {:induction false} CollationTotal(le: Collation)
    requires TotalOrder(le)
    ensures TotalPreorder(ByCollatedText(le))
  {
    hide TermText;
  }

  lemma {:induction false} CollationSeparates(le: Collation, s: seq<Term>)
    requires TotalOrder(le)
    ensures SeparatesElementsOf(ByCollatedText(le), multiset(s))
  {
    hide TermText;
    forall t, u | t in multiset(s) && u in multiset(s) && ByCollatedText(le)(t, u) && ByCollatedText(le)(u, t) ensures t == u {
      assert TermText(t) == TermText(u);
      TermTextDecides(t, u);
    }
  }

  // Evaluation sees of a policy only its version, which permission a code
  // names, which binding a role has for a code, and the grants as a bag.
  lemma {:induction false} EvaluationDependsOn(
    le: Collation, v: Policy, w: Policy, subject: SubjectContext, request: Request, at: Instant, operation: Operation)
    requires TotalOrder(le) && v.version == w.version && multiset(v.grants) == multiset(w.grants)
    requires FindBy(CodeOf, v.permissions, Code(request.resource, request.action)) == FindBy(CodeOf, w.permissions, Code(request.resource, request.action))
    requires forall roleId :: FindBinding(v.roles, roleId, Code(request.resource, request.action))
                              == FindBinding(w.roles, roleId, Code(request.resource, request.action))
    ensures Evaluate(le, v, subject, request, at, operation) == Evaluate(le, w, subject, request, at, operation)
  {
    hide FlatMap, CombinedScope, ScopeMatches, ContextIsComplete, Code, TotalOrder, GrantScopes, FindBinding, FindBy, TermsOf;
    SameCombinedScope(le, v, w, subject, Code(request.resource, request.action), at);
  }

  lemma {:induction false} SameCombinedScope(le: Collation, v: Policy, w: Policy, subject: SubjectContext, code: Text, at: Instant)
    requires TotalOrder(le) && multiset(v.grants) == multiset(w.grants)
    requires forall roleId :: FindBinding(v.roles, roleId, code) == FindBinding(w.roles, roleId, code)
    ensures var s, t := FlatMap(GrantScopes(v.roles, subject, code, at), v.grants), FlatMap(GrantScopes(w.roles, subject, code, at), w.grants);
      && (s == [] <==> t == [])
      && CombinedScope(le, FlatMap(TermsOf, s)) == CombinedScope(le, FlatMap(TermsOf, t))
  {
    hide FlatMap, CombinedScope, TotalOrder, GrantScopes, FindBinding, TermsOf;
    var f, g := GrantScopes(v.roles, subject, code, at), GrantScopes(w.roles, subject, code, at);
    SameScopes(v.roles, w.roles, subject, code, at, v.grants);
    FlatMapForgetsOrder(g, v.grants, w.grants);
    var s, t := FlatMap(f, v.grants), FlatMap(g, w.grants);
    EmptyAlike(s, t);
    FlatMapForgetsOrder(TermsOf, s, t);
    CombinedForgetsOrder(le, FlatMap(TermsOf, s), FlatMap(TermsOf, t));
  }

  lemma {:induction false} SameScopes(roles: seq<Role>, roles': seq<Role>, subject: SubjectContext, code: Text, at: Instant, grants: seq<Grant>)
    requires forall roleId :: FindBinding(roles, roleId, code) == FindBinding(roles', roleId, code)
    ensures FlatMap(GrantScopes(roles, subject, code, at), grants) == FlatMap(GrantScopes(roles', subject, code, at), grants)
  {
    hide FindBinding, Applicable;
    if grants != [] {
      SameScopes(roles, roles', subject, code, at, grants[1..]);
      assert FindBinding(roles, grants[0].roleId, code) == FindBinding(roles', grants[0].roleId, code);
    }
  }

  // Canonicalising changes the outcome of no query: for every subject, request,
  // instant and operation.
  lemma {:induction false} CanonicalPolicyMeansTheSame(
    le: Collation, p: Policy, subject: SubjectContext, request: Request, at: Instant, operation: Operation)
    requires TotalOrder(le) && Canonicalize(p).Some?
    ensures var c := Canonicalize(p).value;
      && Validate(p, p.version).Some? && Validate(c, p.version).Some?
      && Evaluate(le, Validate(p, p.version).value, subject, request, at, operation)
         == Evaluate(le, Validate(c, p.version).value, subject, request, at, operation)
  {
    CanonicalizeIsIdempotent(p);
    ArrangedIsFinal(p);
    var v, c := Normalized(p), Final(p);
    var code := Code(request.resource, request.action);
    MapCompose(NormPermission, CodeOf, CodeOf, p.permissions);
    SortContents(ByKey(CodeOf), v.permissions);
    SortContents(ByKey(GrantIdOf), v.grants);
    FindByForgetsOrder(CodeOf, v.permissions, c.permissions, code);
    forall roleId ensures FindBinding(v.roles, roleId, code) == FindBinding(c.roles, roleId, code) {
      FinalFindsSame(p, roleId, code);
    }
    hide Evaluate, FindBinding, FindBy, ValidPolicy, TotalOrder, Code;
    EvaluationDependsOn(le, v, c, subject, request, at, operation);
  }

  // -------------------------------------------------------------- cache lifetime

  function Earliest(a: Option<Instant>, b: Option<Instant>): Option<Instant> {
    if a.None? then b else if b.None? then a else if b.value < a.value then b else a
  }

  function After(t: Instant, at: Instant): Option<Instant> {
    if t > at then Some(t) else None
  }

  // The first instant after `at` at which some grant starts or ends.
  function NextBoundary(grants: seq<Grant>, at: Instant): (r: Option<Instant>)
    ensures r.Some? ==> r.value > at
  {
    if grants == [] then None
    else
      var g := grants[0];
      var own := Earliest(After(g.validFrom, at), if g.validTo.None? then None else After(g.validTo.value, at));
      Earliest(own, NextBoundary(grants[1..], at))
  }

  // How many whole seconds an evaluation made at `at` may be kept.
  function TimeToLive(boundary: Option<Instant>, at: Instant, cacheTtlSeconds: nat): int {
    if boundary.None? then cacheTtlSeconds
    else
      var seconds := (boundary.value - at) / 1000;
      if seconds < cacheTtlSeconds then seconds else cacheTtlSeconds
  }

  predicate Within(boundary: Option<Instant>, at: Instant, t: Instant) {
    at <= t && (boundary.None? || t < boundary.value)
  }

  lemma {:induction false} NothingChangesBefore(grants: seq<Grant>, at: Instant, t: Instant, k: nat)
    requires k < |grants| && Within(NextBoundary(grants, at), at, t)
    ensures IsActive(grants[k], t) == IsActive(grants[k], at)
  {
    if k > 0 {
      NothingChangesBefore(grants[1..], at, t, k - 1);
    }
  }

  lemma {:induction false} SameScopesBefore(roles: seq<Role>, subject: SubjectContext, code: Text, grants: seq<Grant>, at: Instant, t: Instant)
    requires forall k | 0 <= k < |grants| :: IsActive(grants[k], t) == IsActive(grants[k], at)
    ensures FlatMap(GrantScopes(roles, subject, code, t), grants) == FlatMap(GrantScopes(roles, subject, code, at), grants)
  {
    hide FindBinding, IsActive;
    if grants != [] {
      forall k | 0 <= k < |grants[1..]| ensures IsActive(grants[1..][k], t) == IsActive(grants[1..][k], at) {
        assert grants[1..][k] == grants[k + 1];
      }
      SameScopesBefore(roles, subject, code, grants[1..], at, t);
      assert IsActive(grants[0], t) == IsActive(grants[0], at);
    }
  }

  // Up to the next boundary every evaluation comes out the same.
  lemma {:induction false} EvaluationHoldsUntilBoundary(
    le: Collation, v: Policy, subject: SubjectContext, request: Request, at: Instant, t: Instant, operation: Operation)
    requires Within(NextBoundary(v.grants, at), at, t)
    ensures Evaluate(le, v, subject, request, t, operation) == Evaluate(le, v, subject, request, at, operation)
  {
    forall k | 0 <= k < |v.grants| ensures IsActive(v.grants[k], t) == IsActive(v.grants[k], at) {
      NothingChangesBefore(v.grants, at, t, k);
    }
    var code := Code(request.resource, request.action);
    SameScopesBefore(v.roles, subject, code, v.grants, at, t);
    hide FlatMap, CombinedScope, ScopeMatches, ContextIsComplete, Code, GrantScopes, FindBy;
  }

  lemma {:induction false} LifetimeEndsByBoundary(boundary: Option<Instant>, at: Instant, cacheTtlSeconds: nat, t: Instant)
    requires boundary.Some? ==> boundary.value > at
    requires at <= t < at + 1000 * TimeToLive(boundary, at, cacheTtlSeconds)
    ensures Within(boundary, at, t)
  {
    if boundary.Some? {
      var d := boundary.value - at;
      assert 1000 * (d / 1000) <= d;
    }
  }

  // A cached evaluation cannot go stale while it lives.
  lemma {:induction false} CachedEvaluationStaysFresh(
    le: Collation, v: Policy, subject: SubjectContext, request: Request, at: Instant, t: Instant, operation: Operation, cacheTtlSeconds: nat)
    requires at <= t < at + 1000 * TimeToLive(NextBoundary(v.grants, at), at, cacheTtlSeconds)
    ensures Evaluate(le, v, subject, request, t, operation) == Evaluate(le, v, subject, request, at, operation)
  {
    LifetimeEndsByBoundary(NextBoundary(v.grants, at), at, cacheTtlSeconds, t);
    hide Evaluate;
    EvaluationHoldsUntilBoundary(le, v, subject, request, at, t, operation);
  }

  // ------------------------------------------------------------------ the engine

  datatype CacheKey = CacheKey(operation: Operation, version: Text, subject: SubjectContext, request: Request)

  datatype Cached = Cached(evaluation: Evaluation, storedAt: Instant, ttlSeconds: nat)

  // The version reported when no policy could be used.
  const UNAVAILABLE: Text := Lit("unavailable")

  datatype CacheStatus = NotUsed | Hit | Miss | Error

  // The decision service over a policy store and a cache. `policies` is what the
  // store holds per version.
  class AuthorizationEngine {
    const le: Collation
    const cacheTtlSeconds: nat
    const policies: map<Text, Policy>
    var cache: map<CacheKey, Cached>

    constructor (le: Collation, cacheTtlSeconds: nat, policies: map<Text, Policy>)
      ensures Valid() && this.le == le && this.cacheTtlSeconds == cacheTtlSeconds && this.policies == policies
    {
      this.le, this.cacheTtlSeconds, this.policies := le, cacheTtlSeconds, policies;
      cache := map[];
    }

    predicate Alive(e: Cached, t: Instant) {
      e.storedAt <= t < e.storedAt + 1000 * e.ttlSeconds
    }

    // What evaluating afresh at `t` would give.
    function Fresh(key: CacheKey, t: Instant): Evaluation {
      if key.version !in policies then Evaluation(false, UNAVAILABLE, PolicyUnavailable, None)
      else
        match Validate(policies[key.version], key.version)
        case None => Evaluation(false, UNAVAILABLE, PolicyInvalid, None)
        case Some(v) => Evaluate(le, v, key.subject, key.request, t, key.operation)
    }

    // Every entry agrees with a fresh evaluation for as long as it lives.
    ghost predicate Valid()
      reads this
    {
      forall key, t: Instant | key in cache && Alive(cache[key], t) :: cache[key].evaluation == Fresh(key, t)
    }

    method Decide(version: Text, subject: SubjectContext, request: Request, at: Instant, operation: Operation)
      returns (evaluation: Evaluation, status: CacheStatus)
      requires Valid()
      modifies this`cache
      ensures Valid()
      ensures evaluation == Fresh(CacheKey(operation, version, subject, request), at)
      ensures forall key | key != CacheKey(operation, version, subject, request) :: (key in cache) == (key in old(cache)) && (key in cache ==> cache[key] == old(cache)[key])
      ensures var key := CacheKey(operation, version, subject, request);
        key in old(cache) && Alive(old(cache)[key], at) ==> status != Error
    {
      var key := CacheKey(operation, version, subject, request);
      status := NotUsed;
      if version !in policies {
        return Evaluation(false, UNAVAILABLE, PolicyUnavailable, None), status;
      }
      var validated := Validate(policies[version], version);
      if validated.None? {
        return Evaluation(false, UNAVAILABLE, PolicyInvalid, None), status;
      }
      var policy := validated.value;
      var latest := Evaluate(le, policy, subject, request, at, operation);
      evaluation := latest;
      if key in cache && cache[key].evaluation == latest {
        status := Hit;
      } else {
        status := if key in cache then Error else Miss;
        var boundary := NextBoundary(policy.grants, at);
        var ttl := TimeToLive(boundary, at, cacheTtlSeconds);
        if ttl >= 1 {
          forall t: Instant | at <= t < at + 1000 * ttl ensures Fresh(key, t) == latest {
            CachedEvaluationStaysFresh(le, policy, subject, request, at, t, operation, cacheTtlSeconds);
          }
          cache := cache[key := Cached(latest, at, ttl)];
        }
      }
    }

    // The cache may drop entries whenever it likes.
    method Evict(keys: set<CacheKey>)
      requires Valid()
      modifies this`cache
      ensures Valid() && cache == old(cache) - keys
    {
      cache := cache - keys;
    }
  }
}
