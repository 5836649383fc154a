// Evaluating a policy: the union of the scopes of the applicable grants, asked in two ways.
module PolicyEvaluation {
  import opened Prelude
  import opened Texts
  import opened PolicyModel
  import opened PolicyTerms
  import opened PolicyCanonical
  import opened PolicyTheorems

  datatype Entry = Entry(key: Text, value: Text)

  // A resource context is an object: its keys are distinct.
  type Context = seq<Entry>

  const KeyOfEntry: Entry -> Text := (e: Entry) => e.key

  datatype SubjectContext = SubjectContext(workforcePersonId: Text, selectedAssignmentId: Option<Text>)

  datatype Request = Request(resource: Text, action: Text, resourceContext: Option<Context>)

  datatype Operation = Check | ResolveDataScope

  datatype Reason =
    | Allowed | UnknownPermission | ResourceContextRequired | InvalidContext | NoApplicableGrant | ScopeMismatch | PolicyUnavailable | PolicyInvalid

  datatype Evaluation = Evaluation(allowed: bool, policyVersion: Text, reason: Reason, scope: Option<Scope>)

  // Compares texts for display; assumed to be a strict total order on them.
  type Collation = (Text, Text) -> bool

  ghost predicate TotalOrder(le: Collation) {
    TotalPreorder(le) && forall a, b | le(a, b) && le(b, a) :: a == b
  }

  function FindBy<T>(key: T -> Text, s: seq<T>, id: Text): Option<T> {
    if s == [] then None
    else if key(s[0]) == id then Some(s[0])
    else FindBy(key, s[1..], id)
  }

  function FlatMap<A, B>(f: A -> seq<B>, s: seq<A>): seq<B> {
    if s == [] then [] else f(s[0]) + FlatMap(f, s[1..])
  }

  predicate IsActive(g: Grant, at: Instant) {
    g.validFrom <= at && (g.validTo.None? || at < g.validTo.value)
  }

  predicate Applicable(g: Grant, subject: SubjectContext, at: Instant) {
    IsActive(g, at) &&
    match g.subject
    case Person(id) => id == subject.workforcePersonId
    case Assignment(id) => subject.selectedAssignmentId == Some(id)
  }

  function FindBinding(roles: seq<Role>, roleId: Text, code: Text): Option<Binding> {
    match FindBy(RoleIdOf, roles, roleId)
    case None => None
    case Some(role) => FindBy(BoundCode, role.permissions, code)
  }

  function GrantScopes(roles: seq<Role>, subject: SubjectContext, code: Text, at: Instant): Grant -> seq<Scope> {
    (g: Grant) =>
      if !Applicable(g, subject, at) then []
      else
        match FindBinding(roles, g.roleId, code)
        case None => []
        case Some(b) => [b.scope]
  }

  const TermsOf: Scope -> seq<Term> := (s: Scope) => s.terms

  function ByCollatedText(le: Collation): (Term, Term) -> bool {
    (t: Term, u: Term) => le(TermText(t), TermText(u))
  }

  function CombinedScope(le: Collation, terms: seq<Term>): Scope {
    if All in terms then Scope([All]) else Scope(Sort(ByCollatedText(le), DedupeBy(TermText, terms)))
  }

  function ValueAt(context: Context, dimension: Text): Text {
    match FindBy(KeyOfEntry, context, dimension)
    case None => []
    case Some(e) => e.value
  }

  predicate TermMatches(t: Term, context: Context) {
    t.Match? ==> forall c :: c in t.constraints ==> ValueAt(context, c.dimension) in c.values
  }

  predicate ScopeMatches(s: Scope, context: Context) {
    exists t :: t in s.terms && TermMatches(t, context)
  }

  predicate ContextIsComplete(p: Permission, context: Context) {
    var declared, provided := SortTexts(p.scopeDimensions), SortTexts(Map(KeyOfEntry, context));
    |declared| == |provided| && forall i :: 0 <= i < |declared| ==> declared[i] == provided[i]
  }

  function Denied(v: Policy, reason: Reason): Evaluation {
    Evaluation(false, v.version, reason, None)
  }

  function Evaluate(le: Collation, v: Policy, subject: SubjectContext, request: Request, at: Instant, operation: Operation): Evaluation {
    var code := Code(request.resource, request.action);
    var permission := FindBy(CodeOf, v.permissions, code);
    if permission.None? then Denied(v, UnknownPermission)
    else if operation.Check? && |permission.value.scopeDimensions| > 0 && request.resourceContext.None? then Denied(v, ResourceContextRequired)
    else if operation.Check? && request.resourceContext.Some? && !ContextIsComplete(permission.value, request.resourceContext.value)
    then Denied(v, InvalidContext)
    else
      var scopes := FlatMap(GrantScopes(v.roles, subject, code, at), v.grants);
      if scopes == [] then Denied(v, NoApplicableGrant)
      else
        var scope := CombinedScope(le, FlatMap(TermsOf, scopes));
        if operation.Check? && request.resourceContext.Some? && !ScopeMatches(scope, request.resourceContext.value) then Denied(v, ScopeMismatch)
        else Evaluation(true, v.version, Allowed, Some(scope))
  }

  // ---------------------------------------------------------- plain list facts

  lemma {:induction false} FlatMapMembers<A, B(!new)>(f: A -> seq<B>, s: seq<A>, y: B)
    ensures y in FlatMap(f, s) <==> exists i :: 0 <= i < |s| && y in f(s[i])
  {
    if s != [] {
      FlatMapMembers(f, s[1..], y);
      if i :| 0 <= i < |s[1..]| && y in f(s[1..][i]) {
        assert s[1..][i] == s[i + 1];
      }
      if i :| 0 <= i < |s| && y in f(s[i]) {
        if i > 0 {
          assert s[1..][i - 1] == s[i];
        }
      }
    }
  }

  lemma {:induction false} FlatMapAppend<A, B>(f: A -> seq<B>, a: seq<A>, b: seq<A>)
    ensures FlatMap(f, a + b) == FlatMap(f, a) + FlatMap(f, b)
  {
    if a == [] {
      assert a + b == b;
    } else {
      FlatMapAppend(f, a[1..], b);
      assert (a + b)[1..] == a[1..] + b && (a + b)[0] == a[0];
      assert f(a[0]) + (FlatMap(f, a[1..]) + FlatMap(f, b)) == f(a[0]) + FlatMap(f, a[1..]) + FlatMap(f, b);
    }
  }

  lemma {:induction false} FlatMapWithout<A, B>(f: A -> seq<B>, s: seq<A>, j: nat)
    requires j < |s|
    ensures multiset(FlatMap(f, s)) == multiset(FlatMap(f, Without(s, j))) + multiset(f(s[j]))
  {
    var a, b := s[..j], s[j + 1..];
    assert s == a + ([s[j]] + b);
    FlatMapAppend(f, a, [s[j]] + b);
    FlatMapAppend(f, a, b);
    assert ([s[j]] + b)[1..] == b;
    assert FlatMap(f, s) == FlatMap(f, a) + (f(s[j]) + FlatMap(f, b));
  }

  lemma {:induction false} WithoutContents<A>(s: seq<A>, j: nat)
    requires j < |s|
    ensures multiset(s) == multiset(Without(s, j)) + multiset{s[j]}
  {
    assert s == s[..j] + [s[j]] + s[j + 1..];
  }

  lemma {:induction false} FlatMapForgetsOrder<A, B>(f: A -> seq<B>, s: seq<A>, t: seq<A>)
    requires multiset(s) == multiset(t)
    ensures multiset(FlatMap(f, s)) == multiset(FlatMap(f, t))
    decreases |s|
  {
    EmptyAlike(s, t);
    if s != [] {
      SameMembers(s, t);
      assert s[0] in t;
      var j :| 0 <= j < |t| && t[j] == s[0];
      assert Without(s, 0) == s[1..];
      WithoutContents(s, 0);
      WithoutContents(t, j);
      hide Without, FlatMap;
      CancelOne(multiset(s[1..]), multiset(Without(t, j)), s[0]);
      FlatMapForgetsOrder(f, s[1..], Without(t, j));
      FlatMapWithout(f, s, 0);
      FlatMapWithout(f, t, j);
    }
  }

  lemma {:induction false} FindByFinds<T(!new)>(key: T -> Text, s: seq<T>, id: Text)
    ensures FindBy(key, s, id).Some? ==> FindBy(key, s, id).value in s && key(FindBy(key, s, id).value) == id
    ensures FindBy(key, s, id).None? ==> forall x | x in s :: key(x) != id
  {
    if s != [] {
      FindByFinds(key, s[1..], id);
    }
  }

  lemma {:induction false} FindByIs<T(!new)>(key: T -> Text, s: seq<T>, x: T)
    requires Distinct(Map(key, s)) && x in s
    ensures FindBy(key, s, key(x)) == Some(x)
  {
    FindByFinds(key, s, key(x));
    DistinctKeysSeparate(key, s);
  }

  lemma {:induction false} FindByForgetsOrder<T(!new)>(key: T -> Text, s: seq<T>, t: seq<T>, id: Text)
    requires multiset(s) == multiset(t) && Distinct(Map(key, s))
    ensures FindBy(key, s, id) == FindBy(key, t, id)
  {
    SameMembers(s, t);
    FindByFinds(key, s, id);
    FindByFinds(key, t, id);
    DistinctKeysSeparate(key, s);
  }

  // ----------------------------------------------- what a policy grants, plainly

  // Some applicable grant's role binds the code with this term.
  ghost predicate Granted(v: Policy, subject: SubjectContext, code: Text, at: Instant, t: Term) {
    exists g, r, b ::
      && g in v.grants && Applicable(g, subject, at)
      && r in v.roles && r.roleId == g.roleId
      && b in r.permissions && b.permissionCode == code && t in b.scope.terms
  }

  // Roles and the bindings inside each role are told apart by their ids.
  ghost predicate WellKeyed(v: Policy) {
    && Distinct(Map(CodeOf, v.permissions)) && Distinct(Map(RoleIdOf, v.roles))
    && (forall r | r in v.roles :: Distinct(Map(BoundCode, r.permissions)))
    && (forall r, b | r in v.roles && b in r.permissions :: b.scope.terms != [])
  }

  lemma {:induction false} NormalizedWellKeyed(p: Policy)
    requires ValidPolicy(p)
    ensures WellKeyed(Normalized(p))
  {
    var v := Normalized(p);
    MapCompose(NormPermission, CodeOf, CodeOf, p.permissions);
    MapCompose(NormRole, RoleIdOf, LowerRoleId, p.roles);
    MapMembers(NormRole, p.roles);
    hide NormPermission, NormRole, Map, Distinct, ValidRole, ValidGrant, ValidPermission, LowerRoleId;
    forall r | r in v.roles ensures Distinct(Map(BoundCode, r.permissions)) && forall b | b in r.permissions :: b.scope.terms != [] {
      var i :| 0 <= i < |p.roles| && NormRole(p.roles[i]) == r;
      NormRoleKeyed(p.permissions, p.roles[i]);
    }
  }

  lemma {:induction false} NormRoleKeyed(permissions: seq<Permission>, r: Role)
    requires ValidRole(permissions, r)
    ensures Distinct(Map(BoundCode, NormRole(r).permissions))
    ensures forall b | b in NormRole(r).permissions :: b.scope.terms != []
  {
    RoleCodes(r);
    MapMembers(NormBinding, r.permissions);
    hide Map, Distinct;
    forall b | b in NormRole(r).permissions ensures b.scope.terms != [] {
      var i :| 0 <= i < |r.permissions| && NormBinding(r.permissions[i]) == b;
      assert ValidBinding(permissions, r.permissions[i]);
      NormScopeSize(r.permissions[i].scope);
    }
  }

  lemma {:induction false} FindBindingIs(v: Policy, r: Role, b: Binding)
    requires WellKeyed(v) && r in v.roles && b in r.permissions
    ensures FindBinding(v.roles, r.roleId, b.permissionCode) == Some(b)
  {
    FindByIs(RoleIdOf, v.roles, r);
    FindByIs(BoundCode, r.permissions, b);
  }

  lemma {:induction false} FindBindingFinds(roles: seq<Role>, roleId: Text, code: Text)
    requires FindBinding(roles, roleId, code).Some?
    ensures exists r :: r in roles && r.roleId == roleId && FindBinding(roles, roleId, code).value in r.permissions
    ensures FindBinding(roles, roleId, code).value.permissionCode == code
  {
    FindByFinds(RoleIdOf, roles, roleId);
    FindByFinds(BoundCode, FindBy(RoleIdOf, roles, roleId).value.permissions, code);
  }

  function Scopes(v: Policy, subject: SubjectContext, code: Text, at: Instant): seq<Scope> {
    FlatMap(GrantScopes(v.roles, subject, code, at), v.grants)
  }

  lemma {:induction false} TermIsGranted(v: Policy, subject: SubjectContext, code: Text, at: Instant, t: Term)
    requires t in FlatMap(TermsOf, Scopes(v, subject, code, at))
    ensures Granted(v, subject, code, at, t)
  {
    var scopes := Scopes(v, subject, code, at);
    FlatMapMembers(TermsOf, scopes, t);
    var i :| 0 <= i < |scopes| && t in scopes[i].terms;
    FlatMapMembers(GrantScopes(v.roles, subject, code, at), v.grants, scopes[i]);
    var k :| 0 <= k < |v.grants| && scopes[i] in GrantScopes(v.roles, subject, code, at)(v.grants[k]);
    var g := v.grants[k];
    FindBindingFinds(v.roles, g.roleId, code);
    var b := FindBinding(v.roles, g.roleId, code).value;
    var r :| r in v.roles && r.roleId == g.roleId && b in r.permissions;
    assert g in v.grants && t in b.scope.terms;
  }

  lemma {:induction false} GrantedTermIsListed(v: Policy, subject: SubjectContext, code: Text, at: Instant, t: Term)
    requires WellKeyed(v) && Granted(v, subject, code, at, t)
    ensures t in FlatMap(TermsOf, Scopes(v, subject, code, at)) && Scopes(v, subject, code, at) != []
  {
    var g, r, b :| g in v.grants && Applicable(g, subject, at) && r in v.roles && r.roleId == g.roleId
      && b in r.permissions && b.permissionCode == code && t in b.scope.terms;
    FindBindingIs(v, r, b);
    hide Applicable, WellKeyed, FindBinding, FlatMap;
    var f := GrantScopes(v.roles, subject, code, at);
    assert f(g) == [b.scope];
    var k :| 0 <= k < |v.grants| && v.grants[k] == g;
    FlatMapMembers(f, v.grants, b.scope);
    var scopes := Scopes(v, subject, code, at);
    assert b.scope in f(v.grants[k]);
    assert b.scope in scopes;
    var i :| 0 <= i < |scopes| && scopes[i] == b.scope;
    FlatMapMembers(TermsOf, scopes, t);
    assert t in TermsOf(scopes[i]);
  }

  lemma {:induction false} SomeScopeSomeTerm(v: Policy, subject: SubjectContext, code: Text, at: Instant)
    requires WellKeyed(v) && Scopes(v, subject, code, at) != []
    ensures exists t :: Granted(v, subject, code, at, t)
  {
    var scopes := Scopes(v, subject, code, at);
    var f := GrantScopes(v.roles, subject, code, at);
    FlatMapMembers(f, v.grants, scopes[0]);
    var k :| 0 <= k < |v.grants| && scopes[0] in f(v.grants[k]);
    FindBindingFinds(v.roles, v.grants[k].roleId, code);
    var b := FindBinding(v.roles, v.grants[k].roleId, code).value;
    var t := b.scope.terms[0];
    FlatMapMembers(TermsOf, scopes, t);
    assert t in TermsOf(scopes[0]);
    TermIsGranted(v, subject, code, at, t);
  }

  // Collapsing, deduplicating and sorting terms loses nothing.
  lemma {:induction false} CombiningLosesNothing(le: Collation, terms: seq<Term>, context: Context)
    ensures ScopeMatches(CombinedScope(le, terms), context) <==> exists t :: t in terms && TermMatches(t, context)
  {
    hide TermText;
    if All in terms {
      assert TermMatches(All, context);
      assert All in CombinedScope(le, terms).terms;
    } else {
      SortMembers(ByCollatedText(le), DedupeBy(TermText, terms));
      DedupeContents(terms);
    }
  }

  // ------------------------------------------------------------- the agreement

  // Which context a permission's point check accepts: exactly its dimensions.
  lemma {:induction false} CompleteMeansSameDimensions(p: Permission, context: Context)
    requires Distinct(p.scopeDimensions) && Distinct(Map(KeyOfEntry, context))
    ensures ContextIsComplete(p, context) <==> forall d :: d in p.scopeDimensions <==> d in Map(KeyOfEntry, context)
  {
    var keys := Map(KeyOfEntry, context);
    SortTextsSettles(p.scopeDimensions);
    SortTextsSettles(keys);
    hide Map, Distinct, SortTexts;
    if ContextIsComplete(p, context) {
      assert SortTexts(p.scopeDimensions) == SortTexts(keys);
      SameMembers(p.scopeDimensions, keys);
    }
    if forall d :: d in p.scopeDimensions <==> d in keys {
      SameContents(p.scopeDimensions, keys);
      SortTextsForgetsOrder(p.scopeDimensions, keys);
    }
  }

  lemma {:induction false} GrantedExactlyListed(v: Policy, subject: SubjectContext, code: Text, at: Instant)
    requires WellKeyed(v)
    ensures forall t :: Granted(v, subject, code, at, t) <==> t in FlatMap(TermsOf, Scopes(v, subject, code, at))
    ensures Scopes(v, subject, code, at) != [] <==> exists t :: Granted(v, subject, code, at, t)
  {
    hide WellKeyed, Granted, FlatMap, Scopes, TermsOf;
    forall t ensures Granted(v, subject, code, at, t) <==> t in FlatMap(TermsOf, Scopes(v, subject, code, at)) {
      if Granted(v, subject, code, at, t) {
        GrantedTermIsListed(v, subject, code, at, t);
      }
      if t in FlatMap(TermsOf, Scopes(v, subject, code, at)) {
        TermIsGranted(v, subject, code, at, t);
      }
    }
    if Scopes(v, subject, code, at) != [] {
      SomeScopeSomeTerm(v, subject, code, at);
    }
    if t :| Granted(v, subject, code, at, t) {
      GrantedTermIsListed(v, subject, code, at, t);
    }
  }

  // Resolving allows exactly when something is granted, and the scope it returns
  // matches a context exactly when some granted term does.
  lemma {:induction false} ResolveIsTheUnion(le: Collation, p: Policy, subject: SubjectContext, resource: Text, action: Text, at: Instant, context: Context)
    requires ValidPolicy(p) && FindBy(CodeOf, Normalized(p).permissions, Code(resource, action)).Some?
    ensures var v := Normalized(p); var r := Evaluate(le, v, subject, Request(resource, action, None), at, ResolveDataScope);
      && (r.allowed <==> exists t :: Granted(v, subject, Code(resource, action), at, t))
      && (r.allowed ==> r.scope.Some? &&
                        (ScopeMatches(r.scope.value, context) <==>
                         exists t :: Granted(v, subject, Code(resource, action), at, t) && TermMatches(t, context)))
  {
    var v := Normalized(p);
    var code := Code(resource, action);
    hide ValidPolicy, Normalized, WellKeyed, Code, TermMatches, ScopeMatches, Granted, CombinedScope, FlatMap, FindBy;
    NormalizedWellKeyed(p);
    GrantedExactlyListed(v, subject, code, at);
    CombiningLosesNothing(le, FlatMap(TermsOf, Scopes(v, subject, code, at)), context);
  }

  // The two query styles agree: a point check with a complete context allows
  // exactly when the resolved scope matches that context, which is exactly when
  // some applicable grant's role binds the code with a matching term.
  lemma {:induction false} QueriesAgree(le: Collation, p: Policy, subject: SubjectContext, resource: Text, action: Text, at: Instant, context: Context)
    requires ValidPolicy(p)
    requires var permission := FindBy(CodeOf, Normalized(p).permissions, Code(resource, action));
      permission.Some? && ContextIsComplete(permission.value, context)
    ensures var v := Normalized(p);
      var check := Evaluate(le, v, subject, Request(resource, action, Some(context)), at, Check);
      var resolve := Evaluate(le, v, subject, Request(resource, action, None), at, ResolveDataScope);
      && (check.allowed <==> resolve.allowed && resolve.scope.Some? && ScopeMatches(resolve.scope.value, context))
      && (check.allowed <==> exists t :: Granted(v, subject, Code(resource, action), at, t) && TermMatches(t, context))
      && (check.allowed ==> check.scope == resolve.scope)
  {
    ResolveIsTheUnion(le, p, subject, resource, action, at, context);
    hide ValidPolicy, Normalized, Code, TermMatches, ScopeMatches, Granted, CombinedScope, ContextIsComplete;
  }

  // ------------------------------------------------------------ why it is denied

  lemma {:induction false} DeclaredIsFound(p: Policy, code: Text)
    requires ValidPolicy(p)
    ensures var found := FindBy(CodeOf, Normalized(p).permissions, code);
      && (found.Some? <==> exists x :: x in p.permissions && x.code == code)
      && (found.Some? ==> exists x :: x in p.permissions && x.code == code && found.value == NormPermission(x))
  {
    var v := Normalized(p);
    MapMembers(NormPermission, p.permissions);
    FindByFinds(CodeOf, v.permissions, code);
    hide Map, Distinct, ValidPermission, ValidRole, ValidGrant, FindBy;
    if x :| x in p.permissions && x.code == code {
      var i :| 0 <= i < |p.permissions| && p.permissions[i] == x;
      assert NormPermission(x) in v.permissions && CodeOf(NormPermission(x)) == code;
    }
    if FindBy(CodeOf, v.permissions, code).Some? {
      var i :| 0 <= i < |p.permissions| && NormPermission(p.permissions[i]) == FindBy(CodeOf, v.permissions, code).value;
      assert p.permissions[i] in p.permissions;
    }
  }

  predicate SameDimensions(dimensions: seq<Text>, context: Context) {
    (forall d | d in dimensions :: d in Map(KeyOfEntry, context)) && (forall d | d in Map(KeyOfEntry, context) :: d in dimensions)
  }

  lemma {:induction false} CompleteForDeclared(x: Permission, context: Context)
    requires ValidPermission(x) && Distinct(Map(KeyOfEntry, context))
    ensures ContextIsComplete(NormPermission(x), context) <==> SameDimensions(x.scopeDimensions, context)
  {
    NormPermissionStaysValid(x);
    hide Map, SortTexts, Distinct, ContextIsComplete;
    CompleteMeansSameDimensions(NormPermission(x), context);
    SameMembers(NormPermission(x).scopeDimensions, x.scopeDimensions);
  }

  // The outcome of a point check, told without the evaluation: from what the
  // policy declares, which context it is given, and what it grants.
  ghost function Verdict(p: Policy, x: Permission, subject: SubjectContext, code: Text, at: Instant, context: Option<Context>): Reason {
    if context.None? && x.scopeDimensions != [] then ResourceContextRequired
    else if context.Some? && !SameDimensions(x.scopeDimensions, context.value) then InvalidContext
    else if !exists t :: Granted(Normalized(p), subject, code, at, t) then NoApplicableGrant
    else if context.Some? && !exists t :: Granted(Normalized(p), subject, code, at, t) && TermMatches(t, context.value) then ScopeMismatch
    else Allowed
  }

  lemma {:induction false} DeclaredIs(p: Policy, x: Permission)
    requires ValidPolicy(p) && x in p.permissions
    ensures FindBy(CodeOf, Normalized(p).permissions, x.code) == Some(NormPermission(x))
    ensures |NormPermission(x).scopeDimensions| > 0 <==> x.scopeDimensions != []
  {
    var v := Normalized(p);
    assert v.permissions == Map(NormPermission, p.permissions);
    SortTextsSettles(x.scopeDimensions);
    hide ValidPolicy, Normalized, Map, Distinct, FindBy, SortTexts;
    NormalizedWellKeyed(p);
    MapMembers(NormPermission, p.permissions);
    var i :| 0 <= i < |p.permissions| && p.permissions[i] == x;
    assert NormPermission(p.permissions[i]) in v.permissions;
    FindByIs(CodeOf, v.permissions, NormPermission(x));
  }

  lemma {:induction false} CheckFollowsVerdict(le: Collation, p: Policy, x: Permission, subject: SubjectContext, request: Request, at: Instant)
    requires ValidPolicy(p) && x in p.permissions && x.code == Code(request.resource, request.action)
    requires request.resourceContext.Some? ==> Distinct(Map(KeyOfEntry, request.resourceContext.value))
    ensures Evaluate(le, Normalized(p), subject, request, at, Check).reason == Verdict(p, x, subject, x.code, at, request.resourceContext)
  {
    assert ValidPermission(x);
    hide ValidPolicy, Normalized, WellKeyed, Code, TermMatches, ScopeMatches, Granted, CombinedScope, FlatMap, FindBy, ContextIsComplete, SameDimensions;
    hide NormPermission, ValidPermission, Map, Distinct, TermsOf;
    var v := Normalized(p);
    DeclaredIs(p, x);
    NormalizedWellKeyed(p);
    GrantedExactlyListed(v, subject, x.code, at);
    if request.resourceContext.Some? {
      CompleteForDeclared(x, request.resourceContext.value);
      CombiningLosesNothing(le, FlatMap(TermsOf, Scopes(v, subject, x.code, at)), request.resourceContext.value);
    }
  }

  // An answer allows exactly when its reason says so, and only then has a scope.
  lemma {:induction false} AnswersAreWhole(le: Collation, v: Policy, subject: SubjectContext, request: Request, at: Instant)
    ensures var e := Evaluate(le, v, subject, request, at, Check);
      (e.allowed <==> e.reason == Allowed) && (e.scope.Some? <==> e.allowed) && e.policyVersion == v.version
  {
    hide Code, CombinedScope, ScopeMatches, ContextIsComplete, FlatMap, FindBy;
  }

  lemma {:induction false} UnknownIsUndeclared(le: Collation, v: Policy, subject: SubjectContext, request: Request, at: Instant)
    ensures Evaluate(le, v, subject, request, at, Check).reason == UnknownPermission
            <==> FindBy(CodeOf, v.permissions, Code(request.resource, request.action)).None?
  {
    hide Code, CombinedScope, ScopeMatches, ContextIsComplete, FlatMap, FindBy;
  }

  // A point check is answered with the first of these that applies: no such
  // permission, no context where one is needed, a context with other dimensions,
  // nothing granted, nothing granted matching; otherwise it is allowed.
  lemma {:induction false} ChecksSayWhy(le: Collation, p: Policy, subject: SubjectContext, request: Request, at: Instant)
    requires ValidPolicy(p)
    requires request.resourceContext.Some? ==> Distinct(Map(KeyOfEntry, request.resourceContext.value))
    ensures var code := Code(request.resource, request.action); var e := Evaluate(le, Normalized(p), subject, request, at, Check);
      && (e.allowed <==> e.reason == Allowed) && (e.scope.Some? <==> e.allowed) && e.policyVersion == p.version
      && (e.reason == UnknownPermission <==> forall x | x in p.permissions :: x.code != code)
      && (forall x | x in p.permissions && x.code == code :: e.reason == Verdict(p, x, subject, code, at, request.resourceContext))
  {
    hide ValidPolicy, Normalized, Code, FindBy, Verdict, Evaluate, Map, Distinct;
    var code := Code(request.resource, request.action);
    DeclaredIsFound(p, code);
    NormalizedVersion(p);
    AnswersAreWhole(le, Normalized(p), subject, request, at);
    UnknownIsUndeclared(le, Normalized(p), subject, request, at);
    forall x | x in p.permissions && x.code == code
      ensures Evaluate(le, Normalized(p), subject, request, at, Check).reason == Verdict(p, x, subject, code, at, request.resourceContext)
    {
      CheckFollowsVerdict(le, p, x, subject, request, at);
    }
  }

  lemma {:induction false} NormalizedVersion(p: Policy)
    ensures Normalized(p).version == p.version
  {
  }
}
