// The canonical form of a policy: valid, settled after one pass, the same for every reordering.
module PolicyTheorems {
  import opened Prelude
  import opened Texts
  import opened PolicyModel
  import opened PolicyTerms
  import opened PolicyCanonical

  // What canonicalising a valid policy comes to.
  function Final(p: Policy): Policy {
    Policy(Arrange(NormPermission, CodeOf, p.permissions), Arrange(FinalRole, RoleIdOf, p.roles), Arrange(NormGrant, GrantIdOf, p.grants), p.version)
  }

  lemma {:induction false} ArrangedIsFinal(p: Policy)
    requires ValidPolicy(p)
    ensures Arranged(Normalized(p)) == Final(p)
  {
    forall r | r in p.roles ensures CanonRole(NormRole(r)) == FinalRole(r) {
      RoleIsFinal(p.permissions, r);
    }
    hide CanonRole, NormRole, FinalRole, ValidRole;
    MapCompose(NormRole, CanonRole, FinalRole, p.roles);
  }

  // ------------------------------------------------------ parts of a policy

  lemma {:induction false} PermissionsSettle(p: Policy)
    requires ValidPolicy(p)
    ensures var r := Final(p).permissions;
      && Map(NormPermission, r) == r && Arrange(NormPermission, CodeOf, r) == r && Sort(ByKey(CodeOf), r) == r
      && |r| == |p.permissions| && Distinct(Map(CodeOf, r))
  {
    forall x | x in p.permissions ensures NormPermission(NormPermission(x)) == NormPermission(x) {
      SortTextsSettles(x.scopeDimensions);
    }
    MapCompose(NormPermission, CodeOf, CodeOf, p.permissions);
    ArrangeSettles(NormPermission, CodeOf, p.permissions);
  }

  lemma {:induction false} NormPermissionStaysValid(x: Permission)
    requires ValidPermission(x)
    ensures ValidPermission(NormPermission(x)) && multiset(NormPermission(x).scopeDimensions) == multiset(x.scopeDimensions)
  {
    SortTextsSettles(x.scopeDimensions);
    DistinctIsOrderFree(x.scopeDimensions, SortTexts(x.scopeDimensions));
  }

  lemma {:induction false} PermissionsStayValid(p: Policy)
    requires ValidPolicy(p)
    ensures forall x :: x in Final(p).permissions ==> ValidPermission(x)
    ensures Covers(p.permissions, Final(p).permissions)
  {
    var r := Final(p).permissions;
    hide NormPermission, ValidPermission, Arrange, Map, Distinct, ValidRole, ValidGrant;
    forall y | y in r ensures ValidPermission(y) {
      ArrangeMembers(NormPermission, CodeOf, p.permissions, y);
      var x :| x in p.permissions && NormPermission(x) == y;
      NormPermissionStaysValid(x);
    }
    forall x | x in p.permissions
      ensures exists x' :: x' in r && x'.code == x.code && multiset(x'.scopeDimensions) == multiset(x.scopeDimensions)
    {
      ArrangeMembers(NormPermission, CodeOf, p.permissions, NormPermission(x));
      NormPermissionStaysValid(x);
      NormKeepsCode(x);
    }
  }

  lemma {:induction false} NormKeepsCode(x: Permission)
    ensures NormPermission(x).code == x.code
  {
  }

  lemma {:induction false} RolesSettle(p: Policy)
    requires ValidPolicy(p)
    ensures var r := Final(p).roles;
      && Map(NormRole, r) == r && Map(CanonRole, r) == r && Arrange(FinalRole, RoleIdOf, r) == r
      && |r| == |p.roles| && Distinct(Map(LowerRoleId, r))
      && multiset(Map(LowerRoleId, r)) == multiset(Map(LowerRoleId, p.roles))
  {
    hide NormRole, CanonRole, FinalRole, ValidRole, ValidGrant, ValidPermission, Map, Distinct, Lower;
    forall x | x in p.roles ensures FinalRole(FinalRole(x)) == FinalRole(x) && NormRole(FinalRole(x)) == FinalRole(x) {
      FinalRoleSettles(p.permissions, x);
    }
    forall x | x in p.roles ensures RoleIdOf(FinalRole(x)) == LowerRoleId(x) {
      FinalRoleId(x);
    }
    MapCompose(FinalRole, RoleIdOf, LowerRoleId, p.roles);
    ArrangeSettles(FinalRole, RoleIdOf, p.roles);
    var r := Final(p).roles;
    forall y | y in r ensures NormRole(y) == y && CanonRole(y) == y && LowerRoleId(y) == RoleIdOf(y) {
      ArrangeMembers(FinalRole, RoleIdOf, p.roles, y);
      var x :| x in p.roles && FinalRole(x) == y;
      RoleIsFinal(p.permissions, x);
      RoleOfFinal(p.permissions, x);
    }
    MapIdentity(NormRole, r);
    MapIdentity(CanonRole, r);
    SameKeyMaps(LowerRoleId, RoleIdOf, r);
  }

  lemma {:induction false} FinalRoleId(x: Role)
    ensures RoleIdOf(FinalRole(x)) == LowerRoleId(x)
  {
  }

  lemma {:induction false} RoleOfFinal(permissions: seq<Permission>, x: Role)
    requires ValidRole(permissions, x)
    ensures CanonRole(FinalRole(x)) == FinalRole(x) && LowerRoleId(FinalRole(x)) == RoleIdOf(FinalRole(x))
  {
    FinalRoleShape(permissions, x);
    LowerSettles(x.roleId);
    var f := FinalRole(x);
    forall b | b in f.permissions ensures CanonBinding(b) == b {
      ArrangeMembers(NormBinding, BoundCode, x.permissions, b);
      var b0 :| b0 in x.permissions && NormBinding(b0) == b;
      BindingSettles(permissions, b0);
    }
    MapIdentity(CanonBinding, f.permissions);
  }

  lemma {:induction false} SameKeyMaps<A(!new)>(f: A -> Text, g: A -> Text, s: seq<A>)
    requires forall x | x in s :: f(x) == g(x)
    ensures Map(f, s) == Map(g, s)
  {
    if s != [] {
      SameKeyMaps(f, g, s[1..]);
      assert s[0] in s;
    }
  }

  lemma {:induction false} RolesStayValid(p: Policy)
    requires ValidPolicy(p)
    ensures forall x :: x in Final(p).roles ==> ValidRole(Final(p).permissions, x)
  {
    PermissionsStayValid(p);
    hide FinalRole, ValidRole, ValidGrant, ValidPermission, Map, Distinct, Arrange, Covers;
    forall y | y in Final(p).roles ensures ValidRole(Final(p).permissions, y) {
      ArrangeMembers(FinalRole, RoleIdOf, p.roles, y);
      var x :| x in p.roles && FinalRole(x) == y;
      FinalRoleStaysValid(p.permissions, Final(p).permissions, x);
    }
  }

  lemma {:induction false} GrantSettles(g: Grant)
    ensures NormGrant(NormGrant(g)) == NormGrant(g) && GrantIdOf(NormGrant(g)) == LowerGrantId(g)
    ensures LowerGrantId(NormGrant(g)) == GrantIdOf(NormGrant(g))
  {
    LowerSettles(g.grantId);
    LowerSettles(g.roleId);
    LowerSettles(g.subject.id);
  }

  lemma {:induction false} GrantsSettle(p: Policy)
    requires ValidPolicy(p)
    ensures var r := Final(p).grants;
      && Map(NormGrant, r) == r && Arrange(NormGrant, GrantIdOf, r) == r && Sort(ByKey(GrantIdOf), r) == r
      && |r| == |p.grants| && Distinct(Map(LowerGrantId, r))
  {
    hide NormGrant, ValidRole, ValidGrant, ValidPermission, Map, Distinct, Lower;
    forall x | x in p.grants ensures NormGrant(NormGrant(x)) == NormGrant(x) && GrantIdOf(NormGrant(x)) == LowerGrantId(x) {
      GrantSettles(x);
    }
    MapCompose(NormGrant, GrantIdOf, LowerGrantId, p.grants);
    ArrangeSettles(NormGrant, GrantIdOf, p.grants);
    var r := Final(p).grants;
    forall y | y in r ensures LowerGrantId(y) == GrantIdOf(y) {
      ArrangeMembers(NormGrant, GrantIdOf, p.grants, y);
      var x :| x in p.grants && NormGrant(x) == y;
      GrantSettles(x);
    }
    SameKeyMaps(LowerGrantId, GrantIdOf, r);
  }

  lemma {:induction false} NormGrantStaysValid(roles: seq<Role>, roles': seq<Role>, g: Grant)
    requires ValidGrant(roles, g) && multiset(Map(LowerRoleId, roles')) == multiset(Map(LowerRoleId, roles))
    ensures ValidGrant(roles', NormGrant(g))
  {
    LowerSettles(g.roleId);
    SameMembers(Map(LowerRoleId, roles'), Map(LowerRoleId, roles));
  }

  lemma {:induction false} GrantsStayValid(p: Policy)
    requires ValidPolicy(p)
    ensures forall x :: x in Final(p).grants ==> ValidGrant(Final(p).roles, x)
  {
    RolesSettle(p);
    hide NormGrant, ValidRole, ValidGrant, ValidPermission, Map, Distinct, Arrange, Lower;
    forall y | y in Final(p).grants ensures ValidGrant(Final(p).roles, y) {
      ArrangeMembers(NormGrant, GrantIdOf, p.grants, y);
      var x :| x in p.grants && NormGrant(x) == y;
      NormGrantStaysValid(p.roles, Final(p).roles, x);
    }
  }

  // ---------------------------------------------------------------- idempotent

  lemma {:induction false} FinalIsValid(p: Policy)
    requires ValidPolicy(p)
    ensures ValidPolicy(Final(p))
  {
    PermissionsSettle(p);
    PermissionsStayValid(p);
    RolesSettle(p);
    RolesStayValid(p);
    GrantsSettle(p);
    GrantsStayValid(p);
    hide Final, ValidRole, ValidGrant, ValidPermission, Map, Distinct, Covers;
  }

  lemma {:induction false} FinalSettles(p: Policy)
    requires ValidPolicy(p)
    ensures Normalized(Final(p)) == Final(p) && Arranged(Final(p)) == Final(p) && Final(Final(p)) == Final(p)
  {
    PermissionsSettle(p);
    RolesSettle(p);
    GrantsSettle(p);
    FinalIsValid(p);
    ArrangedIsFinal(Final(p));
    hide ValidPolicy, Map, Distinct, Arrange;
  }

  predicate Populated(p: Policy) {
    p.permissions != [] && p.roles != [] && p.grants != []
  }

  // What canonicalising does, in one line.
  lemma {:induction false} CanonicalizeIsFinal(p: Policy)
    ensures Canonicalize(p) == if ValidPolicy(p) && Populated(p) then Some(Final(p)) else None
  {
    NormalizedSizes(p);
    hide ValidPolicy, Final, Normalized, Arranged;
    if ValidPolicy(p) {
      ArrangedIsFinal(p);
    }
  }

  lemma {:induction false} FinalSizes(p: Policy)
    requires ValidPolicy(p)
    ensures Populated(Final(p)) <==> Populated(p)
  {
    PermissionsSettle(p);
    RolesSettle(p);
    GrantsSettle(p);
    hide ValidPolicy, Map, Distinct, Arrange, Final;
  }

  // Canonicalising a canonical policy gives it back; in particular validation
  // accepts it and leaves it as it is.
  lemma {:induction false} CanonicalizeIsIdempotent(p: Policy)
    requires Canonicalize(p).Some?
    ensures var c := Canonicalize(p).value;
      Canonicalize(c) == Some(c) && Validate(c, p.version) == Some(c) && c.version == p.version
  {
    var c := Final(p);
    assert c.version == p.version;
    hide Canonicalize, ValidPolicy, Final, Normalized, Populated;
    CanonicalizeIsFinal(p);
    FinalIsValid(p);
    FinalSettles(p);
    FinalSizes(p);
    CanonicalizeIsFinal(c);
  }

  lemma {:induction false} NormalizedSizes(p: Policy)
    ensures |Normalized(p).permissions| == |p.permissions| && |Normalized(p).roles| == |p.roles| && |Normalized(p).grants| == |p.grants|
  {
  }

  // ------------------------------------------------------------ order does not matter

  datatype ConstraintBag = ConstraintBag(dimension: Text, values: multiset<Text>)
  datatype TermBag = AllBag | MatchBag(constraints: multiset<ConstraintBag>)
  datatype BindingBag = BindingBag(permissionCode: Text, terms: multiset<TermBag>)
  datatype RoleBag = RoleBag(roleId: Text, permissions: multiset<BindingBag>)
  datatype PermissionBag = PermissionBag(action: Text, code: Text, resource: Text, scopeDimensions: multiset<Text>)
  datatype PolicyBag = PolicyBag(permissions: multiset<PermissionBag>, roles: multiset<RoleBag>, grants: multiset<Grant>, version: Text)

  const BagOfConstraint: Constraint -> ConstraintBag := (c: Constraint) => ConstraintBag(c.dimension, multiset(c.values))
  const BagOfTerm: Term -> TermBag := (t: Term) => if t.All? then AllBag else MatchBag(multiset(Map(BagOfConstraint, t.constraints)))
  const BagOfBinding: Binding -> BindingBag := (b: Binding) => BindingBag(b.permissionCode, multiset(Map(BagOfTerm, b.scope.terms)))
  const BagOfRole: Role -> RoleBag := (r: Role) => RoleBag(r.roleId, multiset(Map(BagOfBinding, r.permissions)))
  const BagOfPermission: Permission -> PermissionBag :=
    (p: Permission) => PermissionBag(p.action, p.code, p.resource, multiset(p.scopeDimensions))

  // A policy with every order in it forgotten: permissions, dimensions, roles,
  // bindings, terms, constraints, values and grants.
  function BagOf(p: Policy): PolicyBag {
    PolicyBag(multiset(Map(BagOfPermission, p.permissions)), multiset(Map(BagOfRole, p.roles)), multiset(p.grants), p.version)
  }

  lemma {:induction false} ConstraintBagDecides(c: Constraint, d: Constraint)
    requires BagOfConstraint(c) == BagOfConstraint(d)
    ensures NormConstraint(c) == NormConstraint(d) && DimensionOf(c) == DimensionOf(d)
  {
    SortTextsForgetsOrder(c.values, d.values);
  }

  lemma {:induction false} ConstraintBagValid(dimensions: seq<Text>, dimensions': seq<Text>, c: Constraint, d: Constraint)
    requires BagOfConstraint(c) == BagOfConstraint(d) && multiset(dimensions) == multiset(dimensions') && ValidConstraint(dimensions, c)
    ensures ValidConstraint(dimensions', d)
  {
    assert |multiset(c.values)| == |c.values| && |multiset(d.values)| == |d.values|;
    DistinctIsOrderFree(c.values, d.values);
    SameMembers(dimensions, dimensions');
  }

  lemma {:induction false} ConstraintBagsDepend(cs: seq<Constraint>, ds: seq<Constraint>)
    ensures DependsOn(BagOfConstraint, NormConstraint, cs, ds) && DependsOn(BagOfConstraint, DimensionOf, cs, ds)
  {
    forall x, y | x in cs && y in ds && BagOfConstraint(x) == BagOfConstraint(y) ensures NormConstraint(x) == NormConstraint(y) && DimensionOf(x) == DimensionOf(y) {
      ConstraintBagDecides(x, y);
    }
  }

  lemma {:induction false} TermBagDecides(dimensions: seq<Text>, dimensions': seq<Text>, t: Term, u: Term)
    requires BagOfTerm(t) == BagOfTerm(u) && multiset(dimensions) == multiset(dimensions') && ValidTerm(dimensions, t)
    ensures ValidTerm(dimensions', u) && NormTerm(t) == NormTerm(u)
  {
    if t.Match? {
      assert u.Match?;
      var cs, ds := t.constraints, u.constraints;
      assert |multiset(dimensions)| == |dimensions| && |multiset(dimensions')| == |dimensions'|;
      ConstraintBagsDepend(cs, ds);
      SameLength(BagOfConstraint, cs, ds);
      SameKeysDistinct(BagOfConstraint, DimensionOf, cs, ds);
      NormKeepsDimensions(cs);
      ArrangeForgetsOrder(BagOfConstraint, NormConstraint, DimensionOf, cs, ds);
      hide ValidConstraint, Map, Distinct, DependsOn;
      forall d | d in ds ensures ValidConstraint(dimensions', d) {
        Partner(BagOfConstraint, cs, ds, d);
        var c :| c in cs && BagOfConstraint(c) == BagOfConstraint(d);
        ConstraintBagValid(dimensions, dimensions', c, d);
      }
    }
  }

  lemma {:induction false} TermBagsDepend(dimensions: seq<Text>, s: seq<Term>, t: seq<Term>)
    requires forall x | x in s :: ValidTerm(dimensions, x)
    ensures DependsOn(BagOfTerm, NormTerm, s, t)
  {
    hide ValidTerm, BagOfTerm, NormTerm;
    forall x, y | x in s && y in t && BagOfTerm(x) == BagOfTerm(y) ensures NormTerm(x) == NormTerm(y) {
      TermBagDecides(dimensions, dimensions, x, y);
    }
  }

  lemma {:induction false} ScopeBagDecides(dimensions: seq<Text>, dimensions': seq<Text>, s: Scope, t: Scope)
    requires multiset(Map(BagOfTerm, s.terms)) == multiset(Map(BagOfTerm, t.terms))
    requires multiset(dimensions) == multiset(dimensions') && ValidScope(dimensions, s)
    ensures ValidScope(dimensions', t) && NormScope(s) == NormScope(t)
  {
    TermBagsDepend(dimensions, s.terms, t.terms);
    SameLength(BagOfTerm, s.terms, t.terms);
    MapFactors(BagOfTerm, NormTerm, s.terms, t.terms);
    NormTermsForgetOrder(Map(NormTerm, s.terms), Map(NormTerm, t.terms));
    hide ValidTerm, BagOfTerm, NormTerm, Map, NormTerms, DependsOn;
    forall u | u in t.terms ensures ValidTerm(dimensions', u) {
      Partner(BagOfTerm, s.terms, t.terms, u);
      var x :| x in s.terms && BagOfTerm(x) == BagOfTerm(u);
      TermBagDecides(dimensions, dimensions', x, u);
    }
  }

  lemma {:induction false} BindingBagDecides(permissions: seq<Permission>, permissions': seq<Permission>, b: Binding, c: Binding)
    requires BagOfBinding(b) == BagOfBinding(c) && ValidBinding(permissions, b) && Covers(permissions, permissions')
    ensures ValidBinding(permissions', c) && NormBinding(b) == NormBinding(c) && BoundCode(b) == BoundCode(c)
  {
    var p :| p in permissions && p.code == b.permissionCode && ValidScope(p.scopeDimensions, b.scope);
    var p' :| p' in permissions' && p'.code == p.code && multiset(p'.scopeDimensions) == multiset(p.scopeDimensions);
    hide ValidScope, NormScope;
    ScopeBagDecides(p.scopeDimensions, p'.scopeDimensions, b.scope, c.scope);
  }

  lemma {:induction false} RoleBagDecides(permissions: seq<Permission>, permissions': seq<Permission>, r: Role, q: Role)
    requires BagOfRole(r) == BagOfRole(q) && ValidRole(permissions, r) && Covers(permissions, permissions')
    ensures ValidRole(permissions', q) && FinalRole(r) == FinalRole(q) && LowerRoleId(r) == LowerRoleId(q)
  {
    var bs, cs := r.permissions, q.permissions;
    hide BagOfBinding, NormBinding, ValidBinding, Covers, Map, Distinct, Lower;
    forall b, c | b in bs && c in cs && BagOfBinding(b) == BagOfBinding(c)
      ensures NormBinding(b) == NormBinding(c) && BoundCode(b) == BoundCode(c) && ValidBinding(permissions', c)
    {
      BindingBagDecides(permissions, permissions', b, c);
    }
    assert DependsOn(BagOfBinding, NormBinding, bs, cs) && DependsOn(BagOfBinding, BoundCode, bs, cs);
    SameLength(BagOfBinding, bs, cs);
    SameKeysDistinct(BagOfBinding, BoundCode, bs, cs);
    RoleCodes(r);
    ArrangeForgetsOrder(BagOfBinding, NormBinding, BoundCode, bs, cs);
    forall c | c in cs ensures ValidBinding(permissions', c) {
      Partner(BagOfBinding, bs, cs, c);
    }
  }

  lemma {:induction false} PermissionBagDecides(p: Permission, q: Permission)
    requires BagOfPermission(p) == BagOfPermission(q)
    ensures NormPermission(p) == NormPermission(q) && CodeOf(p) == CodeOf(q) && (ValidPermission(p) ==> ValidPermission(q))
  {
    assert |multiset(p.scopeDimensions)| == |p.scopeDimensions| && |multiset(q.scopeDimensions)| == |q.scopeDimensions|;
    SortTextsForgetsOrder(p.scopeDimensions, q.scopeDimensions);
    DistinctIsOrderFree(p.scopeDimensions, q.scopeDimensions);
  }

  lemma {:induction false} SamePermissionBag(x: Permission, y: Permission)
    requires BagOfPermission(y) == BagOfPermission(x)
    ensures y.code == x.code && multiset(y.scopeDimensions) == multiset(x.scopeDimensions)
  {
  }

  lemma {:induction false} PermissionBagsCover(s: seq<Permission>, t: seq<Permission>)
    requires multiset(Map(BagOfPermission, s)) == multiset(Map(BagOfPermission, t))
    ensures Covers(s, t)
  {
    hide BagOfPermission, Map;
    forall x | x in s ensures exists y :: y in t && y.code == x.code && multiset(y.scopeDimensions) == multiset(x.scopeDimensions) {
      Partner(BagOfPermission, t, s, x);
      var y :| y in t && BagOfPermission(y) == BagOfPermission(x);
      SamePermissionBag(x, y);
    }
  }

  lemma {:induction false} PermissionBagsDepend(s: seq<Permission>, t: seq<Permission>)
    ensures DependsOn(BagOfPermission, NormPermission, s, t) && DependsOn(BagOfPermission, CodeOf, s, t)
  {
    hide BagOfPermission, NormPermission, CodeOf;
    forall x, y | x in s && y in t && BagOfPermission(x) == BagOfPermission(y) ensures NormPermission(x) == NormPermission(y) && CodeOf(x) == CodeOf(y) {
      PermissionBagDecides(x, y);
    }
  }

  lemma {:induction false} PermissionListsDecide(s: seq<Permission>, t: seq<Permission>)
    requires multiset(Map(BagOfPermission, s)) == multiset(Map(BagOfPermission, t))
    requires Distinct(Map(CodeOf, s))
    ensures |s| == |t| && Distinct(Map(CodeOf, t)) && Arrange(NormPermission, CodeOf, s) == Arrange(NormPermission, CodeOf, t)
  {
    MapCompose(NormPermission, CodeOf, CodeOf, s);
    hide BagOfPermission, NormPermission, CodeOf, Map, Distinct, DependsOn, Arrange;
    PermissionBagsDepend(s, t);
    SameLength(BagOfPermission, s, t);
    SameKeysDistinct(BagOfPermission, CodeOf, s, t);
    ArrangeForgetsOrder(BagOfPermission, NormPermission, CodeOf, s, t);
  }

  lemma {:induction false} ReorderedPermissionsValid(s: seq<Permission>, t: seq<Permission>)
    requires multiset(Map(BagOfPermission, s)) == multiset(Map(BagOfPermission, t))
    requires forall x :: x in s ==> ValidPermission(x)
    ensures forall y :: y in t ==> ValidPermission(y)
  {
    hide BagOfPermission, ValidPermission, Map;
    forall y | y in t ensures ValidPermission(y) {
      Partner(BagOfPermission, s, t, y);
      var x :| x in s && BagOfPermission(x) == BagOfPermission(y);
      PermissionBagDecides(x, y);
    }
  }

  lemma {:induction false} PermissionBagsDecide(p: Policy, q: Policy)
    requires ValidPolicy(p) && BagOf(p) == BagOf(q)
    ensures forall x :: x in q.permissions ==> ValidPermission(x)
    ensures |q.permissions| == |p.permissions| && Distinct(Map(CodeOf, q.permissions)) && Covers(p.permissions, q.permissions)
    ensures Final(p).permissions == Final(q).permissions
  {
    hide BagOfPermission, NormPermission, ValidPermission, Map, Distinct, ValidRole, ValidGrant, Covers, Arrange;
    PermissionListsDecide(p.permissions, q.permissions);
    ReorderedPermissionsValid(p.permissions, q.permissions);
    PermissionBagsCover(p.permissions, q.permissions);
  }

  lemma {:induction false} RoleBagsDecide(p: Policy, q: Policy)
    requires ValidPolicy(p) && BagOf(p) == BagOf(q) && Covers(p.permissions, q.permissions)
    ensures forall x :: x in q.roles ==> ValidRole(q.permissions, x)
    ensures |q.roles| == |p.roles| && Distinct(Map(LowerRoleId, q.roles))
    ensures multiset(Map(LowerRoleId, q.roles)) == multiset(Map(LowerRoleId, p.roles))
    ensures Final(p).roles == Final(q).roles
  {
    var s, t := p.roles, q.roles;
    hide BagOfRole, FinalRole, ValidRole, ValidPermission, Map, Distinct, ValidGrant, Covers, Lower;
    forall x ensures RoleIdOf(FinalRole(x)) == LowerRoleId(x) {
      FinalRoleId(x);
    }
    MapCompose(FinalRole, RoleIdOf, LowerRoleId, s);
    forall x, y | x in s && y in t && BagOfRole(x) == BagOfRole(y)
      ensures FinalRole(x) == FinalRole(y) && LowerRoleId(x) == LowerRoleId(y) && ValidRole(q.permissions, y)
    {
      RoleBagDecides(p.permissions, q.permissions, x, y);
    }
    assert DependsOn(BagOfRole, FinalRole, s, t) && DependsOn(BagOfRole, LowerRoleId, s, t);
    SameLength(BagOfRole, s, t);
    SameKeysDistinct(BagOfRole, LowerRoleId, s, t);
    MapFactors(BagOfRole, LowerRoleId, s, t);
    ArrangeForgetsOrder(BagOfRole, FinalRole, RoleIdOf, s, t);
    forall y | y in t ensures ValidRole(q.permissions, y) {
      Partner(BagOfRole, s, t, y);
    }
  }

  lemma {:induction false} GrantBagsDecide(p: Policy, q: Policy)
    requires ValidPolicy(p) && BagOf(p) == BagOf(q)
    requires multiset(Map(LowerRoleId, q.roles)) == multiset(Map(LowerRoleId, p.roles))
    ensures forall x :: x in q.grants ==> ValidGrant(q.roles, x)
    ensures |q.grants| == |p.grants| && Distinct(Map(LowerGrantId, q.grants))
    ensures Final(p).grants == Final(q).grants
  {
    var s, t := p.grants, q.grants;
    assert |multiset(s)| == |s| && |multiset(t)| == |t|;
    SameMembers(s, t);
    SameMembers(Map(LowerRoleId, q.roles), Map(LowerRoleId, p.roles));
    MapForgetsOrder(NormGrant, s, t);
    MapForgetsOrder(LowerGrantId, s, t);
    DistinctIsOrderFree(Map(LowerGrantId, s), Map(LowerGrantId, t));
    hide NormGrant, ValidRole, ValidPermission, Map, Distinct, Lower;
    forall x ensures GrantIdOf(NormGrant(x)) == LowerGrantId(x) {
      GrantSettles(x);
    }
    MapCompose(NormGrant, GrantIdOf, LowerGrantId, s);
    DistinctKeysSeparate(GrantIdOf, Map(NormGrant, s));
    SortByKeyForgetsOrder(GrantIdOf, Map(NormGrant, s), Map(NormGrant, t));
  }

  lemma {:induction false} ReorderedIsValid(p: Policy, q: Policy)
    requires ValidPolicy(p) && BagOf(p) == BagOf(q)
    ensures ValidPolicy(q) && Final(p) == Final(q)
  {
    hide ValidRole, ValidGrant, ValidPermission, Map, Distinct, Covers, Arrange, BagOfPermission, BagOfRole;
    PermissionBagsDecide(p, q);
    RoleBagsDecide(p, q);
    GrantBagsDecide(p, q);
  }

  // Any reordering of permissions, roles, bindings, grants, terms, constraints,
  // values or dimensions canonicalises to the same policy, or is refused alike.
  lemma {:induction false} CanonicalizeForgetsOrder(p: Policy, q: Policy)
    requires BagOf(p) == BagOf(q)
    ensures Canonicalize(p) == Canonicalize(q)
  {
    BagSizes(p, q);
    assert Populated(p) <==> Populated(q) by { hide BagOf; }
    hide Canonicalize, ValidPolicy, Final, Populated, BagOf;
    CanonicalizeIsFinal(p);
    CanonicalizeIsFinal(q);
    if ValidPolicy(p) {
      ReorderedIsValid(p, q);
    } else if ValidPolicy(q) {
      ReorderedIsValid(q, p);
    }
  }

  lemma {:induction false} BagSizes(p: Policy, q: Policy)
    requires BagOf(p) == BagOf(q)
    ensures |p.permissions| == |q.permissions| && |p.roles| == |q.roles| && |p.grants| == |q.grants|
  {
    SameLength(BagOfPermission, p.permissions, q.permissions);
    SameLength(BagOfRole, p.roles, q.roles);
    assert |multiset(p.grants)| == |p.grants| && |multiset(q.grants)| == |q.grants|;
  }
}
