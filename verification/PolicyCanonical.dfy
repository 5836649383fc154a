// Lists that are normalised element by element and sorted by a key
// settle after one pass and forget their order:
// the scopes, bindings and roles of a policy.
module PolicyCanonical {
  import opened Prelude
  import opened Texts
  import opened PolicyModel
  import opened PolicyTerms

  // ------------------------------------------------- lists normalised and sorted

  lemma {:induction false} MapCompose<A, B, C>(f: A -> B, g: B -> C, h: A -> C, s: seq<A>)
    requires forall x | x in s :: g(f(x)) == h(x)
    ensures Map(g, Map(f, s)) == Map(h, s)
  {
    if s != [] {
      MapCompose(f, g, h, s[1..]);
      assert s[0] in s;
    }
  }

  ghost predicate SettlesOn<A(!new)>(norm: A -> A, s: seq<A>) {
    forall x | x in s :: norm(norm(x)) == norm(x)
  }

  function Arrange<A>(norm: A -> A, key: A -> Text, s: seq<A>): seq<A> {
    Sort(ByKey(key), Map(norm, s))
  }

  lemma {:induction false} ArrangeMembers<A(!new)>(norm: A -> A, key: A -> Text, s: seq<A>, y: A)
    ensures y in Arrange(norm, key, s) <==> exists x :: x in s && norm(x) == y
  {
    SortMembers(ByKey(key), Map(norm, s));
    MapMembers(norm, s);
    hide Map, Sort;
    if i :| 0 <= i < |s| && norm(s[i]) == y {
      assert s[i] in s;
    }
  }

  // Normalising each element and sorting by distinct keys settles.
  lemma {:induction false} ArrangeSettles<A(!new)>(norm: A -> A, key: A -> Text, s: seq<A>)
    requires SettlesOn(norm, s) && Distinct(Map(key, Map(norm, s)))
    ensures var r := Arrange(norm, key, s);
      && |r| == |s| && multiset(r) == multiset(Map(norm, s))
      && Map(norm, r) == r && Sort(ByKey(key), r) == r && Arrange(norm, key, r) == r
      && multiset(Map(key, r)) == multiset(Map(key, Map(norm, s))) && Distinct(Map(key, r))
  {
    var m := Map(norm, s);
    var r := Arrange(norm, key, s);
    DistinctKeysSeparate(key, m);
    SortByKeySettles(key, m);
    SortContents(ByKey(key), m);
    MapForgetsOrder(key, r, m);
    DistinctIsOrderFree(Map(key, r), Map(key, m));
    hide Map, Sort, Distinct;
    forall y | y in r ensures norm(y) == y {
      ArrangeMembers(norm, key, s, y);
    }
    MapIdentity(norm, r);
  }

  // ... and depends on the elements only through their bags.
  lemma {:induction false} ArrangeForgetsOrder<A(!new), B>(bag: A -> B, norm: A -> A, key: A -> Text, s: seq<A>, t: seq<A>)
    requires DependsOn(bag, norm, s, t) && multiset(Map(bag, s)) == multiset(Map(bag, t))
    requires Distinct(Map(key, Map(norm, s)))
    ensures Arrange(norm, key, s) == Arrange(norm, key, t)
  {
    MapFactors(bag, norm, s, t);
    DistinctKeysSeparate(key, Map(norm, s));
    SortByKeyForgetsOrder(key, Map(norm, s), Map(norm, t));
  }

  lemma {:induction false} Partner<A(!new), B(!new)>(bag: A -> B, s: seq<A>, t: seq<A>, y: A)
    requires multiset(Map(bag, s)) == multiset(Map(bag, t)) && y in t
    ensures exists x :: x in s && bag(x) == bag(y)
  {
    SameMembers(Map(bag, s), Map(bag, t));
    MapMembers(bag, s);
    MapMembers(bag, t);
    hide Map;
    assert bag(y) in Map(bag, s);
    var i :| 0 <= i < |s| && bag(s[i]) == bag(y);
    assert s[i] in s;
  }

  lemma {:induction false} SameLength<A, B>(bag: A -> B, s: seq<A>, t: seq<A>)
    requires multiset(Map(bag, s)) == multiset(Map(bag, t))
    ensures |s| == |t|
  {
    assert |multiset(Map(bag, s))| == |s| && |multiset(Map(bag, t))| == |t|;
  }

  // A key read off the bags is distinct on both sides or on neither.
  lemma {:induction false} SameKeysDistinct<A(!new), B>(bag: A -> B, key: A -> Text, s: seq<A>, t: seq<A>)
    requires multiset(Map(bag, s)) == multiset(Map(bag, t)) && DependsOn(bag, key, s, t)
    ensures Distinct(Map(key, s)) <==> Distinct(Map(key, t))
  {
    MapFactors(bag, key, s, t);
    DistinctIsOrderFree(Map(key, s), Map(key, t));
  }

  // ------------------------------------------------------------------- scopes

  lemma {:induction false} NormScopeMember(s: Scope, t: Term)
    requires t in NormScope(s).terms
    ensures exists u :: u in s.terms && t == NormTerm(u)
  {
    var mapped := Map(NormTerm, s.terms);
    MapMembers(NormTerm, s.terms);
    if All !in mapped {
      SortMembers(ByKey(TermText), DedupeBy(TermText, mapped));
      DedupeContents(mapped);
    }
    hide Map, Sort, TermText, NormTerm;
    assert t in mapped;
    var i :| 0 <= i < |s.terms| && NormTerm(s.terms[i]) == t;
    assert s.terms[i] in s.terms;
  }

  lemma {:induction false} NormScopeSize(s: Scope)
    requires 1 <= |s.terms|
    ensures 1 <= |NormScope(s).terms| <= |s.terms|
  {
    hide TermText, NormTerm;
    SortContents(ByKey(TermText), DedupeBy(TermText, Map(NormTerm, s.terms)));
  }

  lemma {:induction false} NormTermsSettle(terms: seq<Term>)
    ensures NormTerms(NormTerms(terms)) == NormTerms(terms)
    ensures Sort(ByKey(TermText), NormTerms(terms)) == NormTerms(terms)
  {
    hide TermText;
    var d := DedupeBy(TermText, terms);
    var r := NormTerms(terms);
    if All !in terms {
      DedupeContents(terms);
      TextSeparatesTerms(d);
      SortByKeySettles(TermText, d);
      SortMembers(ByKey(TermText), d);
      SortContents(ByKey(TermText), d);
      DistinctIsOrderFree(r, d);
      DedupeOfDistinct(r);
    } else {
      assert Sort(ByKey(TermText), [All]) == Insert(ByKey(TermText), All, []);
    }
  }

  lemma {:induction false} ScopeSettles(dimensions: seq<Text>, s: Scope)
    requires ValidScope(dimensions, s)
    ensures var n := NormScope(s);
      NormScope(n) == n && Scope(Sort(ByKey(TermText), Map(CanonTerm, n.terms))) == n
  {
    var n := NormScope(s);
    NormTermsSettle(Map(NormTerm, s.terms));
    hide TermText, Map, NormTerms, Sort;
    forall t | t in n.terms ensures NormTerm(t) == t && CanonTerm(t) == t {
      NormScopeMember(s, t);
      var u :| u in s.terms && t == NormTerm(u);
      TermSettles(dimensions, u);
    }
    MapIdentity(NormTerm, n.terms);
    MapIdentity(CanonTerm, n.terms);
  }

  lemma {:induction false} NormScopeStaysValid(dimensions: seq<Text>, dimensions': seq<Text>, s: Scope)
    requires ValidScope(dimensions, s) && multiset(dimensions) == multiset(dimensions')
    ensures ValidScope(dimensions', NormScope(s))
  {
    NormScopeSize(s);
    hide NormScope, NormTerm, ValidTerm;
    forall t | t in NormScope(s).terms ensures ValidTerm(dimensions', t) {
      NormScopeMember(s, t);
      var u :| u in s.terms && t == NormTerm(u);
      NormTermStaysValid(dimensions, dimensions', u);
    }
  }

  // ----------------------------------------------------------------- bindings

  // Each permission has a counterpart with the same code and dimensions.
  ghost predicate Covers(permissions: seq<Permission>, permissions': seq<Permission>) {
    forall p | p in permissions ::
      exists p' :: p' in permissions' && p'.code == p.code && multiset(p'.scopeDimensions) == multiset(p.scopeDimensions)
  }

  lemma {:induction false} BindingSettles(permissions: seq<Permission>, b: Binding)
    requires ValidBinding(permissions, b)
    ensures NormBinding(NormBinding(b)) == NormBinding(b) && CanonBinding(NormBinding(b)) == NormBinding(b)
  {
    var p :| p in permissions && p.code == b.permissionCode && ValidScope(p.scopeDimensions, b.scope);
    ScopeSettles(p.scopeDimensions, b.scope);
  }

  lemma {:induction false} NormBindingStaysValid(permissions: seq<Permission>, permissions': seq<Permission>, b: Binding)
    requires ValidBinding(permissions, b) && Covers(permissions, permissions')
    ensures ValidBinding(permissions', NormBinding(b))
  {
    var p :| p in permissions && p.code == b.permissionCode && ValidScope(p.scopeDimensions, b.scope);
    var p' :| p' in permissions' && p'.code == p.code && multiset(p'.scopeDimensions) == multiset(p.scopeDimensions);
    NormScopeStaysValid(p.scopeDimensions, p'.scopeDimensions, b.scope);
  }

  // -------------------------------------------------------------------- roles

  const FinalRole: Role -> Role := (r: Role) => Role(Lower(r.roleId), Arrange(NormBinding, BoundCode, r.permissions))

  lemma {:induction false} LowerSettles(t: Text)
    ensures Lower(Lower(t)) == Lower(t)
  {
  }

  lemma {:induction false} RoleCodes(r: Role)
    ensures Map(BoundCode, Map(NormBinding, r.permissions)) == Map(BoundCode, r.permissions)
  {
    MapCompose(NormBinding, BoundCode, BoundCode, r.permissions);
  }

  lemma {:induction false} RoleBindingsSettle(permissions: seq<Permission>, r: Role)
    requires ValidRole(permissions, r)
    ensures SettlesOn(NormBinding, r.permissions)
    ensures Map(CanonBinding, Map(NormBinding, r.permissions)) == Map(NormBinding, r.permissions)
  {
    hide NormBinding, CanonBinding, ValidBinding;
    forall b | b in r.permissions ensures NormBinding(NormBinding(b)) == NormBinding(b) && CanonBinding(NormBinding(b)) == NormBinding(b) {
      BindingSettles(permissions, b);
    }
    MapCompose(NormBinding, CanonBinding, NormBinding, r.permissions);
  }

  lemma {:induction false} RoleIsFinal(permissions: seq<Permission>, r: Role)
    requires ValidRole(permissions, r)
    ensures CanonRole(NormRole(r)) == FinalRole(r)
  {
    RoleBindingsSettle(permissions, r);
  }

  lemma {:induction false} FinalRoleShape(permissions: seq<Permission>, r: Role)
    requires ValidRole(permissions, r)
    ensures var f := FinalRole(r);
      && Map(NormBinding, f.permissions) == f.permissions
      && Arrange(NormBinding, BoundCode, f.permissions) == f.permissions
      && |f.permissions| == |r.permissions| && Distinct(Map(BoundCode, f.permissions))
  {
    RoleBindingsSettle(permissions, r);
    RoleCodes(r);
    ArrangeSettles(NormBinding, BoundCode, r.permissions);
  }

  lemma {:induction false} FinalRoleSettles(permissions: seq<Permission>, r: Role)
    requires ValidRole(permissions, r)
    ensures FinalRole(FinalRole(r)) == FinalRole(r) && NormRole(FinalRole(r)) == FinalRole(r)
  {
    FinalRoleShape(permissions, r);
    LowerSettles(r.roleId);
    hide Lower, Arrange, Map;
  }

  lemma {:induction false} FinalRoleStaysValid(permissions: seq<Permission>, permissions': seq<Permission>, r: Role)
    requires ValidRole(permissions, r) && Covers(permissions, permissions')
    ensures ValidRole(permissions', FinalRole(r))
  {
    FinalRoleShape(permissions, r);
    hide NormBinding, ValidBinding, Arrange, Map, Distinct, Lower, Covers;
    forall b | b in FinalRole(r).permissions ensures ValidBinding(permissions', b) {
      ArrangeMembers(NormBinding, BoundCode, r.permissions, b);
      var b0 :| b0 in r.permissions && NormBinding(b0) == b;
      NormBindingStaysValid(permissions, permissions', b0);
    }
  }
}
