// A policy as text: its digest determines it.
module PolicyText {
  import opened Prelude
  import opened Texts
  import opened CanonicalJson
  import opened CanonicalUniqueness
  import opened JsonValues
  import opened PolicyModel
  import opened PolicyTerms

  // ------------------------------------------------------------ policy as text

  function MapJson<A>(f: A -> Json, s: seq<A>): seq<Json> {
    Map(f, s)
  }

  const JsonOfPermission: Permission -> Json := (p: Permission) =>
    Obj([Field(Lit("action"), Str(p.action)), Field(Lit("code"), Str(p.code)), Field(Lit("resource"), Str(p.resource)),
         Field(Lit("scopeDimensions"), Arr(Strings(p.scopeDimensions)))])

  function ScopeJson(terms: seq<Term>): Json {
    Obj([Field(Lit("terms"), Arr(MapJson(TermJson, terms))), Field(Lit("version"), Num(Decimal(1)))])
  }

  const JsonOfBinding: Binding -> Json := (b: Binding) =>
    Obj([Field(Lit("permissionCode"), Str(b.permissionCode)), Field(Lit("scope"), ScopeJson(b.scope.terms))])

  const JsonOfRole: Role -> Json := (r: Role) =>
    Obj([Field(Lit("permissions"), Arr(MapJson(JsonOfBinding, r.permissions))), Field(Lit("roleId"), Str(r.roleId))])

  function SubjectJson(s: Subject): Json {
    match s
    case Person(id) => Obj([Field(Lit("kind"), Str(Lit("workforce_person"))), Field(Lit("workforcePersonId"), Str(id))])
    case Assignment(id) => Obj([Field(Lit("assignmentId"), Str(id)), Field(Lit("kind"), Str(Lit("assignment")))])
  }

  // Instants print as ISO text; here, as the text of their number.
  const JsonOfGrant: Grant -> Json := (g: Grant) =>
    Obj([Field(Lit("grantId"), Str(g.grantId)), Field(Lit("roleId"), Str(g.roleId)), Field(Lit("subject"), SubjectJson(g.subject)),
         Field(Lit("validFrom"), Str(Decimal(g.validFrom))),
         Field(Lit("validTo"), if g.validTo.None? then Absent else Str(Decimal(g.validTo.value)))])

  function PolicyJson(p: Policy): Json {
    Obj([Field(Lit("grants"), Arr(MapJson(JsonOfGrant, p.grants))), Field(Lit("permissions"), Arr(MapJson(JsonOfPermission, p.permissions))),
         Field(Lit("roles"), Arr(MapJson(JsonOfRole, p.roles))), Field(Lit("version"), Str(p.version))])
  }

  // The hash is taken to be injective, so the digest is the text it hashes.
  function Digest(p: Policy): Text {
    Print(false, PolicyJson(p))
  }

  // ------------------------------------------------------------ lists as text

  // On these elements equal texts come from equal elements.
  ghost predicate Decides<A(!new)>(f: A -> Json, s: seq<A>, t: seq<A>) {
    forall x, y | x in s && y in t && Same(false, f(x), f(y)) :: x == y
  }

  lemma {:induction false} SameLists<A(!new)>(f: A -> Json, s: seq<A>, t: seq<A>)
    requires Decides(f, s, t) && Same(false, Arr(MapJson(f, s)), Arr(MapJson(f, t)))
    ensures s == t
  {
    MapAll(f, s);
    MapAll(f, t);
    hide Map;
    forall i | 0 <= i < |s| ensures s[i] == t[i] {
      assert Same(false, MapJson(f, s)[i], MapJson(f, t)[i]);
      assert s[i] in s && t[i] in t;
    }
  }

  lemma {:induction false} ListWellFormed<A(!new)>(f: A -> Json, s: seq<A>)
    requires forall x | x in s :: WellFormed(f(x))
    ensures WellFormed(Arr(MapJson(f, s)))
  {
    MapAll(f, s);
    hide Map;
    forall i | 0 <= i < |s| ensures WellFormed(MapJson(f, s)[i]) {
      assert s[i] in s;
    }
  }

  lemma {:induction false} StringsWellFormed(texts: seq<Text>)
    ensures WellFormed(Arr(Strings(texts)))
  {
  }

  // --------------------------------------------------------------- permissions

  lemma {:induction false} PermissionWellFormed(p: Permission)
    ensures WellFormed(JsonOfPermission(p)) && DistinctKeys(JsonOfPermission(p).fields)
  {
    assert |Lit("action")| == 6 && |Lit("code")| == 4 && |Lit("resource")| == 8 && |Lit("scopeDimensions")| == 15;
    StringsWellFormed(p.scopeDimensions);
    hide Lit;
  }

  lemma {:induction false} SamePermissions(p: Permission, q: Permission)
    requires Same(false, JsonOfPermission(p), JsonOfPermission(q))
    ensures p == q
  {
    var f, g := JsonOfPermission(p).fields, JsonOfPermission(q).fields;
    PermissionWellFormed(p);
    hide Lit, Same, DistinctKeys, WellFormed;
    SameScalars(f, g, 0);
    SameScalars(f, g, 1);
    SameScalars(f, g, 2);
    SameObjectsAgree(f, g, 3);
    SameStrings(p.scopeDimensions, q.scopeDimensions);
  }

  // --------------------------------------------------------- bindings and roles

  lemma {:induction false} ScopeWellFormed(terms: seq<Term>)
    ensures WellFormed(ScopeJson(terms)) && DistinctKeys(ScopeJson(terms).fields)
  {
    assert |Lit("terms")| == 5 && |Lit("version")| == 7;
    DecimalIsNumeral(1);
    forall t | t in terms ensures WellFormed(TermJson(t)) {
      TermWellFormed(t);
    }
    ListWellFormed(TermJson, terms);
    hide Lit, MapJson;
  }

  lemma {:induction false} SameScopes(s: seq<Term>, t: seq<Term>)
    requires Same(false, ScopeJson(s), ScopeJson(t))
    ensures s == t
  {
    ScopeWellFormed(s);
    hide Lit, Same, DistinctKeys, WellFormed, MapJson;
    SameObjectsAgree(ScopeJson(s).fields, ScopeJson(t).fields, 0);
    forall x, y | x in s && y in t && Same(false, TermJson(x), TermJson(y)) ensures x == y {
      SameTerms(x, y);
    }
    SameLists(TermJson, s, t);
  }

  lemma {:induction false} BindingWellFormed(b: Binding)
    ensures WellFormed(JsonOfBinding(b)) && DistinctKeys(JsonOfBinding(b).fields)
  {
    assert |Lit("permissionCode")| == 14 && |Lit("scope")| == 5;
    ScopeWellFormed(b.scope.terms);
    hide Lit, ScopeJson;
  }

  lemma {:induction false} SameBindings(b: Binding, c: Binding)
    requires Same(false, JsonOfBinding(b), JsonOfBinding(c))
    ensures b == c
  {
    var f, g := JsonOfBinding(b).fields, JsonOfBinding(c).fields;
    BindingWellFormed(b);
    hide Lit, Same, DistinctKeys, WellFormed, MapJson;
    SameScalars(f, g, 0);
    SameObjectsAgree(f, g, 1);
    SameScopes(b.scope.terms, c.scope.terms);
  }

  lemma {:induction false} RoleWellFormed(r: Role)
    ensures WellFormed(JsonOfRole(r)) && DistinctKeys(JsonOfRole(r).fields)
  {
    assert |Lit("permissions")| == 11 && |Lit("roleId")| == 6;
    forall b | b in r.permissions ensures WellFormed(JsonOfBinding(b)) {
      BindingWellFormed(b);
    }
    ListWellFormed(JsonOfBinding, r.permissions);
    hide Lit, MapJson, JsonOfBinding;
  }

  lemma {:induction false} SameRoles(r: Role, s: Role)
    requires Same(false, JsonOfRole(r), JsonOfRole(s))
    ensures r == s
  {
    var f, g := JsonOfRole(r).fields, JsonOfRole(s).fields;
    RoleWellFormed(r);
    hide Lit, Same, DistinctKeys, WellFormed, MapJson, JsonOfBinding;
    SameObjectsAgree(f, g, 0);
    SameScalars(f, g, 1);
    forall x, y | x in r.permissions && y in s.permissions && Same(false, JsonOfBinding(x), JsonOfBinding(y)) ensures x == y {
      SameBindings(x, y);
    }
    SameLists(JsonOfBinding, r.permissions, s.permissions);
  }

  // ------------------------------------------------------------------- grants

  lemma {:induction false} SubjectWellFormed(s: Subject)
    ensures WellFormed(SubjectJson(s)) && DistinctKeys(SubjectJson(s).fields)
  {
    assert |Lit("kind")| == 4 && |Lit("workforcePersonId")| == 17 && |Lit("assignmentId")| == 12;
  }

  lemma {:induction false} PersonIsNoAssignment(s: Subject, t: Subject)
    requires s.Person? && t.Assignment?
    ensures !Same(false, SubjectJson(s), SubjectJson(t)) && !Same(false, SubjectJson(t), SubjectJson(s))
  {
    assert |Lit("workforce_person")| == 16 && |Lit("assignment")| == 10;
    var f, g := SubjectJson(s).fields, SubjectJson(t).fields;
    hide Lit;
    if Same(false, SubjectJson(s), SubjectJson(t)) {
      SharedFieldAgrees(f, g, 0, 1);
    }
    if Same(false, SubjectJson(t), SubjectJson(s)) {
      SharedFieldAgrees(g, f, 1, 0);
    }
  }

  lemma {:induction false} SameSubjects(s: Subject, t: Subject)
    requires Same(false, SubjectJson(s), SubjectJson(t))
    ensures s == t
  {
    if s.Person? != t.Person? {
      if s.Person? { PersonIsNoAssignment(s, t); } else { PersonIsNoAssignment(t, s); }
    } else {
      SubjectWellFormed(s);
      var f, g := SubjectJson(s).fields, SubjectJson(t).fields;
      hide Lit, Same, DistinctKeys, WellFormed;
      SameScalars(f, g, 0);
      SameScalars(f, g, 1);
    }
  }

  lemma {:induction false} GrantWellFormed(g: Grant)
    ensures WellFormed(JsonOfGrant(g)) && DistinctKeys(JsonOfGrant(g).fields)
  {
    assert |Lit("grantId")| == 7 && |Lit("roleId")| == 6 && |Lit("subject")| == 7 && |Lit("validFrom")| == 9 && |Lit("validTo")| == 7;
    assert Lit("grantId")[0] != Lit("subject")[0] && Lit("grantId")[0] != Lit("validTo")[0] && Lit("subject")[0] != Lit("validTo")[0];
    SubjectWellFormed(g.subject);
    hide Lit, SubjectJson;
  }

  lemma {:induction false} SameGrants(g: Grant, h: Grant)
    requires Same(false, JsonOfGrant(g), JsonOfGrant(h))
    ensures g == h
  {
    var f, f' := JsonOfGrant(g).fields, JsonOfGrant(h).fields;
    assert SubjectJson(g.subject).Obj? && SubjectJson(h.subject).Obj?;
    GrantWellFormed(g);
    hide Lit, Same, DistinctKeys, WellFormed, SubjectJson, Decimal;
    SameScalars(f, f', 0);
    SameScalars(f, f', 1);
    SameObjectsAgree(f, f', 2);
    SameSubjects(g.subject, h.subject);
    SameScalars(f, f', 3);
    DecimalInjective(g.validFrom, h.validFrom);
    SameScalars(f, f', 4);
    if g.validTo.Some? {
      DecimalInjective(g.validTo.value, h.validTo.value);
    }
  }

  // ------------------------------------------------------------------ policies

  lemma {:induction false} PolicyPartsWellFormed(p: Policy)
    ensures WellFormed(Arr(MapJson(JsonOfGrant, p.grants))) && WellFormed(Arr(MapJson(JsonOfPermission, p.permissions)))
    ensures WellFormed(Arr(MapJson(JsonOfRole, p.roles)))
  {
    forall g | g in p.grants ensures WellFormed(JsonOfGrant(g)) { GrantWellFormed(g); }
    forall x | x in p.permissions ensures WellFormed(JsonOfPermission(x)) { PermissionWellFormed(x); }
    forall r | r in p.roles ensures WellFormed(JsonOfRole(r)) { RoleWellFormed(r); }
    hide WellFormed, MapJson, JsonOfGrant, JsonOfPermission, JsonOfRole;
    ListWellFormed(JsonOfGrant, p.grants);
    ListWellFormed(JsonOfPermission, p.permissions);
    ListWellFormed(JsonOfRole, p.roles);
  }

  lemma {:induction false} PolicyWellFormed(p: Policy)
    ensures WellFormed(PolicyJson(p)) && DistinctKeys(PolicyJson(p).fields)
  {
    assert |Lit("grants")| == 6 && |Lit("permissions")| == 11 && |Lit("roles")| == 5 && |Lit("version")| == 7;
    PolicyPartsWellFormed(p);
    hide Lit, MapJson, JsonOfGrant, JsonOfPermission, JsonOfRole;
  }

  lemma {:induction false} SamePolicies(p: Policy, q: Policy)
    requires Same(false, PolicyJson(p), PolicyJson(q))
    ensures p == q
  {
    var f, g := PolicyJson(p).fields, PolicyJson(q).fields;
    PolicyWellFormed(p);
    hide Lit, Same, DistinctKeys, WellFormed, MapJson, JsonOfGrant, JsonOfPermission, JsonOfRole;
    SameObjectsAgree(f, g, 0);
    SameObjectsAgree(f, g, 1);
    SameObjectsAgree(f, g, 2);
    SameScalars(f, g, 3);
    forall x, y | x in p.grants && y in q.grants && Same(false, JsonOfGrant(x), JsonOfGrant(y)) ensures x == y { SameGrants(x, y); }
    forall x, y | x in p.permissions && y in q.permissions && Same(false, JsonOfPermission(x), JsonOfPermission(y)) ensures x == y { SamePermissions(x, y); }
    forall x, y | x in p.roles && y in q.roles && Same(false, JsonOfRole(x), JsonOfRole(y)) ensures x == y { SameRoles(x, y); }
    SameLists(JsonOfGrant, p.grants, q.grants);
    SameLists(JsonOfPermission, p.permissions, q.permissions);
    SameLists(JsonOfRole, p.roles, q.roles);
  }

  // Two policies have the same digest exactly when they are the same.
  lemma {:induction false} DigestDecides(p: Policy, q: Policy)
    ensures Digest(p) == Digest(q) <==> p == q
  {
    PolicyWellFormed(p);
    PolicyWellFormed(q);
    CanonicalTextDecides(false, PolicyJson(p), PolicyJson(q));
    hide PolicyJson, Print, WellFormed, Same;
    if Digest(p) == Digest(q) {
      SamePolicies(p, q);
    }
  }
}
