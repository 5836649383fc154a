// Authorization policies: what a valid snapshot is, what validation makes of
// it, and its canonical form.
module PolicyModel {
  import opened Prelude
  import opened Texts
  import opened CanonicalJson
  import opened JsonValues

  // Milliseconds since the start of year 0000, the first instant accepted.
  type Instant = nat

  datatype Constraint = Constraint(dimension: Text, values: seq<Text>)

  datatype Term = All | Match(constraints: seq<Constraint>)

  datatype Scope = Scope(terms: seq<Term>)

  datatype Permission = Permission(action: Text, code: Text, resource: Text, scopeDimensions: seq<Text>)

  datatype Binding = Binding(permissionCode: Text, scope: Scope)

  datatype Role = Role(roleId: Text, permissions: seq<Binding>)

  datatype Subject = Person(id: Text) | Assignment(id: Text)

  datatype Grant = Grant(grantId: Text, roleId: Text, subject: Subject, validFrom: Instant, validTo: Option<Instant>)

  datatype Policy = Policy(permissions: seq<Permission>, roles: seq<Role>, grants: seq<Grant>, version: Text)

  // --------------------------------------------------------------------- keys

  const DimensionOf: Constraint -> Text := (c: Constraint) => c.dimension
  const CodeOf: Permission -> Text := (p: Permission) => p.code
  const BoundCode: Binding -> Text := (b: Binding) => b.permissionCode
  const RoleIdOf: Role -> Text := (r: Role) => r.roleId
  const GrantIdOf: Grant -> Text := (g: Grant) => g.grantId

  function LowerUnit(c: CodeUnit): CodeUnit {
    if 65 <= c <= 90 then c + 32 else c
  }

  // Lower-casing, on the characters a UUID has.
  function Lower(t: Text): (r: Text)
    ensures |r| == |t|
    ensures forall i :: 0 <= i < |t| ==> r[i] == LowerUnit(t[i])
  {
    seq(|t|, i requires 0 <= i < |t| => LowerUnit(t[i]))
  }

  const LowerRoleId: Role -> Text := (r: Role) => Lower(r.roleId)
  const LowerGrantId: Grant -> Text := (g: Grant) => Lower(g.grantId)

  function Code(resource: Text, action: Text): Text {
    resource + [COLON] + action
  }

  // ------------------------------------------------------------ terms as text

  function ConstraintJson(c: Constraint): Json {
    Obj([Field(Lit("dimension"), Str(c.dimension)), Field(Lit("values"), Arr(Strings(c.values)))])
  }

  function ConstraintsJson(cs: seq<Constraint>): (r: seq<Json>)
    ensures |r| == |cs|
    ensures forall i :: 0 <= i < |r| ==> r[i] == ConstraintJson(cs[i])
  {
    if cs == [] then [] else [ConstraintJson(cs[0])] + ConstraintsJson(cs[1..])
  }

  function TermJson(t: Term): Json {
    match t
    case All => Obj([Field(Lit("kind"), Str(Lit("all")))])
    case Match(cs) => Obj([Field(Lit("constraints"), Arr(ConstraintsJson(cs))), Field(Lit("kind"), Str(Lit("match")))])
  }

  // The text a term is compared and deduplicated by. Its keys are written in
  // alphabetical order already, so the plain and the canonical text agree.
  const TermText: Term -> Text := (t: Term) => Print(false, TermJson(t))

  // First occurrences only.
  function DedupeBy<T>(key: T -> Text, s: seq<T>): (r: seq<T>)
    ensures |r| <= |s|
    ensures s != [] ==> r != []
  {
    if s == [] then []
    else
      var n := |s| - 1;
      var rest := DedupeBy(key, s[..n]);
      if exists i :: 0 <= i < n && key(s[i]) == key(s[n]) then rest else rest + [s[n]]
  }

  // --------------------------------------------------------------- validation

  predicate ValidConstraint(dimensions: seq<Text>, c: Constraint) {
    c.dimension in dimensions && 1 <= |c.values| <= 256 && Distinct(c.values)
  }

  predicate ValidTerm(dimensions: seq<Text>, t: Term) {
    t.Match? ==>
      && 1 <= |t.constraints| <= 32
      && (forall c :: c in t.constraints ==> ValidConstraint(dimensions, c))
      && Distinct(Map(DimensionOf, t.constraints))
      && |t.constraints| == |dimensions|
  }

  predicate ValidScope(dimensions: seq<Text>, s: Scope) {
    1 <= |s.terms| <= 128 && forall t :: t in s.terms ==> ValidTerm(dimensions, t)
  }

  predicate ValidPermission(p: Permission) {
    p.code == Code(p.resource, p.action) && |p.scopeDimensions| <= 32 && Distinct(p.scopeDimensions)
  }

  predicate ValidBinding(permissions: seq<Permission>, b: Binding) {
    exists p :: p in permissions && p.code == b.permissionCode && ValidScope(p.scopeDimensions, b.scope)
  }

  predicate ValidRole(permissions: seq<Permission>, r: Role) {
    && 1 <= |r.permissions| <= 1000
    && Distinct(Map(BoundCode, r.permissions))
    && forall b :: b in r.permissions ==> ValidBinding(permissions, b)
  }

  predicate ValidGrant(roles: seq<Role>, g: Grant) {
    && Lower(g.roleId) in Map(LowerRoleId, roles)
    && (g.validTo.Some? ==> g.validFrom < g.validTo.value)
  }

  predicate ValidPolicy(p: Policy) {
    && |p.permissions| <= 10000 && |p.roles| <= 10000 && |p.grants| <= 100000
    && (forall x :: x in p.permissions ==> ValidPermission(x)) && Distinct(Map(CodeOf, p.permissions))
    && (forall x :: x in p.roles ==> ValidRole(p.permissions, x)) && Distinct(Map(LowerRoleId, p.roles))
    && (forall x :: x in p.grants ==> ValidGrant(p.roles, x)) && Distinct(Map(LowerGrantId, p.grants))
  }

  // ------------------------------------------------------- what validation makes

  function SortTexts(s: seq<Text>): seq<Text> {
    Sort(ByKey(SameText), s)
  }

  const NormConstraint: Constraint -> Constraint := (c: Constraint) => Constraint(c.dimension, SortTexts(c.values))

  const NormTerm: Term -> Term := (t: Term) =>
    if t.All? then All else Match(Sort(ByKey(DimensionOf), Map(NormConstraint, t.constraints)))

  function NormTerms(terms: seq<Term>): seq<Term> {
    if All in terms then [All] else Sort(ByKey(TermText), DedupeBy(TermText, terms))
  }

  function NormScope(s: Scope): Scope {
    Scope(NormTerms(Map(NormTerm, s.terms)))
  }

  const NormPermission: Permission -> Permission := (p: Permission) => p.(scopeDimensions := SortTexts(p.scopeDimensions))

  const NormBinding: Binding -> Binding := (b: Binding) => Binding(b.permissionCode, NormScope(b.scope))

  const NormRole: Role -> Role := (r: Role) => Role(Lower(r.roleId), Map(NormBinding, r.permissions))

  function LowerSubject(s: Subject): Subject {
    s.(id := Lower(s.id))
  }

  const NormGrant: Grant -> Grant := (g: Grant) =>
    Grant(Lower(g.grantId), Lower(g.roleId), LowerSubject(g.subject), g.validFrom, g.validTo)

  function Normalized(p: Policy): Policy {
    Policy(Map(NormPermission, p.permissions), Map(NormRole, p.roles), Map(NormGrant, p.grants), p.version)
  }

  function Validate(p: Policy, expectedVersion: Text): Option<Policy> {
    if ValidPolicy(p) && p.version == expectedVersion then Some(Normalized(p)) else None
  }

  // ---------------------------------------------------------------- canonical

  const CanonTerm: Term -> Term := (t: Term) => if t.All? then All else Match(Sort(ByKey(DimensionOf), t.constraints))

  const CanonBinding: Binding -> Binding := (b: Binding) =>
    Binding(b.permissionCode, Scope(Sort(ByKey(TermText), Map(CanonTerm, b.scope.terms))))

  const CanonRole: Role -> Role := (r: Role) => Role(r.roleId, Sort(ByKey(BoundCode), Map(CanonBinding, r.permissions)))

  function Arranged(v: Policy): Policy {
    Policy(Sort(ByKey(CodeOf), v.permissions), Sort(ByKey(RoleIdOf), Map(CanonRole, v.roles)), Sort(ByKey(GrantIdOf), v.grants), v.version)
  }

  function Canonicalize(p: Policy): Option<Policy> {
    match Validate(p, p.version)
    case None => None
    case Some(v) => if v.permissions == [] || v.roles == [] || v.grants == [] then None else Some(Arranged(v))
  }
}
