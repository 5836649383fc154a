// Validating a snapshot in one pass over its permissions, roles and grants, filling maps and sets.
module PolicyValidation {
  import opened Prelude
  import opened Texts
  import opened PolicyModel
  import opened PolicyTerms

  lemma {:induction false} MapPrefix<A, B>(f: A -> B, s: seq<A>, i: nat)
    requires i < |s|
    ensures Map(f, s[..i + 1]) == Map(f, s[..i]) + [f(s[i])]
  {
    assert s[..i + 1] == s[..i] + [s[i]];
    MapAppend(f, s[..i], [s[i]]);
    assert Map(f, [s[i]]) == [f(s[i])];
  }

  lemma {:induction false} DistinctGrows(s: seq<Text>, x: Text)
    ensures Distinct(s + [x]) <==> Distinct(s) && x !in s
  {
    var t := s + [x];
    if Distinct(t) {
      forall i, j | 0 <= i < j < |s| ensures s[i] != s[j] {
        assert t[i] != t[j];
      }
      forall i | 0 <= i < |s| ensures s[i] != x {
        assert t[i] != t[|s|];
      }
    }
  }

  lemma {:induction false} DistinctPrefix(s: seq<Text>, i: nat)
    requires Distinct(s) && i <= |s|
    ensures Distinct(s[..i])
  {
  }

  lemma {:induction false} MapOfPrefix<A, B>(f: A -> B, s: seq<A>, i: nat)
    requires i <= |s|
    ensures Map(f, s)[..i] == Map(f, s[..i])
  {
    assert s == s[..i] + s[i..];
    MapAppend(f, s[..i], s[i..]);
  }

  // Scopes are checked against the sorted dimensions, which changes nothing.
  lemma {:induction false} SortedDimensionsCheckSame(dimensions: seq<Text>, s: Scope)
    ensures ValidScope(dimensions, s) <==> ValidScope(SortTexts(dimensions), s)
  {
    SortTextsSettles(dimensions);
    SameMembers(dimensions, SortTexts(dimensions));
    hide Map, Distinct, SortTexts;
    forall t ensures ValidTerm(dimensions, t) <==> ValidTerm(SortTexts(dimensions), t) {
      if t.Match? {
        assert forall c | c in t.constraints :: ValidConstraint(dimensions, c) <==> ValidConstraint(SortTexts(dimensions), c);
      }
    }
  }

  // What the loop over permissions has gathered after `i` of them.
  ghost predicate Gathered(permissions: seq<Permission>, byCode: map<Text, Permission>) {
    && (forall x | x in permissions :: x.code in byCode && byCode[x.code] == NormPermission(x))
    && (forall code | code in byCode :: code in Map(CodeOf, permissions))
  }

  lemma {:induction false} GatherOne(permissions: seq<Permission>, byCode: map<Text, Permission>, x: Permission)
    requires Gathered(permissions, byCode)
    ensures x.code in byCode <==> x.code in Map(CodeOf, permissions)
    ensures x.code !in byCode ==> Gathered(permissions + [x], byCode[x.code := NormPermission(x)])
  {
    MapAppend(CodeOf, permissions, [x]);
    assert Map(CodeOf, [x]) == [x.code];
    MapMembers(CodeOf, permissions);
    hide Map, NormPermission;
  }

  // A repeated code spoils the whole list.
  lemma {:induction false} RepeatedCode(permissions: seq<Permission>, i: nat)
    requires i < |permissions| && permissions[i].code in Map(CodeOf, permissions[..i])
    ensures !Distinct(Map(CodeOf, permissions))
  {
    MapPrefix(CodeOf, permissions, i);
    DistinctGrows(Map(CodeOf, permissions[..i]), permissions[i].code);
    MapOfPrefix(CodeOf, permissions, i + 1);
    if Distinct(Map(CodeOf, permissions)) {
      DistinctPrefix(Map(CodeOf, permissions), i + 1);
    }
  }

  lemma {:induction false} PrefixGrows<T>(s: seq<T>, i: nat)
    requires i < |s|
    ensures s[..i + 1] == s[..i] + [s[i]] && s[i] in s
    ensures forall x :: x in s[..i + 1] <==> x in s[..i] || x == s[i]
  {
    assert s[..i + 1] == s[..i] + [s[i]];
  }

  method ValidatePermissions(permissions: seq<Permission>) returns (ok: bool, normalized: seq<Permission>, byCode: map<Text, Permission>)
    ensures ok <==> (forall x :: x in permissions ==> ValidPermission(x)) && Distinct(Map(CodeOf, permissions))
    ensures ok ==> normalized == Map(NormPermission, permissions) && Gathered(permissions, byCode)
  {
    normalized, byCode := [], map[];
    var pairs: set<(Text, Text)> := {};
    var i := 0;
    while i < |permissions|
      invariant 0 <= i <= |permissions|
      invariant forall x :: x in permissions[..i] ==> ValidPermission(x)
      invariant Distinct(Map(CodeOf, permissions[..i]))
      invariant normalized == Map(NormPermission, permissions[..i])
      invariant Gathered(permissions[..i], byCode)
      invariant forall pair | pair in pairs :: Code(pair.0, pair.1) in byCode
    {
      var x := permissions[i];
      hide Map, Distinct, NormPermission, Gathered;
      PrefixGrows(permissions, i);
      MapPrefix(CodeOf, permissions, i);
      MapPrefix(NormPermission, permissions, i);
      DistinctGrows(Map(CodeOf, permissions[..i]), x.code);
      GatherOne(permissions[..i], byCode, x);
      if !ValidPermission(x) {
        return false, normalized, byCode;
      }
      if x.code in byCode || (x.resource, x.action) in pairs {
        RepeatedCode(permissions, i);
        return false, normalized, byCode;
      }
      normalized, byCode := normalized + [NormPermission(x)], byCode[x.code := NormPermission(x)];
      pairs := pairs + {(x.resource, x.action)};
      i := i + 1;
    }
    assert permissions[..|permissions|] == permissions;
    return true, normalized, byCode;
  }

  lemma {:induction false} BindingLookup(permissions: seq<Permission>, byCode: map<Text, Permission>, b: Binding)
    requires Gathered(permissions, byCode) && Distinct(Map(CodeOf, permissions))
    ensures ValidBinding(permissions, b) <==> b.permissionCode in byCode && ValidScope(byCode[b.permissionCode].scopeDimensions, b.scope)
  {
    hide Map, Distinct, ValidScope, SortTexts;
    MapMembers(CodeOf, permissions);
    DistinctKeysSeparate(CodeOf, permissions);
    if b.permissionCode in byCode {
      var k :| 0 <= k < |permissions| && CodeOf(permissions[k]) == b.permissionCode;
      var p := permissions[k];
      assert p in permissions && byCode[p.code] == NormPermission(p);
      SortedDimensionsCheckSame(p.scopeDimensions, b.scope);
    }
  }

  method ValidateRole(ghost permissions: seq<Permission>, byCode: map<Text, Permission>, role: Role) returns (ok: bool, bindings: seq<Binding>)
    requires Gathered(permissions, byCode) && Distinct(Map(CodeOf, permissions))
    ensures ok <==> ValidRole(permissions, role)
    ensures ok ==> bindings == Map(NormBinding, role.permissions)
  {
    bindings := [];
    if |role.permissions| == 0 || |role.permissions| > 1000 {
      return false, bindings;
    }
    var seen: set<Text> := {};
    var i := 0;
    while i < |role.permissions|
      invariant 0 <= i <= |role.permissions|
      invariant forall b :: b in role.permissions[..i] ==> ValidBinding(permissions, b)
      invariant Distinct(Map(BoundCode, role.permissions[..i]))
      invariant forall c :: c in seen <==> c in Map(BoundCode, role.permissions[..i])
      invariant bindings == Map(NormBinding, role.permissions[..i])
    {
      var b := role.permissions[i];
      assert role.permissions[..i + 1] == role.permissions[..i] + [b];
      MapPrefix(BoundCode, role.permissions, i);
      MapPrefix(NormBinding, role.permissions, i);
      DistinctGrows(Map(BoundCode, role.permissions[..i]), b.permissionCode);
      BindingLookup(permissions, byCode, b);
      if b.permissionCode !in byCode || !ValidScope(byCode[b.permissionCode].scopeDimensions, b.scope) {
        assert b in role.permissions;
        return false, bindings;
      }
      if b.permissionCode in seen {
        MapOfPrefix(BoundCode, role.permissions, i + 1);
        if Distinct(Map(BoundCode, role.permissions)) {
          DistinctPrefix(Map(BoundCode, role.permissions), i + 1);
        }
        return false, bindings;
      }
      seen := seen + {b.permissionCode};
      bindings := bindings + [NormBinding(b)];
      i := i + 1;
    }
    assert role.permissions[..|role.permissions|] == role.permissions;
    return true, bindings;
  }

  method ValidateRoles(ghost permissions: seq<Permission>, byCode: map<Text, Permission>, roles: seq<Role>) returns (ok: bool, normalized: seq<Role>, ids: set<Text>)
    requires Gathered(permissions, byCode) && Distinct(Map(CodeOf, permissions))
    ensures ok <==> (forall x :: x in roles ==> ValidRole(permissions, x)) && Distinct(Map(LowerRoleId, roles))
    ensures ok ==> normalized == Map(NormRole, roles) && forall id :: id in ids <==> id in Map(LowerRoleId, roles)
  {
    normalized, ids := [], {};
    var i := 0;
    while i < |roles|
      invariant 0 <= i <= |roles|
      invariant forall x :: x in roles[..i] ==> ValidRole(permissions, x)
      invariant Distinct(Map(LowerRoleId, roles[..i]))
      invariant forall id :: id in ids <==> id in Map(LowerRoleId, roles[..i])
      invariant normalized == Map(NormRole, roles[..i])
    {
      var x := roles[i];
      assert roles[..i + 1] == roles[..i] + [x];
      MapPrefix(LowerRoleId, roles, i);
      MapPrefix(NormRole, roles, i);
      DistinctGrows(Map(LowerRoleId, roles[..i]), Lower(x.roleId));
      if Lower(x.roleId) in ids {
        MapOfPrefix(LowerRoleId, roles, i + 1);
        if Distinct(Map(LowerRoleId, roles)) {
          DistinctPrefix(Map(LowerRoleId, roles), i + 1);
        }
        return false, normalized, ids;
      }
      var valid, bindings := ValidateRole(permissions, byCode, x);
      if !valid {
        assert x in roles;
        return false, normalized, ids;
      }
      normalized, ids := normalized + [Role(Lower(x.roleId), bindings)], ids + {Lower(x.roleId)};
      i := i + 1;
    }
    assert roles[..|roles|] == roles;
    return true, normalized, ids;
  }

  method ValidateGrants(ghost roles: seq<Role>, roleIds: set<Text>, grants: seq<Grant>) returns (ok: bool, normalized: seq<Grant>)
    requires forall id :: id in roleIds <==> id in Map(LowerRoleId, roles)
    ensures ok <==> (forall x :: x in grants ==> ValidGrant(roles, x)) && Distinct(Map(LowerGrantId, grants))
    ensures ok ==> normalized == Map(NormGrant, grants)
  {
    normalized := [];
    var ids: set<Text> := {};
    var i := 0;
    while i < |grants|
      invariant 0 <= i <= |grants|
      invariant forall x :: x in grants[..i] ==> ValidGrant(roles, x)
      invariant Distinct(Map(LowerGrantId, grants[..i]))
      invariant forall id :: id in ids <==> id in Map(LowerGrantId, grants[..i])
      invariant normalized == Map(NormGrant, grants[..i])
    {
      var x := grants[i];
      assert grants[..i + 1] == grants[..i] + [x];
      MapPrefix(LowerGrantId, grants, i);
      MapPrefix(NormGrant, grants, i);
      DistinctGrows(Map(LowerGrantId, grants[..i]), Lower(x.grantId));
      if Lower(x.grantId) in ids {
        MapOfPrefix(LowerGrantId, grants, i + 1);
        if Distinct(Map(LowerGrantId, grants)) {
          DistinctPrefix(Map(LowerGrantId, grants), i + 1);
        }
        return false, normalized;
      }
      if Lower(x.roleId) !in roleIds || (x.validTo.Some? && x.validTo.value <= x.validFrom) {
        assert x in grants;
        return false, normalized;
      }
      ids := ids + {Lower(x.grantId)};
      normalized := normalized + [NormGrant(x)];
      i := i + 1;
    }
    assert grants[..|grants|] == grants;
    return true, normalized;
  }

  method ValidatePolicySnapshot(p: Policy, expectedVersion: Text) returns (r: Option<Policy>)
    ensures r == Validate(p, expectedVersion)
  {
    if |p.permissions| > 10000 || |p.roles| > 10000 || |p.grants| > 100000 || p.version != expectedVersion {
      return None;
    }
    var ok, permissions, byCode := ValidatePermissions(p.permissions);
    if !ok {
      return None;
    }
    var rolesOk, roles, roleIds := ValidateRoles(p.permissions, byCode, p.roles);
    if !rolesOk {
      return None;
    }
    var grantsOk, grants := ValidateGrants(p.roles, roleIds, p.grants);
    if !grantsOk {
      return None;
    }
    return Some(Policy(permissions, roles, grants, p.version));
  }
}
