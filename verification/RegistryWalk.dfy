// Loading a registry snapshot, with the memoised walk that keeps items whose whole ancestor chain is kept.
module RegistryWalk {
  import opened Prelude
  import opened Texts
  import opened RegistryModel

  function Filter<T(!new)>(p: T -> bool, s: seq<T>): (r: seq<T>)
    ensures forall x :: x in r <==> x in s && p(x)
  {
    if s == [] then []
    else
      var rest := Filter(p, s[..|s| - 1]);
      assert s == s[..|s| - 1] + [s[|s| - 1]];
      if p(s[|s| - 1]) then rest + [s[|s| - 1]] else rest
  }

  // ------------------------------------------------------------- the ancestors

  function ById(items: seq<Navigation>): (m: map<Text, Navigation>)
    ensures forall id :: id in m ==> m[id] in items && m[id].navigationId == id
    ensures forall n :: n in items ==> n.navigationId in m
  {
    if items == [] then map[]
    else
      assert items == items[..|items| - 1] + [items[|items| - 1]];
      ById(items[..|items| - 1])[items[|items| - 1].navigationId := items[|items| - 1]]
  }

  // The chain of parents from `id` stays in the graph and ends at a root after
  // at most `n` items.
  predicate RootedWithin(byId: map<Text, Navigation>, id: Text, n: nat)
    decreases n
  {
    && n > 0 && id in byId
    && (byId[id].parent.None? || RootedWithin(byId, byId[id].parent.value, n - 1))
  }

  ghost predicate Rooted(byId: map<Text, Navigation>, id: Text) {
    exists n: nat :: RootedWithin(byId, id, n)
  }

  lemma {:induction false} RootedStep(byId: map<Text, Navigation>, id: Text)
    requires id in byId
    ensures byId[id].parent.None? ==> Rooted(byId, id)
    ensures byId[id].parent.Some? ==> (Rooted(byId, id) <==> Rooted(byId, byId[id].parent.value))
  {
    if byId[id].parent.None? {
      assert RootedWithin(byId, id, 1);
    } else {
      var p := byId[id].parent.value;
      if n: nat :| RootedWithin(byId, p, n) {
        assert RootedWithin(byId, id, n + 1);
      }
      if n: nat :| RootedWithin(byId, id, n) {
        assert RootedWithin(byId, p, n - 1);
      }
    }
  }

  // `from` leads to `id` through at least one parent.
  ghost predicate LeadsTo(byId: map<Text, Navigation>, from: Text, id: Text) {
    forall n: nat | RootedWithin(byId, from, n) :: n > 0 && RootedWithin(byId, id, n - 1)
  }

  lemma {:induction false} CycleIsNotRooted(byId: map<Text, Navigation>, id: Text, n: nat)
    requires LeadsTo(byId, id, id)
    ensures !RootedWithin(byId, id, n)
  {
    if n > 0 {
      CycleIsNotRooted(byId, id, n - 1);
    }
  }

  lemma {:induction false} RootedLonger(byId: map<Text, Navigation>, id: Text, n: nat, m: nat)
    requires RootedWithin(byId, id, n) && n <= m
    ensures RootedWithin(byId, id, m)
    decreases n
  {
    if byId[id].parent.Some? {
      RootedLonger(byId, byId[id].parent.value, n - 1, m - 1);
    }
  }

  class AncestorWalk {
    const byId: map<Text, Navigation>
    var included: map<Text, bool>
    var visiting: set<Text>

    constructor (byId: map<Text, Navigation>)
      ensures this.byId == byId && Valid() && visiting == {}
    {
      this.byId := byId;
      included, visiting := map[], {};
    }

    // Everything remembered is right.
    ghost predicate Valid()
      reads this
    {
      forall id | id in included :: included[id] == Rooted(byId, id)
    }

    method HasAuthorizedAncestors(id: Text) returns (r: bool)
      requires Valid() && visiting <= byId.Keys && forall v | v in visiting :: LeadsTo(byId, v, id)
      modifies this
      ensures Valid() && visiting == old(visiting) && r == Rooted(byId, id)
      decreases |byId.Keys - visiting|
    {
      if id in included {
        return included[id];
      }
      if id !in byId {
        return false;
      }
      if id in visiting {
        forall n: nat ensures !RootedWithin(byId, id, n) {
          CycleIsNotRooted(byId, id, n);
        }
        return false;
      }
      var item := byId[id];
      RootedStep(byId, id);
      if item.parent.None? {
        included := included[id := true];
        return true;
      }
      visiting := visiting + {id};
      assert byId.Keys - visiting < byId.Keys - old(visiting) by {
        assert id in byId.Keys - old(visiting) && id !in byId.Keys - visiting;
      }
      SmallerSet(byId.Keys - visiting, byId.Keys - old(visiting));
      forall v | v in visiting ensures LeadsTo(byId, v, item.parent.value) {
        LeadsOn(byId, v, id);
      }
      r := HasAuthorizedAncestors(item.parent.value);
      visiting := visiting - {id};
      included := included[id := r];
    }
  }

  lemma {:induction false} SmallerSet<T>(a: set<T>, b: set<T>)
    requires a < b
    ensures |a| < |b|
  {
    var rest := b - a;
    assert b == a + rest && a !! rest;
    assert rest != {};
  }

  lemma {:induction false} LeadsOn(byId: map<Text, Navigation>, v: Text, id: Text)
    requires (v == id || LeadsTo(byId, v, id)) && id in byId && byId[id].parent.Some?
    ensures LeadsTo(byId, v, byId[id].parent.value)
  {
    var p := byId[id].parent.value;
    forall n: nat | RootedWithin(byId, v, n) ensures n > 0 && RootedWithin(byId, p, n - 1) {
      if v != id {
        assert RootedWithin(byId, id, n - 1);
        assert RootedWithin(byId, p, n - 2);
        RootedLonger(byId, p, n - 2, n - 1);
      }
    }
  }

  // ------------------------------------------------------------- the snapshot

  datatype Snapshot = Snapshot(applications: seq<Application>, routes: seq<Route>, navigation: seq<Navigation>)

  // What the viewer is allowed, and how identifiers are collated.
  datatype Viewer = Viewer(audience: Audience, applications: set<Text>, routes: set<Text>)

  type Collation = (Text, Text) -> bool

  function Ids(applications: seq<Application>): (ids: set<Text>)
    ensures forall id :: id in ids <==> exists a :: a in applications && a.applicationId == id
  {
    set a | a in applications :: a.applicationId
  }

  function RouteIds(routes: seq<Route>): (ids: set<Text>)
    ensures forall id :: id in ids <==> exists t :: t in routes && t.routeId == id
  {
    set t | t in routes :: t.routeId
  }

  function ListApplications(le: Collation, r: Registry, audience: Audience): seq<Application> {
    Sort((a: Application, b: Application) => le(a.applicationId, b.applicationId),
         Filter((a: Application) => a.audience == audience, r.applications))
  }

  function ListRoutes(le: Collation, r: Registry, ids: set<Text>): seq<Route> {
    Sort((a: Route, b: Route) => le(a.routeId, b.routeId), Filter((t: Route) => t.applicationId in ids, r.routes))
  }

  predicate NavigationBefore(le: Collation, a: Navigation, b: Navigation) {
    a.order < b.order || (a.order == b.order && le(a.navigationId, b.navigationId))
  }

  function ListNavigation(le: Collation, r: Registry, ids: set<Text>): seq<Navigation> {
    Sort((a: Navigation, b: Navigation) => NavigationBefore(le, a, b), Filter((n: Navigation) => n.applicationId in ids, r.navigation))
  }

  function VisibleApplications(le: Collation, r: Registry, v: Viewer): seq<Application> {
    Filter((a: Application) => a.enabled && a.applicationId in v.applications, ListApplications(le, r, v.audience))
  }

  function VisibleRoutes(le: Collation, r: Registry, v: Viewer): seq<Route> {
    Filter((t: Route) => t.enabled && t.routeId in v.routes, ListRoutes(le, r, Ids(VisibleApplications(le, r, v))))
  }

  function Candidates(le: Collation, r: Registry, v: Viewer): seq<Navigation> {
    var routeIds := RouteIds(VisibleRoutes(le, r, v));
    Filter((n: Navigation) => n.enabled && n.routeId in routeIds, ListNavigation(le, r, Ids(VisibleApplications(le, r, v))))
  }

  ghost function VisibleNavigation(candidates: seq<Navigation>): seq<Navigation> {
    KeepRooted(ById(candidates), candidates)
  }

  ghost function KeepRooted(byId: map<Text, Navigation>, items: seq<Navigation>): (r: seq<Navigation>)
    ensures forall n :: n in r <==> n in items && Rooted(byId, n.navigationId)
  {
    if items == [] then []
    else
      var n := |items| - 1;
      assert items == items[..n] + [items[n]];
      KeepRooted(byId, items[..n]) + (if Rooted(byId, items[n].navigationId) then [items[n]] else [])
  }

  ghost function Load(le: Collation, r: Registry, v: Viewer): Snapshot {
    Snapshot(VisibleApplications(le, r, v), VisibleRoutes(le, r, v), VisibleNavigation(Candidates(le, r, v)))
  }

  class RegistryService {
    const store: MemoryRegistryStore

    constructor (s: MemoryRegistryStore)
      ensures store == s
    {
      store := s;
    }

    method LoadRegistry(le: Collation, v: Viewer) returns (snapshot: Snapshot)
      ensures snapshot == Load(le, store.View(), v)
    {
      var r := store.View();
      var listed := ListApplications(le, r, v.audience);
      var applications := [];
      var i := 0;
      while i < |listed|
        invariant 0 <= i <= |listed|
        invariant applications == Filter((a: Application) => a.enabled && a.applicationId in v.applications, listed[..i])
      {
        assert listed[..i + 1][..i] == listed[..i];
        if listed[i].enabled && listed[i].applicationId in v.applications {
          applications := applications + [listed[i]];
        }
        i := i + 1;
      }
      assert listed[..|listed|] == listed;
      var ids := Ids(applications);
      var routes := LoadRoutes(le, r, v, ids);
      var routeIds := RouteIds(routes);
      var candidates := Filter((n: Navigation) => n.enabled && n.routeId in routeIds, ListNavigation(le, r, ids));
      var navigation := LoadNavigation(candidates);
      return Snapshot(applications, routes, navigation);
    }

    method LoadRoutes(le: Collation, r: Registry, v: Viewer, ids: set<Text>) returns (routes: seq<Route>)
      ensures routes == Filter((t: Route) => t.enabled && t.routeId in v.routes, ListRoutes(le, r, ids))
    {
      var listed := ListRoutes(le, r, ids);
      routes := [];
      var i := 0;
      while i < |listed|
        invariant 0 <= i <= |listed|
        invariant routes == Filter((t: Route) => t.enabled && t.routeId in v.routes, listed[..i])
      {
        assert listed[..i + 1][..i] == listed[..i];
        if listed[i].enabled && listed[i].routeId in v.routes {
          routes := routes + [listed[i]];
        }
        i := i + 1;
      }
      assert listed[..|listed|] == listed;
    }

    method LoadNavigation(candidates: seq<Navigation>) returns (navigation: seq<Navigation>)
      ensures navigation == VisibleNavigation(candidates)
    {
      hide ById;
      var walk := new AncestorWalk(ById(candidates));
      navigation := [];
      var i := 0;
      while i < |candidates|
        invariant 0 <= i <= |candidates|
        invariant walk.Valid() && walk.visiting == {}
        invariant navigation == KeepRooted(ById(candidates), candidates[..i])
      {
        assert candidates[..i + 1][..i] == candidates[..i];
        var kept := walk.HasAuthorizedAncestors(candidates[i].navigationId);
        if kept {
          navigation := navigation + [candidates[i]];
        }
        i := i + 1;
      }
      assert candidates[..|candidates|] == candidates;
    }
  }
}
