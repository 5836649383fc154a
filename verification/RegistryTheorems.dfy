// What the registry keeps over every run of mutations, and what a loaded snapshot contains.
module RegistryTheorems {
  import opened Prelude
  import opened Texts
  import opened RegistryModel
  import opened RegistryFingerprint
  import opened RegistryWalk

  // ---------------------------------------------------------- the invariant

  ghost predicate UniqueKeys<T>(key: T -> Text, entries: seq<T>) {
    forall i, j | 0 <= i < j < |entries| :: key(entries[i]) != key(entries[j])
  }

  ghost predicate RoutesHoused(applications: seq<Application>, routes: seq<Route>) {
    forall i | 0 <= i < |routes| :: HousedIn(applications, routes[i].applicationId)
  }

  predicate HousedIn(applications: seq<Application>, id: Text) {
    exists j :: 0 <= j < |applications| && applications[j].applicationId == id
  }

  predicate PointsAt(routes: seq<Route>, n: Navigation) {
    exists j :: 0 <= j < |routes| && routes[j].routeId == n.routeId && routes[j].applicationId == n.applicationId
  }

  ghost predicate NavigationHoused(routes: seq<Route>, navigation: seq<Navigation>) {
    forall i | 0 <= i < |navigation| :: PointsAt(routes, navigation[i])
  }

  predicate ParentBefore(navigation: seq<Navigation>, i: nat)
    requires i < |navigation|
  {
    navigation[i].parent.Some? ==>
      exists j :: 0 <= j < i && navigation[j].navigationId == navigation[i].parent.value && navigation[j].applicationId == navigation[i].applicationId
  }

  // Every parent was registered before its child: the items form a forest.
  ghost predicate Forest(navigation: seq<Navigation>) {
    forall i: nat | i < |navigation| :: ParentBefore(navigation, i)
  }

  ghost predicate Consistent(r: Registry) {
    && UniqueKeys(ApplicationKey, r.applications) && UniqueKeys(RouteKey, r.routes) && UniqueKeys(NavigationKey, r.navigation)
    && RoutesHoused(r.applications, r.routes)
    && NavigationHoused(r.routes, r.navigation)
    && Forest(r.navigation)
  }

  // Only the enabled flags of applications and routes may differ.
  ghost predicate SameApplicationsButFlags(a: seq<Application>, b: seq<Application>) {
    |a| <= |b| && forall i :: 0 <= i < |a| ==> b[i] == a[i].(enabled := b[i].enabled)
  }

  ghost predicate SameRoutesButFlags(a: seq<Route>, b: seq<Route>) {
    |a| <= |b| && forall i :: 0 <= i < |a| ==> b[i] == a[i].(enabled := b[i].enabled)
  }

  ghost predicate Grows(r: Registry, r': Registry) {
    && SameApplicationsButFlags(r.applications, r'.applications)
    && SameRoutesButFlags(r.routes, r'.routes)
    && r.navigation <= r'.navigation
    && forall op :: op in r.receipts ==> op in r'.receipts && r'.receipts[op] == r.receipts[op]
  }

  lemma {:induction false} ChangeGrows(r: Registry, change: Change)
    requires ApplyChange(r, change).Applied?
    ensures Grows(r, ApplyChange(r, change).registry)
    ensures ApplyChange(r, change).registry.receipts == r.receipts
  {
  }

  lemma {:induction false} HousedStays(applications: seq<Application>, applications': seq<Application>, id: Text)
    requires SameApplicationsButFlags(applications, applications') && HousedIn(applications, id)
    ensures HousedIn(applications', id)
  {
    var j :| 0 <= j < |applications| && applications[j].applicationId == id;
    assert applications'[j].applicationId == id;
  }

  lemma {:induction false} PointsStays(routes: seq<Route>, routes': seq<Route>, n: Navigation)
    requires SameRoutesButFlags(routes, routes') && PointsAt(routes, n)
    ensures PointsAt(routes', n)
  {
    var j :| 0 <= j < |routes| && routes[j].routeId == n.routeId && routes[j].applicationId == n.applicationId;
    assert routes'[j].routeId == n.routeId;
  }

  lemma {:induction false} AppendKeepsUnique<T>(key: T -> Text, entries: seq<T>, x: T)
    requires UniqueKeys(key, entries) && !Has(key, entries, key(x))
    ensures UniqueKeys(key, entries + [x])
  {
  }

  lemma {:induction false} ChangeKeepsUnique(r: Registry, change: Change)
    requires Consistent(r) && ApplyChange(r, change).Applied?
    ensures var r' := ApplyChange(r, change).registry;
      UniqueKeys(ApplicationKey, r'.applications) && UniqueKeys(RouteKey, r'.routes) && UniqueKeys(NavigationKey, r'.navigation)
  {
    match change
    case RegisterApplication(a) => AppendKeepsUnique(ApplicationKey, r.applications, a);
    case RegisterRoute(t) => AppendKeepsUnique(RouteKey, r.routes, t);
    case RegisterNavigation(n) => AppendKeepsUnique(NavigationKey, r.navigation, n);
    case SetApplicationEnabled(_, _) =>
    case SetRouteEnabled(_, _) =>
  }

  lemma {:induction false} ChangeKeepsHoused(r: Registry, change: Change)
    requires Consistent(r) && ApplyChange(r, change).Applied?
    ensures var r' := ApplyChange(r, change).registry; RoutesHoused(r'.applications, r'.routes) && NavigationHoused(r'.routes, r'.navigation)
  {
    var r' := ApplyChange(r, change).registry;
    ChangeGrows(r, change);
    forall i | 0 <= i < |r'.routes| ensures HousedIn(r'.applications, r'.routes[i].applicationId) {
      if i < |r.routes| {
        HousedStays(r.applications, r'.applications, r.routes[i].applicationId);
      } else {
        var k := IndexOf(ApplicationKey, r.applications, r'.routes[i].applicationId);
        assert r'.applications[k].applicationId == r'.routes[i].applicationId;
      }
    }
    forall i | 0 <= i < |r'.navigation| ensures PointsAt(r'.routes, r'.navigation[i]) {
      if i < |r.navigation| {
        PointsStays(r.routes, r'.routes, r.navigation[i]);
      } else {
        var k := IndexOf(RouteKey, r.routes, r'.navigation[i].routeId);
        assert r'.routes[k].routeId == r'.navigation[i].routeId;
      }
    }
  }

  lemma {:induction false} ChangeKeepsForest(r: Registry, change: Change)
    requires Forest(r.navigation) && ApplyChange(r, change).Applied?
    ensures Forest(ApplyChange(r, change).registry.navigation)
  {
    var after := ApplyChange(r, change).registry.navigation;
    forall i: nat | i < |after| ensures ParentBefore(after, i) {
      if i < |r.navigation| {
        assert ParentBefore(r.navigation, i);
        if after[i].parent.Some? {
          var j :| 0 <= j < i && r.navigation[j].navigationId == r.navigation[i].parent.value && r.navigation[j].applicationId == r.navigation[i].applicationId;
          assert after[j] == r.navigation[j];
        }
      } else if after[i].parent.Some? {
        var k := IndexOf(NavigationKey, r.navigation, after[i].parent.value);
        assert after[k] == r.navigation[k];
      }
    }
  }

  function Run(r: Registry, mutations: seq<Mutation>): Registry
    decreases |mutations|
  {
    if mutations == [] then r
    else
      var n := |mutations| - 1;
      CommitMutation(Run(r, mutations[..n]), Fingerprint(mutations[n]), mutations[n]).0
  }

  lemma {:induction false} CommitKeeps(r: Registry, m: Mutation)
    requires Consistent(r)
    ensures Consistent(CommitMutation(r, Fingerprint(m), m).0) && Grows(r, CommitMutation(r, Fingerprint(m), m).0)
  {
    hide ApplyChange, Fingerprint;
    if m.operationId !in r.receipts && ApplyChange(r, m.change).Applied? {
      ChangeGrows(r, m.change);
      ChangeKeepsUnique(r, m.change);
      ChangeKeepsHoused(r, m.change);
      ChangeKeepsForest(r, m.change);
    }
  }

  lemma {:induction false} GrowsChains(a: Registry, b: Registry, c: Registry)
    requires Grows(a, b) && Grows(b, c)
    ensures Grows(a, c)
  {
  }

  // Every reachable registry has unique ids, routes inside registered
  // applications, navigation pointing at routes of its own application, parents
  // of the same application, and no cycle; nothing is ever removed or edited
  // other than the enabled flags.
  lemma {:induction false} RunIsConsistent(r: Registry, mutations: seq<Mutation>)
    requires Consistent(r)
    ensures Consistent(Run(r, mutations)) && Grows(r, Run(r, mutations))
    decreases |mutations|
  {
    if mutations != [] {
      var n := |mutations| - 1;
      RunIsConsistent(r, mutations[..n]);
      CommitKeeps(Run(r, mutations[..n]), mutations[n]);
      hide Consistent, Grows, CommitMutation, Fingerprint;
      GrowsChains(r, Run(r, mutations[..n]), Run(r, mutations));
    }
  }

  lemma {:induction false} RunSplits(r: Registry, a: seq<Mutation>, b: seq<Mutation>)
    ensures Run(r, a + b) == Run(Run(r, a), b)
    decreases |b|
  {
    hide CommitMutation, Fingerprint;
    if b == [] {
      assert a + b == a;
    } else {
      var n := |b| - 1;
      RunSplits(r, a, b[..n]);
      assert (a + b)[..|a + b| - 1] == a + b[..n];
      assert (a + b)[|a + b| - 1] == b[n];
    }
  }

  // ---------------------------------------------------------------- receipts

  // After a mutation has committed, its operation id answers "replayed" to the
  // same mutation, in any later state and whatever its trace id or the order of
  // its deep-link sources, and "conflict" to any other; neither changes anything.
  // One that was refused has left the registry, receipts included, as it was.
  lemma {:induction false} CommittedOnce(before: seq<Mutation>, m: Mutation, more: seq<Mutation>, again: Mutation)
    requires again.operationId == m.operationId
    ensures var r := Run(Empty, before + [m] + more);
      CommitMutation(Run(Empty, before), Fingerprint(m), m).1.Committed? ==>
        CommitMutation(r, Fingerprint(again), again) == (r, if SameMutation(m, again) then Committed(true) else Failed(OperationConflict))
    ensures !CommitMutation(Run(Empty, before), Fingerprint(m), m).1.Committed? ==> Run(Empty, before + [m]) == Run(Empty, before)
  {
    var r1 := Run(Empty, before + [m]);
    assert (before + [m])[..|before|] == before;
    if CommitMutation(Run(Empty, before), Fingerprint(m), m).1.Committed? {
      assert m.operationId in r1.receipts && r1.receipts[m.operationId] == Fingerprint(m);
      RunIsConsistent(Empty, before + [m]);
      RunIsConsistent(r1, more);
      RunSplits(Empty, before + [m], more);
      hide Run, Consistent, Fingerprint, SameMutation;
      FingerprintDecides(m, again);
    }
  }

  // ---------------------------------------------------------------- snapshots

  lemma {:induction false} ApplicationsExactly(le: Collation, r: Registry, v: Viewer, a: Application)
    ensures a in VisibleApplications(le, r, v) <==> a in r.applications && a.audience == v.audience && a.enabled && a.applicationId in v.applications
  {
    SortMembers((a: Application, b: Application) => le(a.applicationId, b.applicationId),
                Filter((a: Application) => a.audience == v.audience, r.applications));
  }

  lemma {:induction false} RoutesExactly(le: Collation, r: Registry, v: Viewer, t: Route)
    ensures t in VisibleRoutes(le, r, v) <==>
            t in r.routes && t.applicationId in Ids(VisibleApplications(le, r, v)) && t.enabled && t.routeId in v.routes
  {
    var ids := Ids(VisibleApplications(le, r, v));
    hide VisibleApplications;
    SortMembers((a: Route, b: Route) => le(a.routeId, b.routeId), Filter((t: Route) => t.applicationId in ids, r.routes));
  }

  lemma {:induction false} CandidatesExactly(le: Collation, r: Registry, v: Viewer, n: Navigation)
    ensures n in Candidates(le, r, v) <==>
            && n in r.navigation && n.applicationId in Ids(VisibleApplications(le, r, v))
            && n.enabled && n.routeId in RouteIds(VisibleRoutes(le, r, v))
  {
    var ids := Ids(VisibleApplications(le, r, v));
    hide VisibleApplications, VisibleRoutes;
    SortMembers((a: Navigation, b: Navigation) => NavigationBefore(le, a, b), Filter((n: Navigation) => n.applicationId in ids, r.navigation));
  }

  ghost predicate UniqueMembers(items: seq<Navigation>) {
    forall a, b | a in items && b in items && a.navigationId == b.navigationId :: a == b
  }

  lemma {:induction false} CandidatesUnique(le: Collation, r: Registry, v: Viewer)
    requires UniqueKeys(NavigationKey, r.navigation)
    ensures UniqueMembers(Candidates(le, r, v))
  {
    var candidates := Candidates(le, r, v);
    hide Candidates;
    forall a, b | a in candidates && b in candidates && a.navigationId == b.navigationId ensures a == b {
      CandidatesExactly(le, r, v, a);
      CandidatesExactly(le, r, v, b);
      var i :| 0 <= i < |r.navigation| && r.navigation[i] == a;
      var j :| 0 <= j < |r.navigation| && r.navigation[j] == b;
      assert NavigationKey(r.navigation[i]) == NavigationKey(r.navigation[j]);
    }
  }

  // A chain of candidates, each the parent of the one before, up to a root.
  ghost predicate Chain(candidates: seq<Navigation>, path: seq<Navigation>) {
    && path != []
    && (forall i | 0 <= i < |path| :: path[i] in candidates)
    && (forall i | 0 <= i < |path| - 1 :: path[i].parent == Some(path[i + 1].navigationId))
    && path[|path| - 1].parent.None?
  }

  lemma {:induction false} ChainIsRooted(candidates: seq<Navigation>, path: seq<Navigation>)
    requires UniqueMembers(candidates) && Chain(candidates, path)
    ensures RootedWithin(ById(candidates), path[0].navigationId, |path|)
  {
    assert ById(candidates)[path[0].navigationId] == path[0];
    if |path| > 1 {
      ChainIsRooted(candidates, path[1..]);
    }
  }

  lemma {:induction false} RootedHasChain(candidates: seq<Navigation>, n: Navigation, k: nat) returns (path: seq<Navigation>)
    requires UniqueMembers(candidates) && n in candidates && RootedWithin(ById(candidates), n.navigationId, k)
    ensures Chain(candidates, path) && path[0] == n
    decreases k
  {
    assert ById(candidates)[n.navigationId] == n;
    if n.parent.None? {
      path := [n];
    } else {
      var rest := RootedHasChain(candidates, ById(candidates)[n.parent.value], k - 1);
      path := [n] + rest;
    }
  }

  // An item is kept exactly when its parents form a chain of candidates that
  // ends at a root, whatever the graph, cycles and missing parents included.
  lemma {:induction false} KeptExactlyWhenRooted(candidates: seq<Navigation>, n: Navigation)
    requires UniqueMembers(candidates)
    ensures n in VisibleNavigation(candidates) <==> exists path :: Chain(candidates, path) && path[0] == n
  {
    var byId := ById(candidates);
    if n in VisibleNavigation(candidates) {
      var k: nat :| RootedWithin(byId, n.navigationId, k);
      var path := RootedHasChain(candidates, n, k);
    }
    if path :| Chain(candidates, path) && path[0] == n {
      ChainIsRooted(candidates, path);
    }
  }

  lemma {:induction false} KeptAreCandidates(candidates: seq<Navigation>, n: Navigation)
    requires n in VisibleNavigation(candidates)
    ensures n in candidates
  {
    hide ById, RootedWithin, Rooted;
  }

  lemma {:induction false} ParentIsKept(candidates: seq<Navigation>, n: Navigation)
    requires UniqueMembers(candidates) && n in VisibleNavigation(candidates) && n.parent.Some?
    ensures exists p :: p in VisibleNavigation(candidates) && p.navigationId == n.parent.value
  {
    var byId := ById(candidates);
    assert byId[n.navigationId] == n;
    RootedStep(byId, n.navigationId);
    var k: nat :| RootedWithin(byId, n.parent.value, k);
    assert byId[n.parent.value] in VisibleNavigation(candidates);
  }

  // A snapshot is closed: every route's application, every item's route and
  // application, and every item's parent are in it.
  lemma {:induction false} SnapshotIsClosed(le: Collation, r: Registry, v: Viewer)
    requires UniqueKeys(NavigationKey, r.navigation)
    ensures var s := Load(le, r, v);
      && (forall t :: t in s.routes ==> t.applicationId in Ids(s.applications))
      && (forall n :: n in s.navigation ==> n.routeId in RouteIds(s.routes) && n.applicationId in Ids(s.applications))
      && (forall n :: n in s.navigation && n.parent.Some? ==> exists p :: p in s.navigation && p.navigationId == n.parent.value)
  {
    CandidatesUnique(le, r, v);
    var s := Load(le, r, v);
    var candidates := Candidates(le, r, v);
    hide Candidates, VisibleApplications, VisibleRoutes, Ids, RouteIds, UniqueMembers, UniqueKeys, VisibleNavigation;
    forall t | t in s.routes ensures t.applicationId in Ids(s.applications) {
      RoutesExactly(le, r, v, t);
    }
    forall n | n in s.navigation
      ensures n.routeId in RouteIds(s.routes) && n.applicationId in Ids(s.applications)
      ensures n.parent.Some? ==> exists p :: p in s.navigation && p.navigationId == n.parent.value
    {
      if n.parent.Some? {
        ParentIsKept(candidates, n);
      }
      KeptAreCandidates(candidates, n);
      CandidatesExactly(le, r, v, n);
    }
  }

  // In a forest every parent-closed set of candidates is kept: the snapshot's
  // navigation is the largest such set.
  lemma {:induction false} ClosedSetIsRooted(r: Registry, byId: map<Text, Navigation>, closed: set<Navigation>, i: nat)
    requires UniqueKeys(NavigationKey, r.navigation) && Forest(r.navigation) && i < |r.navigation| && r.navigation[i] in closed
    requires forall n | n in closed :: n in r.navigation && n.navigationId in byId && byId[n.navigationId] == n
    requires forall n | n in closed && n.parent.Some? :: exists p :: p in closed && p.navigationId == n.parent.value
    ensures RootedWithin(byId, r.navigation[i].navigationId, i + 1)
    decreases i
  {
    var n := r.navigation[i];
    assert byId[n.navigationId] == n;
    if n.parent.Some? {
      assert ParentBefore(r.navigation, i);
      var j :| 0 <= j < i && r.navigation[j].navigationId == n.parent.value && r.navigation[j].applicationId == n.applicationId;
      var p :| p in closed && p.navigationId == n.parent.value;
      var k :| 0 <= k < |r.navigation| && r.navigation[k] == p;
      assert k == j by {
        assert NavigationKey(r.navigation[j]) == NavigationKey(r.navigation[k]);
      }
      ClosedSetIsRooted(r, byId, closed, j);
      RootedLonger(byId, n.parent.value, j + 1, i);
    }
  }

  lemma {:induction false} SnapshotIsLargest(mutations: seq<Mutation>, le: Collation, v: Viewer, closed: set<Navigation>)
    requires forall n | n in closed :: n in Candidates(le, Run(Empty, mutations), v)
    requires forall n | n in closed && n.parent.Some? :: exists p :: p in closed && p.navigationId == n.parent.value
    ensures forall n | n in closed :: n in Load(le, Run(Empty, mutations), v).navigation
  {
    RunIsConsistent(Empty, mutations);
    var r := Run(Empty, mutations);
    var candidates := Candidates(le, r, v);
    var byId := ById(candidates);
    CandidatesUnique(le, r, v);
    hide Run, Candidates, RoutesHoused, NavigationHoused;
    forall n | n in closed ensures n in r.navigation && byId[n.navigationId] == n {
      CandidatesExactly(le, r, v, n);
    }
    hide UniqueMembers, UniqueKeys, Forest;
    forall n | n in closed ensures n in VisibleNavigation(candidates) {
      var i :| 0 <= i < |r.navigation| && r.navigation[i] == n;
      ClosedSetIsRooted(r, byId, closed, i);
    }
  }

  // The navigation of a snapshot is in display order, ties broken by id.
  lemma {:induction false} KeptInOrder(before: (Navigation, Navigation) -> bool, byId: map<Text, Navigation>, items: seq<Navigation>)
    requires Sorted(before, items)
    ensures Sorted(before, KeepRooted(byId, items))
    decreases |items|
  {
    if items != [] {
      var n := |items| - 1;
      var rest := KeepRooted(byId, items[..n]);
      KeptInOrder(before, byId, items[..n]);
      forall i | 0 <= i < |rest| ensures before(rest[i], items[n]) {
        assert rest[i] in items[..n];
      }
    }
  }

  lemma {:induction false} FilteredInOrder<T(!new)>(before: (T, T) -> bool, p: T -> bool, items: seq<T>)
    requires Sorted(before, items)
    ensures Sorted(before, Filter(p, items))
    decreases |items|
  {
    if items != [] {
      var n := |items| - 1;
      var rest := Filter(p, items[..n]);
      FilteredInOrder(before, p, items[..n]);
      forall i | 0 <= i < |rest| ensures before(rest[i], items[n]) {
        assert rest[i] in items[..n];
      }
    }
  }

  lemma {:induction false} SnapshotInDisplayOrder(le: Collation, r: Registry, v: Viewer)
    requires TotalPreorder(le)
    ensures forall i, j | 0 <= i < j < |Load(le, r, v).navigation| ::
              NavigationBefore(le, Load(le, r, v).navigation[i], Load(le, r, v).navigation[j])
  {
    var before := (a: Navigation, b: Navigation) => NavigationBefore(le, a, b);
    var ids := Ids(VisibleApplications(le, r, v));
    var routeIds := RouteIds(VisibleRoutes(le, r, v));
    var listed := ListNavigation(le, r, ids);
    hide VisibleApplications, VisibleRoutes, Ids, RouteIds;
    assert TotalPreorder(before);
    SortSorted(before, Filter((n: Navigation) => n.applicationId in ids, r.navigation));
    FilteredInOrder(before, (n: Navigation) => n.enabled && n.routeId in routeIds, listed);
    KeptInOrder(before, ById(Candidates(le, r, v)), Candidates(le, r, v));
    var kept := Load(le, r, v).navigation;
    forall i, j | 0 <= i < j < |kept| ensures NavigationBefore(le, kept[i], kept[j]) {
      assert before(kept[i], kept[j]);
    }
  }
}
