// The application registry: applications, their routes, and navigation items
// that point at a route and optionally at a parent item.
module RegistryModel {
  import opened Prelude
  import opened Texts

  datatype Audience = External | Internal
  datatype Source = Notification | Task

  datatype Actor = Actor(actorId: Text, isSystem: bool, assignmentId: Option<Text>, workforcePersonId: Option<Text>)

  datatype Application = Application(applicationId: Text, audience: Audience, enabled: bool, permissionCode: Text)

  datatype Route = Route(
    routeId: Text, applicationId: Text, deepLinkSources: seq<Source>, enabled: bool, path: Text, permissionCode: Text)

  datatype Navigation = Navigation(
    navigationId: Text, applicationId: Text, enabled: bool, order: nat, parent: Option<Text>, routeId: Text)

  datatype Change =
    | RegisterApplication(application: Application)
    | RegisterRoute(route: Route)
    | RegisterNavigation(navigation: Navigation)
    | SetApplicationEnabled(applicationId: Text, enabled: bool)
    | SetRouteEnabled(routeId: Text, enabled: bool)

  datatype Mutation = Mutation(actor: Actor, operationId: Text, reason: Text, traceId: Text, change: Change)

  // The maps of the store, as their entries in insertion order.
  datatype Registry = Registry(
    applications: seq<Application>, routes: seq<Route>, navigation: seq<Navigation>, receipts: map<Text, Text>)

  const Empty := Registry([], [], [], map[])

  datatype Error = OperationConflict | TargetUnavailable

  datatype Outcome = Failed(error: Error) | Committed(replayed: bool)

  const ApplicationKey: Application -> Text := (a: Application) => a.applicationId
  const RouteKey: Route -> Text := (r: Route) => r.routeId
  const NavigationKey: Navigation -> Text := (n: Navigation) => n.navigationId

  // Where the entry with a key is; the length when there is none.
  function IndexOf<T>(key: T -> Text, entries: seq<T>, id: Text): (i: nat)
    ensures i <= |entries|
    ensures i < |entries| ==> key(entries[i]) == id
    ensures forall j :: 0 <= j < i ==> key(entries[j]) != id
  {
    if entries == [] then 0
    else if key(entries[0]) == id then 0
    else 1 + IndexOf(key, entries[1..], id)
  }

  predicate Has<T>(key: T -> Text, entries: seq<T>, id: Text) {
    IndexOf(key, entries, id) < |entries|
  }

  function Get<T>(key: T -> Text, entries: seq<T>, id: Text): (r: T)
    requires Has(key, entries, id)
    ensures key(r) == id && r in entries
  {
    entries[IndexOf(key, entries, id)]
  }

  function GoodParent(navigation: seq<Navigation>, n: Navigation): bool {
    n.parent.Some? ==>
      && n.parent.value != n.navigationId
      && Has(NavigationKey, navigation, n.parent.value)
      && Get(NavigationKey, navigation, n.parent.value).applicationId == n.applicationId
  }

  datatype Applied = Refused(error: Error) | Applied(registry: Registry)

  function ApplyChange(r: Registry, change: Change): Applied {
    match change
    case RegisterApplication(a) =>
      if Has(ApplicationKey, r.applications, a.applicationId) then Refused(OperationConflict)
      else Applied(r.(applications := r.applications + [a]))
    case RegisterRoute(t) =>
      if !Has(ApplicationKey, r.applications, t.applicationId) || Has(RouteKey, r.routes, t.routeId) then Refused(OperationConflict)
      else Applied(r.(routes := r.routes + [t]))
    case RegisterNavigation(n) =>
      if || !Has(RouteKey, r.routes, n.routeId) || Get(RouteKey, r.routes, n.routeId).applicationId != n.applicationId
         || Has(NavigationKey, r.navigation, n.navigationId) || !GoodParent(r.navigation, n)
      then Refused(OperationConflict)
      else Applied(r.(navigation := r.navigation + [n]))
    case SetApplicationEnabled(id, enabled) =>
      if !Has(ApplicationKey, r.applications, id) then Refused(TargetUnavailable)
      else
        var i := IndexOf(ApplicationKey, r.applications, id);
        Applied(r.(applications := r.applications[i := r.applications[i].(enabled := enabled)]))
    case SetRouteEnabled(id, enabled) =>
      if !Has(RouteKey, r.routes, id) then Refused(TargetUnavailable)
      else
        var i := IndexOf(RouteKey, r.routes, id);
        Applied(r.(routes := r.routes[i := r.routes[i].(enabled := enabled)]))
  }

  function CommitMutation(r: Registry, fingerprint: Text, m: Mutation): (Registry, Outcome) {
    if m.operationId in r.receipts then
      if r.receipts[m.operationId] != fingerprint then (r, Failed(OperationConflict)) else (r, Committed(true))
    else
      match ApplyChange(r, m.change)
      case Refused(error) => (r, Failed(error))
      case Applied(r') => (r'.(receipts := r'.receipts[m.operationId := fingerprint]), Committed(false))
  }

  class MemoryRegistryStore {
    var applications: seq<Application>
    var routes: seq<Route>
    var navigation: seq<Navigation>
    var receipts: map<Text, Text>

    constructor ()
      ensures View() == Empty
    {
      applications, routes, navigation, receipts := [], [], [], map[];
    }

    function View(): Registry
      reads this
    {
      Registry(applications, routes, navigation, receipts)
    }

    method Commit(fingerprint: Text, m: Mutation) returns (outcome: Outcome)
      modifies this
      ensures (View(), outcome) == CommitMutation(old(View()), fingerprint, m)
    {
      if m.operationId in receipts {
        if receipts[m.operationId] != fingerprint {
          return Failed(OperationConflict);
        }
        return Committed(true);
      }
      match m.change {
        case RegisterApplication(a) =>
          if Has(ApplicationKey, applications, a.applicationId) {
            return Failed(OperationConflict);
          }
          applications := applications + [a];
        case RegisterRoute(t) =>
          if !Has(ApplicationKey, applications, t.applicationId) || Has(RouteKey, routes, t.routeId) {
            return Failed(OperationConflict);
          }
          routes := routes + [t];
        case RegisterNavigation(n) =>
          var foreign := !Has(RouteKey, routes, n.routeId) || Get(RouteKey, routes, n.routeId).applicationId != n.applicationId;
          if foreign || Has(NavigationKey, navigation, n.navigationId) {
            return Failed(OperationConflict);
          }
          if n.parent.Some? {
            var p := n.parent.value;
            if p == n.navigationId || !Has(NavigationKey, navigation, p) || Get(NavigationKey, navigation, p).applicationId != n.applicationId {
              return Failed(OperationConflict);
            }
          }
          navigation := navigation + [n];
        case SetApplicationEnabled(id, enabled) =>
          if !Has(ApplicationKey, applications, id) {
            return Failed(TargetUnavailable);
          }
          var i := IndexOf(ApplicationKey, applications, id);
          applications := applications[i := applications[i].(enabled := enabled)];
        case SetRouteEnabled(id, enabled) =>
          if !Has(RouteKey, routes, id) {
            return Failed(TargetUnavailable);
          }
          var i := IndexOf(RouteKey, routes, id);
          routes := routes[i := routes[i].(enabled := enabled)];
      }
      receipts := receipts[m.operationId := fingerprint];
      return Committed(false);
    }
  }
}
