// The fingerprint of a registry mutation: which mutations share one.
module RegistryFingerprint {
  import opened Prelude
  import opened Texts
  import opened CanonicalJson
  import opened CanonicalUniqueness
  import opened JsonValues
  import opened RegistryModel

  // ------------------------------------------------------- mutations as values

  function OptionalText(t: Option<Text>): Json {
    if t.None? then Absent else Str(t.value)
  }

  function ActorJson(a: Actor): Json {
    Obj([
      Field(Lit("actorId"), Str(a.actorId)),
      Field(Lit("actorType"), Str(if a.isSystem then Lit("system") else Lit("authenticated_subject"))),
      Field(Lit("assignmentId"), OptionalText(a.assignmentId)),
      Field(Lit("workforcePersonId"), OptionalText(a.workforcePersonId))])
  }

  function SourceText(s: Source): Text {
    match s
    case Notification => Lit("notification")
    case Task => Lit("task")
  }

  function SourceTexts(sources: seq<Source>): (r: seq<Text>)
    ensures |r| == |sources|
    ensures forall i :: 0 <= i < |r| ==> r[i] == SourceText(sources[i])
  {
    if sources == [] then [] else [SourceText(sources[0])] + SourceTexts(sources[1..])
  }

  function SourcesJson(sources: seq<Source>): Json {
    Arr(Strings(Sort(ByKey(SameText), SourceTexts(sources))))
  }

  function ApplicationJson(a: Application): Json {
    Obj([
      Field(Lit("applicationId"), Str(a.applicationId)),
      Field(Lit("audience"), Str(if a.audience.Internal? then Lit("internal") else Lit("external"))),
      Field(Lit("enabled"), Bool(a.enabled)),
      Field(Lit("permissionCode"), Str(a.permissionCode))])
  }

  function RouteJson(r: Route): Json {
    Obj([
      Field(Lit("applicationId"), Str(r.applicationId)),
      Field(Lit("deepLinkSources"), SourcesJson(r.deepLinkSources)),
      Field(Lit("enabled"), Bool(r.enabled)),
      Field(Lit("path"), Str(r.path)),
      Field(Lit("permissionCode"), Str(r.permissionCode)),
      Field(Lit("routeId"), Str(r.routeId))])
  }

  function NavigationJson(n: Navigation): Json {
    Obj([
      Field(Lit("applicationId"), Str(n.applicationId)),
      Field(Lit("enabled"), Bool(n.enabled)),
      Field(Lit("navigationId"), Str(n.navigationId)),
      Field(Lit("order"), Num(Decimal(n.order))),
      Field(Lit("parentNavigationId"), OptionalText(n.parent)),
      Field(Lit("routeId"), Str(n.routeId))])
  }

  function KindOf(c: Change): Text {
    match c
    case RegisterApplication(_) => Lit("register_application")
    case RegisterRoute(_) => Lit("register_route")
    case RegisterNavigation(_) => Lit("register_navigation")
    case SetApplicationEnabled(_, _) => Lit("set_application_enabled")
    case SetRouteEnabled(_, _) => Lit("set_route_enabled")
  }

  function ChangeFields(c: Change): seq<Field> {
    match c
    case RegisterApplication(a) => [Field(Lit("application"), ApplicationJson(a))]
    case RegisterRoute(r) => [Field(Lit("route"), RouteJson(r))]
    case RegisterNavigation(n) => [Field(Lit("navigation"), NavigationJson(n))]
    case SetApplicationEnabled(id, enabled) => [Field(Lit("applicationId"), Str(id)), Field(Lit("enabled"), Bool(enabled))]
    case SetRouteEnabled(id, enabled) => [Field(Lit("enabled"), Bool(enabled)), Field(Lit("routeId"), Str(id))]
  }

  // The hashed value: the mutation without its trace id, with the deep-link
  // sources of a route sorted.
  function MutationJson(m: Mutation): Json {
    Obj([Field(Lit("kind"), Str(KindOf(m.change))), Field(Lit("actor"), ActorJson(m.actor)),
         Field(Lit("operationId"), Str(m.operationId)), Field(Lit("reason"), Str(m.reason)), Field(Lit("traceId"), Absent)]
        + ChangeFields(m.change))
  }

  function Fingerprint(m: Mutation): Text {
    Print(false, MutationJson(m))
  }

  // ------------------------------------------------------------ the same change

  predicate SameRoute(a: Route, b: Route) {
    && a.(deepLinkSources := []) == b.(deepLinkSources := [])
    && multiset(a.deepLinkSources) == multiset(b.deepLinkSources)
  }

  predicate SameChange(a: Change, b: Change) {
    if a.RegisterRoute? && b.RegisterRoute? then SameRoute(a.route, b.route) else a == b
  }

  predicate SameMutation(a: Mutation, b: Mutation) {
    a.actor == b.actor && a.operationId == b.operationId && a.reason == b.reason && SameChange(a.change, b.change)
  }

  // --------------------------------------------------------- keys are distinct

  lemma {:induction false} ActorKeys(a: Actor)
    ensures DistinctKeys(ActorJson(a).fields)
  {
    assert |Lit("actorId")| == 7 && |Lit("actorType")| == 9 && |Lit("assignmentId")| == 12 && |Lit("workforcePersonId")| == 17;
  }

  lemma {:induction false} ApplicationKeys(a: Application)
    ensures DistinctKeys(ApplicationJson(a).fields)
  {
    assert |Lit("applicationId")| == 13 && |Lit("audience")| == 8 && |Lit("enabled")| == 7 && |Lit("permissionCode")| == 14;
  }

  lemma {:induction false} RouteKeys(r: Route)
    ensures DistinctKeys(RouteJson(r).fields)
  {
    hide SourcesJson;
    assert |Lit("applicationId")| == 13 && |Lit("deepLinkSources")| == 15 && |Lit("enabled")| == 7;
    assert |Lit("path")| == 4 && |Lit("permissionCode")| == 14 && |Lit("routeId")| == 7;
    assert Lit("enabled")[0] != Lit("routeId")[0];
  }

  lemma {:induction false} NavigationKeys(n: Navigation)
    ensures DistinctKeys(NavigationJson(n).fields)
  {
    hide Decimal;
    assert |Lit("applicationId")| == 13 && |Lit("enabled")| == 7 && |Lit("navigationId")| == 12;
    assert |Lit("order")| == 5 && |Lit("parentNavigationId")| == 18 && |Lit("routeId")| == 7;
    assert Lit("enabled")[0] != Lit("routeId")[0];
  }

  lemma {:induction false} WordsDiffer()
    ensures Lit("system") != Lit("authenticated_subject")
    ensures Lit("internal") != Lit("external")
    ensures Lit("notification") != Lit("task")
  {
    assert |Lit("system")| == 6 && |Lit("authenticated_subject")| == 21 && |Lit("notification")| == 12 && |Lit("task")| == 4;
    assert Lit("internal")[0] != Lit("external")[0];
  }

  // ------------------------------------------------- parts with the same value

  lemma {:induction false} SameActors(a: Actor, b: Actor)
    requires Same(false, ActorJson(a), ActorJson(b))
    ensures a == b
  {
    var f, g := ActorJson(a).fields, ActorJson(b).fields;
    ActorKeys(a);
    WordsDiffer();
    hide Lit, Same, DistinctKeys;
    SameScalars(f, g, 0);
    SameScalars(f, g, 1);
    SameScalars(f, g, 2);
    SameScalars(f, g, 3);
  }

  lemma {:induction false} SameApplications(a: Application, b: Application)
    requires Same(false, ApplicationJson(a), ApplicationJson(b))
    ensures a == b
  {
    var f, g := ApplicationJson(a).fields, ApplicationJson(b).fields;
    ApplicationKeys(a);
    WordsDiffer();
    hide Lit, Same, DistinctKeys;
    SameScalars(f, g, 0);
    SameScalars(f, g, 1);
    SameScalars(f, g, 2);
    SameScalars(f, g, 3);
  }

  lemma {:induction false} SameNavigations(a: Navigation, b: Navigation)
    requires Same(false, NavigationJson(a), NavigationJson(b))
    ensures a == b
  {
    var f, g := NavigationJson(a).fields, NavigationJson(b).fields;
    NavigationKeys(a);
    hide Lit, Same, DistinctKeys, Decimal;
    SameScalars(f, g, 0);
    SameScalars(f, g, 1);
    SameScalars(f, g, 2);
    SameScalars(f, g, 3);
    SameScalars(f, g, 4);
    SameScalars(f, g, 5);
    DecimalInjective(a.order, b.order);
  }

  // ----------------------------------------------------------------- sources

  lemma {:induction false} SourceTextInjective(a: Source, b: Source)
    requires SourceText(a) == SourceText(b)
    ensures a == b
  {
    WordsDiffer();
  }

  lemma {:induction false} CountAfterFirst<T>(s: seq<T>, x: T)
    requires s != []
    ensures multiset(s)[x] == multiset(s[1..])[x] + (if s[0] == x then 1 else 0)
  {
    assert s == [s[0]] + s[1..];
  }

  lemma {:induction false} SourceCount(sources: seq<Source>, s: Source)
    ensures multiset(SourceTexts(sources))[SourceText(s)] == multiset(sources)[s]
  {
    hide SourceText;
    if sources != [] {
      SourceCount(sources[1..], s);
      CountAfterFirst(sources, s);
      CountAfterFirst(SourceTexts(sources), SourceText(s));
      assert SourceTexts(sources)[1..] == SourceTexts(sources[1..]);
      if SourceText(sources[0]) == SourceText(s) {
        SourceTextInjective(sources[0], s);
      }
    }
  }

  lemma {:induction false} SourcesOnly(sources: seq<Source>, t: Text)
    requires t in SourceTexts(sources)
    ensures exists s :: t == SourceText(s)
  {
    var i :| 0 <= i < |sources| && SourceTexts(sources)[i] == t;
  }

  lemma {:induction false} SameSourcesSameTexts(a: seq<Source>, b: seq<Source>, t: Text)
    requires multiset(a) == multiset(b)
    ensures multiset(SourceTexts(a))[t] == multiset(SourceTexts(b))[t]
  {
    hide SourceText;
    if s :| t == SourceText(s) {
      SourceCount(a, s);
      SourceCount(b, s);
    } else {
      if t in SourceTexts(a) {
        SourcesOnly(a, t);
      }
      if t in SourceTexts(b) {
        SourcesOnly(b, t);
      }
    }
  }

  // The printed list of sources is the same exactly when the sources are, in
  // whatever order.
  lemma {:induction false} PermutedSourcesSameJson(a: seq<Source>, b: seq<Source>)
    requires multiset(a) == multiset(b)
    ensures SourcesJson(a) == SourcesJson(b)
  {
    hide SourceText;
    forall t ensures multiset(SourceTexts(a))[t] == multiset(SourceTexts(b))[t] {
      SameSourcesSameTexts(a, b, t);
    }
    SortByKeyForgetsOrder(SameText, SourceTexts(a), SourceTexts(b));
  }

  lemma {:induction false} SameJsonPermutedSources(a: seq<Source>, b: seq<Source>)
    requires Same(false, SourcesJson(a), SourcesJson(b))
    ensures multiset(a) == multiset(b)
  {
    var ta, tb := SourceTexts(a), SourceTexts(b);
    SameStrings(Sort(ByKey(SameText), ta), Sort(ByKey(SameText), tb));
    SortContents(ByKey(SameText), ta);
    SortContents(ByKey(SameText), tb);
    hide SourceText;
    forall s ensures multiset(a)[s] == multiset(b)[s] {
      SourceCount(a, s);
      SourceCount(b, s);
    }
  }

  lemma {:induction false} SameRoutes(a: Route, b: Route)
    requires Same(false, RouteJson(a), RouteJson(b))
    ensures SameRoute(a, b)
  {
    var f, g := RouteJson(a).fields, RouteJson(b).fields;
    RouteKeys(a);
    assert SourcesJson(a.deepLinkSources).Arr?;
    hide Lit, Same, DistinctKeys, SourcesJson;
    SameScalars(f, g, 0);
    SameScalars(f, g, 2);
    SameScalars(f, g, 3);
    SameScalars(f, g, 4);
    SameScalars(f, g, 5);
    SameObjectsAgree(f, g, 1);
    SameJsonPermutedSources(a.deepLinkSources, b.deepLinkSources);
  }

  // ------------------------------------------------------------ well-formedness

  lemma {:induction false} SourcesWellFormed(sources: seq<Source>)
    ensures WellFormed(SourcesJson(sources))
  {
    hide Sort, SourceTexts;
  }

  lemma {:induction false} PartsWellFormed(c: Change)
    ensures forall i :: 0 <= i < |ChangeFields(c)| ==> Printable(ChangeFields(c)[i].value)
  {
    hide Lit, DistinctKeys, Decimal, Numeral, SourcesJson;
    match c
    case RegisterApplication(a) =>
      ApplicationKeys(a);
      ObjectWellFormed(ApplicationJson(a).fields);
    case RegisterRoute(r) =>
      RouteKeys(r);
      SourcesWellFormed(r.deepLinkSources);
      ObjectWellFormed(RouteJson(r).fields);
    case RegisterNavigation(n) =>
      NavigationKeys(n);
      DecimalIsNumeral(n.order);
      ObjectWellFormed(NavigationJson(n).fields);
    case SetApplicationEnabled(_, _) =>
    case SetRouteEnabled(_, _) =>
  }

  predicate CommonKey(t: Text) {
    t == Lit("kind") || t == Lit("actor") || t == Lit("operationId") || t == Lit("reason") || t == Lit("traceId")
  }

  predicate ChangeKey(t: Text) {
    || t == Lit("application") || t == Lit("route") || t == Lit("navigation")
    || t == Lit("applicationId") || t == Lit("enabled") || t == Lit("routeId")
  }

  lemma {:induction false} ChangeKeys(c: Change)
    ensures forall i :: 0 <= i < |ChangeFields(c)| ==> ChangeKey(ChangeFields(c)[i].key)
    ensures DistinctKeys(ChangeFields(c))
  {
    assert |Lit("applicationId")| == 13 && Lit("enabled")[0] != Lit("routeId")[0] && |Lit("enabled")| == 7;
  }

  lemma {:induction false} CommonKeys()
    ensures forall a, b | CommonKey(a) && ChangeKey(b) :: a != b
  {
    assert |Lit("kind")| == 4 && |Lit("actor")| == 5 && |Lit("operationId")| == 11 && |Lit("reason")| == 6 && |Lit("traceId")| == 7;
    assert |Lit("application")| == 11 && |Lit("route")| == 5 && |Lit("navigation")| == 10 && |Lit("applicationId")| == 13;
    assert |Lit("enabled")| == 7 && |Lit("routeId")| == 7;
    assert Lit("operationId")[0] != Lit("application")[0] && Lit("actor")[0] != Lit("route")[0];
    assert Lit("traceId")[0] != Lit("enabled")[0] && Lit("traceId")[0] != Lit("routeId")[0];
  }

  function CommonFields(m: Mutation): seq<Field> {
    [Field(Lit("kind"), Str(KindOf(m.change))), Field(Lit("actor"), ActorJson(m.actor)),
     Field(Lit("operationId"), Str(m.operationId)), Field(Lit("reason"), Str(m.reason)), Field(Lit("traceId"), Absent)]
  }

  lemma {:induction false} CommonFieldsDistinct(m: Mutation)
    ensures DistinctKeys(CommonFields(m))
    ensures forall i :: 0 <= i < 5 ==> CommonKey(CommonFields(m)[i].key)
  {
    hide ActorJson, KindOf;
    assert |Lit("kind")| == 4 && |Lit("actor")| == 5 && |Lit("operationId")| == 11 && |Lit("reason")| == 6 && |Lit("traceId")| == 7;
  }

  lemma {:induction false} MutationKeys(m: Mutation)
    ensures DistinctKeys(MutationJson(m).fields)
  {
    CommonFieldsDistinct(m);
    ChangeKeys(m.change);
    CommonKeys();
    var f := MutationJson(m).fields;
    hide Lit, ActorJson, KindOf, ChangeFields;
    assert f == CommonFields(m) + ChangeFields(m.change);
    forall i, j | 0 <= i < j < |f| ensures f[i].key != f[j].key {
      if i < 5 <= j {
        assert f[j] == ChangeFields(m.change)[j - 5];
      } else if 5 <= i {
        assert f[i] == ChangeFields(m.change)[i - 5] && f[j] == ChangeFields(m.change)[j - 5];
      }
    }
  }

  lemma {:induction false} MutationWellFormed(m: Mutation)
    ensures WellFormed(MutationJson(m))
  {
    MutationKeys(m);
    PartsWellFormed(m.change);
    ActorKeys(m.actor);
    ObjectWellFormed(ActorJson(m.actor).fields);
    hide Lit, DistinctKeys, KindOf, ChangeFields;
    var f := MutationJson(m).fields;
    forall i | 0 <= i < |f| ensures Printable(f[i].value) {
      if i >= 5 {
        assert f[i] == ChangeFields(m.change)[i - 5];
      }
    }
    ObjectWellFormed(f);
  }

  // -------------------------------------------------------------- the theorem

  lemma {:induction false} KindDecides(a: Change, b: Change)
    requires KindOf(a) == KindOf(b)
    ensures a.RegisterApplication? == b.RegisterApplication? && a.RegisterRoute? == b.RegisterRoute?
    ensures a.RegisterNavigation? == b.RegisterNavigation? && a.SetApplicationEnabled? == b.SetApplicationEnabled?
  {
    assert |Lit("register_application")| == 20 && |Lit("register_route")| == 14 && |Lit("register_navigation")| == 19;
    assert |Lit("set_application_enabled")| == 23 && |Lit("set_route_enabled")| == 17;
  }

  lemma {:induction false} SameFieldsSameChange(a: Mutation, b: Mutation)
    requires Same(false, MutationJson(a), MutationJson(b)) && KindOf(a.change) == KindOf(b.change)
    ensures SameChange(a.change, b.change)
  {
    var f, g := MutationJson(a).fields, MutationJson(b).fields;
    KindDecides(a.change, b.change);
    MutationKeys(a);
    hide Lit, Same, DistinctKeys, KindOf, ActorJson, ApplicationJson, RouteJson, NavigationJson;
    assert SameKeys(f, g);
    SameObjectsAgree(f, g, 5);
    match a.change
    case RegisterApplication(x) => PartIsPresent(a.change); PartIsPresent(b.change); SameApplications(x, b.change.application);
    case RegisterRoute(x) => PartIsPresent(a.change); PartIsPresent(b.change); SameRoutes(x, b.change.route);
    case RegisterNavigation(x) => PartIsPresent(a.change); PartIsPresent(b.change); SameNavigations(x, b.change.navigation);
    case SetApplicationEnabled(_, _) => SameScalars(f, g, 5); SameScalars(f, g, 6);
    case SetRouteEnabled(_, _) => SameScalars(f, g, 5); SameScalars(f, g, 6);
  }

  lemma {:induction false} PartIsPresent(c: Change)
    ensures !ChangeFields(c)[0].value.Absent?
  {
    hide Lit;
  }

  lemma {:induction false} SameJsonSameMutation(a: Mutation, b: Mutation)
    requires Same(false, MutationJson(a), MutationJson(b))
    ensures SameMutation(a, b)
  {
    var f, g := MutationJson(a).fields, MutationJson(b).fields;
    MutationKeys(a);
    MutationKeys(b);
    assert ActorJson(a.actor).Obj? && ActorJson(b.actor).Obj?;
    hide Lit, ChangeFields, KindOf, ActorJson, DistinctKeys, Same;
    SharedFieldAgrees(f, g, 0, 0);
    ScalarsAgree(f[0].value, g[0].value);
    SharedFieldAgrees(f, g, 1, 1);
    SameActors(a.actor, b.actor);
    SharedFieldAgrees(f, g, 2, 2);
    ScalarsAgree(f[2].value, g[2].value);
    SharedFieldAgrees(f, g, 3, 3);
    ScalarsAgree(f[3].value, g[3].value);
    SameFieldsSameChange(a, b);
  }

  lemma {:induction false} SameMutationSameJson(a: Mutation, b: Mutation)
    requires SameMutation(a, b)
    ensures MutationJson(a) == MutationJson(b)
  {
    hide Lit, SourcesJson;
    if a.change.RegisterRoute? {
      PermutedSourcesSameJson(a.change.route.deepLinkSources, b.change.route.deepLinkSources);
    }
  }

  // Two mutations have the same fingerprint exactly when they are equal up to
  // the trace id and the order of deep-link sources.
  lemma {:induction false} FingerprintDecides(a: Mutation, b: Mutation)
    ensures Fingerprint(a) == Fingerprint(b) <==> SameMutation(a, b)
  {
    MutationWellFormed(a);
    MutationWellFormed(b);
    CanonicalTextDecides(false, MutationJson(a), MutationJson(b));
    hide MutationJson, SameMutation, WellFormed, Same;
    if Fingerprint(a) == Fingerprint(b) {
      SameJsonSameMutation(a, b);
    }
    if SameMutation(a, b) {
      SameMutationSameJson(a, b);
    }
  }
}
