/** Builders of workloads and of the route, and what ties route, services and pods together. */
module Routing {
  import opened Options
  import opened Objects
  import opened Tenants
  import opened Runs
  import opened Contents

  // ---------------------------------------------------------------- merging labels

  /** Copies every entry of every map, in whatever order a map yields its entries. */
  method MergeLabels(maps: seq<Labels>) returns (result: Labels)
    ensures result == Merged(maps)
  {
    result := map[];
    assert maps[..0] == [];
    for i := 0 to |maps|
      invariant result == Merged(maps[..i])
    {
      var m := maps[i];
      ghost var before := result;
      var todo := m.Keys;
      while todo != {}
        invariant todo <= m.Keys
        invariant result == before + (map k | k in m.Keys - todo :: m[k])
      {
        var k :| k in todo;
        result := result[k := m[k]];
        todo := todo - {k};
      }
      assert (map k | k in m.Keys - {} :: m[k]) == m;
      assert maps[..i + 1][..i] == maps[..i];
    }
    assert maps[..|maps|] == maps;
  }

  /** The last map that has the key decides; a key that no map has is absent. */
  lemma {:induction false} MergedLast(maps: seq<Labels>, k: string)
    ensures k in Merged(maps) <==> exists i :: 0 <= i < |maps| && k in maps[i]
    ensures forall i :: 0 <= i < |maps| && k in maps[i] && (forall j :: i < j < |maps| ==> k !in maps[j]) ==> Merged(maps)[k] == maps[i][k]
  {
    if |maps| > 0 {
      var rest := maps[..|maps| - 1];
      MergedLast(rest, k);
      if k in maps[|maps| - 1] {
      } else {
        assert forall i :: 0 <= i < |rest| ==> rest[i] == maps[i];
      }
    }
  }

  ghost predicate Agree(a: Labels, b: Labels) {
    forall k :: k in a && k in b ==> a[k] == b[k]
  }

  ghost predicate Selects(selector: Labels, labels: Labels) {
    forall k :: k in selector ==> k in labels && labels[k] == selector[k]
  }

  /** A selector matches the merged labels whenever the two maps agree where they overlap. */
  lemma MergedSelected(selector: Labels, labels: Labels)
    ensures Selects(selector, Merged([selector, labels])) <==> Agree(selector, labels)
  {
    assert [selector, labels][..1] == [selector] && [selector][..0] == [];
    assert Merged([selector]) == map[] + selector;
    assert Merged([selector, labels]) == selector + labels;
    if Selects(selector, selector + labels) {
      forall k | k in selector && k in labels ensures selector[k] == labels[k] {
        assert (selector + labels)[k] == labels[k];
      }
    }
  }

  // ---------------------------------------------------------------- builders

  class DeploymentBuilder {
    var labels: Labels
    var selectorLabels: Labels
    var secretHash: string
    var replicas: int
    var containerPort: int
    var env: map<string, string>
    var publicUrl: string
    var settings: string

    constructor ()
      ensures labels == map[] && selectorLabels == map[] && secretHash == "" && replicas == 1
    {
      labels := map[];
      selectorLabels := map[];
      secretHash := "";
      replicas := 1;
    }

    method WithLabels(l: Labels)
      modifies this`labels
      ensures labels == l
    {
      labels := l;
    }

    method WithSelectorLabels(l: Labels)
      modifies this`selectorLabels
      ensures selectorLabels == l
    {
      selectorLabels := l;
    }

    method WithReplicas(n: int)
      modifies this`replicas
      ensures replicas == n
    {
      replicas := n;
    }

    method WithPodAnnotation(hash: string)
      modifies this`secretHash
      ensures secretHash == hash
    {
      secretHash := hash;
    }

    method WithContainer(port: int, e: map<string, string>, url: string, s: string)
      modifies this`containerPort, this`env, this`publicUrl, this`settings
      ensures containerPort == port && env == e && publicUrl == url && settings == s
    {
      containerPort, env, publicUrl, settings := port, e, url, s;
    }

    method Build() returns (o: Obj)
      ensures o == DeploymentObj(labels,
        DeploymentSpec(replicas, selectorLabels, Merged([selectorLabels, labels]), secretHash, containerPort, env, publicUrl, settings), 0)
    {
      var podLabels := MergeLabels([selectorLabels, labels]);
      o := DeploymentObj(labels,
        DeploymentSpec(replicas, selectorLabels, podLabels, secretHash, containerPort, env, publicUrl, settings), 0);
    }
  }

  function AuthUrl(t: Tenant, parent: Parent, svc: Svc): string {
    if svc.Auth? || svc.Functions? then "https://" + Endpoint(t, parent) else ""
  }

  lemma WantedParts(t: Tenant, spec: Spec, parent: Parent, ctx: Context, svc: Svc)
    ensures var d := WantedDeployment(t, spec, parent, ctx, svc);
      && d.replicas == Replicas(spec.preset) && d.selector == TenantSelector(t, svc)
      && d.podLabels == Merged([TenantSelector(t, svc), PartLabels(t, SvcName(svc))])
      && d.secretHash == ctx.hash && d.containerPort == SvcPort(svc) && d.env == CredentialEnv(t, ctx, svc)
      && d.publicUrl == AuthUrl(t, parent, svc) && d.settings == spec.settings
  {
  }

  lemma DesiredParts(t: Tenant, spec: Spec, parent: Parent, ctx: Context, svc: Svc, o: Obj)
    requires o == Desired(t, spec, parent, ctx, map[], TDeploy(svc))
    ensures o.DeploymentObj? && o.labels == PartLabels(t, SvcName(svc)) && o.ready == 0
    ensures o.deployment == WantedDeployment(t, spec, parent, ctx, svc)
  {
  }

  lemma SameDeployment(o: Obj, p: Obj)
    requires o.DeploymentObj? && p.DeploymentObj? && o.labels == p.labels && o.ready == p.ready
    requires o.deployment.replicas == p.deployment.replicas && o.deployment.selector == p.deployment.selector
    requires o.deployment.podLabels == p.deployment.podLabels && o.deployment.secretHash == p.deployment.secretHash
    requires o.deployment.containerPort == p.deployment.containerPort && o.deployment.env == p.deployment.env
    requires o.deployment.publicUrl == p.deployment.publicUrl && o.deployment.settings == p.deployment.settings
    ensures o == p
  {
  }

  /** The chain of builder calls that all tenant builders share. */
  method Assemble(l: Labels, sel: Labels, n: int, hash: string, port: int, env: map<string, string>, url: string, s: string)
    returns (o: Obj)
    ensures o == DeploymentObj(l, DeploymentSpec(n, sel, Merged([sel, l]), hash, port, env, url, s), 0)
  {
    var b := new DeploymentBuilder();
    b.WithLabels(l);
    b.WithSelectorLabels(sel);
    b.WithReplicas(n);
    b.WithPodAnnotation(hash);
    b.WithContainer(port, env, url, s);
    o := b.Build();
  }

  lemma Assembled(t: Tenant, spec: Spec, parent: Parent, ctx: Context, svc: Svc, o: Obj)
    requires o.DeploymentObj? && o.labels == PartLabels(t, SvcName(svc)) && o.ready == 0
    requires o.deployment.replicas == Replicas(spec.preset) && o.deployment.selector == TenantSelector(t, svc)
    requires o.deployment.podLabels == Merged([TenantSelector(t, svc), PartLabels(t, SvcName(svc))])
    requires o.deployment.secretHash == ctx.hash && o.deployment.containerPort == SvcPort(svc)
    requires o.deployment.env == CredentialEnv(t, ctx, svc)
    requires o.deployment.publicUrl == AuthUrl(t, parent, svc) && o.deployment.settings == spec.settings
    ensures o == Desired(t, spec, parent, ctx, map[], TDeploy(svc))
  {
    var wanted := Desired(t, spec, parent, ctx, map[], TDeploy(svc));
    DesiredParts(t, spec, parent, ctx, svc, wanted);
    WantedParts(t, spec, parent, ctx, svc);
    SameDeployment(o, wanted);
  }

  /** What the five tenant builders make of the context that a pass has filled: every credential under the name
      by which the service looks for it, the preset's replicas, the digest of the secrets. */
  method BuildDeployment(t: Tenant, spec: Spec, parent: Parent, ctx: Context, svc: Svc) returns (o: Obj)
    ensures o == Desired(t, spec, parent, ctx, map[], TDeploy(svc))
    ensures o.DeploymentObj? && Wired(t, svc, o.deployment.env, KeysOf(ctx)) && o.deployment.secretHash == ctx.hash
    ensures ReplicasFor(spec.preset, o.deployment.replicas) && o.deployment.containerPort == PortOf(svc)
  {
    var l, sel, env, url := PartLabels(t, SvcName(svc)), TenantSelector(t, svc), CredentialEnv(t, ctx, svc), AuthUrl(t, parent, svc);
    o := Assemble(l, sel, Replicas(spec.preset), ctx.hash, SvcPort(svc), env, url, spec.settings);
    EnvWired(t, ctx, svc);
    Assembled(t, spec, parent, ctx, svc, o);
  }

  datatype RouteTarget = RouteTarget(pathPrefix: string, serviceName: string, port: int)

  /** The service in front of the pods of one deployment. */
  method BuildService(t: Tenant, spec: Spec, parent: Parent, ctx: Context, svc: Svc) returns (o: Obj)
    ensures o == Desired(t, spec, parent, ctx, map[], TService(svc)) && Serving(t, svc, o)
  {
    var selectorLabels := SelectorLabels(t.parent, SvcName(svc));
    selectorLabels := selectorLabels[LABEL_TENANT := t.id];
    var ports := [Port("http", SvcPort(svc), SvcPort(svc))];
    o := ServiceObj(TenantLabels(t.parent, t.id, SvcName(svc)), ports, selectorLabels, "");
    WantedServing(t, svc, o);
  }

  /** The table of paths is turned into rules one by one. */
  method BuildHTTPRoute(t: Tenant, parent: Parent) returns (o: Obj)
    ensures o == RouteObj(PartLabels(t, "routing"), WantedRoute(t, parent))
    ensures Routed(t, parent.baseDomain, o)
  {
    var tenantNS := NamespaceName(t);
    var targets := [
      RouteTarget("/auth/v1", t.id + "-auth", 9999),
      RouteTarget("/rest/v1", t.id + "-rest", 3000),
      RouteTarget("/realtime/v1", t.id + "-realtime", 4000),
      RouteTarget("/storage/v1", t.id + "-storage", 5000),
      RouteTarget("/functions/v1", t.id + "-functions", 9000)];
    TargetTable(t, targets);
    var rules := [];
    for i := 0 to |targets|
      invariant rules == WantedRules(t, i)
    {
      rules := rules + [Rule(targets[i].pathPrefix, targets[i].serviceName, tenantNS, targets[i].port)];
    }
    o := RouteObj(TenantLabels(t.parent, t.id, "routing"),
                  RouteSpec(t.parent + "-gateway", t.platform, t.id + "." + parent.baseDomain, rules));
    WantedRouted(t, parent, o);
  }

  /** The literal table and the naming rules say the same. */
  lemma TargetTable(t: Tenant, targets: seq<RouteTarget>)
    requires targets == [
      RouteTarget("/auth/v1", t.id + "-auth", 9999),
      RouteTarget("/rest/v1", t.id + "-rest", 3000),
      RouteTarget("/realtime/v1", t.id + "-realtime", 4000),
      RouteTarget("/storage/v1", t.id + "-storage", 5000),
      RouteTarget("/functions/v1", t.id + "-functions", 9000)]
    ensures forall i :: 0 <= i < 5 ==>
      Rule(targets[i].pathPrefix, targets[i].serviceName, NamespaceName(t), targets[i].port) == WantedRule(t, SERVICES[i])
  {
    assert "/" + "auth" + "/v1" == "/auth/v1" && "/" + "rest" + "/v1" == "/rest/v1" && "/" + "realtime" + "/v1" == "/realtime/v1";
    assert "/" + "storage" + "/v1" == "/storage/v1" && "/" + "functions" + "/v1" == "/functions/v1";
    assert forall s: string :: t.id + "-" + s == t.id + ("-" + s);
    assert "-" + "auth" == "-auth" && "-" + "rest" == "-rest" && "-" + "realtime" == "-realtime";
    assert "-" + "storage" == "-storage" && "-" + "functions" == "-functions";
  }

  // ---------------------------------------------------------------- route closure

  function Index(svc: Svc): (i: nat)
    ensures i < 5 && SERVICES[i] == svc
  {
    match svc case Auth => 0 case Rest => 1 case Realtime => 2 case Storage => 3 case Functions => 4
  }

  lemma {:induction false} RulesAt(t: Tenant, n: nat, i: nat)
    requires i < n <= 5
    ensures |WantedRules(t, n)| == n && WantedRules(t, n)[i] == WantedRule(t, SERVICES[i])
  {
    RulesLength(t, n - 1);
    if i < n - 1 { RulesAt(t, n - 1, i); }
  }

  lemma {:induction false} RulesLength(t: Tenant, n: nat)
    requires n <= 5
    ensures |WantedRules(t, n)| == n
  {
    if n > 0 { RulesLength(t, n - 1); }
  }

  /** A rule's backend is the service of exactly one of the five, and no other object of the tenant has that name. */
  lemma BackendIsService(t: Tenant, svc: Svc, x: Slot)
    requires NamespaceName(t) != t.platform
    ensures BackendKey(WantedRule(t, svc)) == KeyOf(t, x) <==> x == Child(TService(svc))
  {
    if BackendKey(WantedRule(t, svc)) == KeyOf(t, x) { SlotsApart(t, x, Child(TService(svc))); }
  }

  lemma LabelKeysDiffer()
    ensures LABEL_MANAGED_BY != LABEL_COMPONENT && LABEL_PART_OF != LABEL_COMPONENT && LABEL_INSTANCE != LABEL_COMPONENT
    ensures LABEL_MANAGED_BY != LABEL_INSTANCE && LABEL_PART_OF != LABEL_INSTANCE
    ensures LABEL_TENANT != LABEL_COMPONENT && LABEL_TENANT != LABEL_INSTANCE
    ensures LABEL_TENANT != LABEL_MANAGED_BY && LABEL_TENANT != LABEL_PART_OF
  {
    assert LABEL_MANAGED_BY[18] == 'm' && LABEL_PART_OF[18] == 'p' && LABEL_INSTANCE[18] == 'i' && LABEL_COMPONENT[18] == 'c';
    assert LABEL_TENANT[0] == 's';
    assert LABEL_MANAGED_BY[0] == 'a' && LABEL_PART_OF[0] == 'a' && LABEL_INSTANCE[0] == 'a' && LABEL_COMPONENT[0] == 'a';
  }

  /** What a pod of a service is labelled with, as far as selectors look at it. */
  lemma PodLabelsAt(t: Tenant, svc: Svc)
    ensures var pod := PodLabels(t, svc);
      && Selects(TenantSelector(t, svc), pod)
      && LABEL_COMPONENT in pod && pod[LABEL_COMPONENT] == SvcName(svc)
  {
    LabelKeysDiffer();
    var sel, l := TenantSelector(t, svc), PartLabels(t, SvcName(svc));
    forall k | k in sel && k in l ensures sel[k] == l[k] {
      assert k == LABEL_INSTANCE || k == LABEL_COMPONENT || k == LABEL_TENANT;
    }
    MergedSelected(sel, l);
    assert LABEL_COMPONENT in sel && sel[LABEL_COMPONENT] == SvcName(svc);
  }

  /** A component label decides which selectors match. */
  lemma ComponentDecides(t: Tenant, svc: Svc, other: Svc, pod: Labels)
    requires LABEL_COMPONENT in pod && pod[LABEL_COMPONENT] == SvcName(other) && Selects(TenantSelector(t, svc), pod)
    ensures svc == other
  {
    SelectorComponent(t, svc);
    SvcNamesDiffer(svc, other);
  }

  lemma SelectorComponent(t: Tenant, svc: Svc)
    ensures LABEL_COMPONENT in TenantSelector(t, svc) && TenantSelector(t, svc)[LABEL_COMPONENT] == SvcName(svc)
  {
    LabelKeysDiffer();
  }

  /** The labels of a service's pods, as the builder of its deployment merges them. */
  function PodLabels(t: Tenant, svc: Svc): Labels {
    Merged([TenantSelector(t, svc), PartLabels(t, SvcName(svc))])
  }

  lemma SelectorMatchesPods(t: Tenant, svc: Svc, other: Svc)
    ensures Selects(TenantSelector(t, svc), PodLabels(t, other)) <==> svc == other
  {
    PodLabelsAt(t, other);
    if Selects(TenantSelector(t, svc), PodLabels(t, other)) { ComponentDecides(t, svc, other, PodLabels(t, other)); }
  }

  lemma WantedPods(t: Tenant, spec: Spec, parent: Parent, ctx: Context, svc: Svc)
    ensures WantedDeployment(t, spec, parent, ctx, svc).podLabels == PodLabels(t, svc)
  {
  }

  /** The selector of one service matches the pods of its own deployment only. */
  lemma SelectorMatchesOne(t: Tenant, spec: Spec, parent: Parent, ctx: Context, svc: Svc, other: Svc)
    ensures Selects(TenantSelector(t, svc), WantedDeployment(t, spec, parent, ctx, other).podLabels) <==> svc == other
  {
    SelectorMatchesPods(t, svc, other);
    WantedPods(t, spec, parent, ctx, other);
  }

  lemma PrefixesApart(t: Tenant, a: Svc, b: Svc, path: string)
    requires WantedRule(t, a).pathPrefix <= path && WantedRule(t, b).pathPrefix <= path
    ensures a == b
  {
    PrefixLetters(t, a);
    PrefixLetters(t, b);
  }

  lemma PrefixLetters(t: Tenant, svc: Svc)
    ensures var p := WantedRule(t, svc).pathPrefix;
      |p| >= 4 && p[1] == SvcName(svc)[0] && p[3] == SvcName(svc)[2]
  {
  }

  /** Route closure, for every tenant. There are five rules, one for each service, in order. The backend of a
      rule is that service and no other object of the tenant, on a port that it has ... */
  lemma RouteBackends(t: Tenant, spec: Spec, parent: Parent, ctx: Context, i: nat)
    requires NamespaceName(t) != t.platform && i < 5
    ensures |WantedRoute(t, parent).rules| == 5
    ensures var rule, svc := WantedRoute(t, parent).rules[i], SERVICES[i];
      && (forall x :: BackendKey(rule) == KeyOf(t, x) <==> x == Child(TService(svc)))
      && (exists p :: p in WantedPorts(svc) && p.port == rule.port && p.targetPort == WantedDeployment(t, spec, parent, ctx, svc).containerPort)
  {
    RulesAt(t, 5, i);
    var svc := SERVICES[i];
    forall x ensures BackendKey(WantedRule(t, svc)) == KeyOf(t, x) <==> x == Child(TService(svc)) { BackendIsService(t, svc, x); }
    RulePort(t, spec, parent, ctx, svc);
  }

  /** ... and no request path matches two of them. The selector of the service matches the pods of one
      deployment only: `SelectorMatchesOne`. */
  lemma RoutePathsApart(t: Tenant, parent: Parent, i: nat, j: nat, path: string)
    requires i < 5 && j < 5 && |WantedRoute(t, parent).rules| == 5
    requires PathMatches(WantedRoute(t, parent).rules[i].pathPrefix, path) && PathMatches(WantedRoute(t, parent).rules[j].pathPrefix, path)
    ensures i == j
  {
    RulesAt(t, 5, i);
    RulesAt(t, 5, j);
    PrefixesApart(t, SERVICES[i], SERVICES[j], path);
    assert Index(SERVICES[i]) == i && Index(SERVICES[j]) == j;
  }

  lemma RulePort(t: Tenant, spec: Spec, parent: Parent, ctx: Context, svc: Svc)
    ensures exists p :: p in WantedPorts(svc) && p.port == WantedRule(t, svc).port
              && p.targetPort == WantedDeployment(t, spec, parent, ctx, svc).containerPort
  {
    WantedParts(t, spec, parent, ctx, svc);
    var p := Port("http", SvcPort(svc), SvcPort(svc));
    assert p in WantedPorts(svc);
  }

  lemma RulePath(t: Tenant, svc: Svc)
    ensures WantedRule(t, svc).pathPrefix == PathOf(svc)
  {
    match svc
    case Auth => assert "/" + "auth" + "/v1" == "/auth/v1";
    case Rest => assert "/" + "rest" + "/v1" == "/rest/v1";
    case Realtime => assert "/" + "realtime" + "/v1" == "/realtime/v1";
    case Storage => assert "/" + "storage" + "/v1" == "/storage/v1";
    case Functions => assert "/" + "functions" + "/v1" == "/functions/v1";
  }

  lemma RulesApart(t: Tenant, route: RouteSpec)
    requires exists parent :: route == WantedRoute(t, parent)
    ensures |route.rules| == 5 && Apart(route.rules)
  {
    var parent :| route == WantedRoute(t, parent);
    RulesLength(t, 5);
    forall a, b, path | 0 <= a < 5 && 0 <= b < 5 && BothMatch(route.rules[a], route.rules[b], path) ensures a == b
    {
      RoutePathsApart(t, parent, a, b, path);
    }
  }

  lemma WantedRouted(t: Tenant, parent: Parent, o: Obj)
    requires o.RouteObj? && o.route == WantedRoute(t, parent)
    ensures Routed(t, parent.baseDomain, o)
  {
    RulesApart(t, o.route);
    forall svc ensures HasRule(t, o.route.rules, svc) {
      RulesAt(t, 5, Index(svc));
      RulePath(t, svc);
      assert WantedRules(t, 5)[Index(svc)] == WantedRule(t, svc);
      assert Forwards(t, WantedRule(t, svc), svc);
    }
  }

  lemma WantedServing(t: Tenant, svc: Svc, o: Obj)
    requires o.ServiceObj? && o.ports == WantedPorts(svc) && o.selector == TenantSelector(t, svc)
    ensures Serving(t, svc, o)
  {
    LabelKeysDiffer();
  }

  // ---------------------------------------------------------------- watch mapping

  /** What the watch handler reads of each listed tenant. */
  datatype Listed = Listed(tenantId: string, namespace: string, name: string)

  function Label(labels: Labels, k: string): string { if k in labels then labels[k] else "" }

  ghost function FirstWith(list: seq<Listed>, id: string): Option<Listed> {
    if |list| == 0 then None else if list[0].tenantId == id then Some(list[0]) else FirstWith(list[1..], id)
  }

  ghost function MappedTo(id: string, listed: Option<seq<Listed>>): seq<Listed> {
    if id == "" || listed.None? || FirstWith(listed.value, id).None? then [] else [FirstWith(listed.value, id).value]
  }

  /** Maps a watched object to the tenant to reconcile; a failing list call maps it to none. */
  method MapByTenantLabel(labels: Labels, listed: Option<seq<Listed>>) returns (requests: seq<Listed>)
    ensures requests == MappedTo(Label(labels, LABEL_TENANT), listed)
  {
    var tenantID := Label(labels, LABEL_TENANT);
    if tenantID == "" || listed.None? { return []; }
    var list := listed.value;
    for i := 0 to |list|
      invariant FirstWith(list, tenantID) == FirstWith(list[i..], tenantID)
    {
      assert list[i..][0] == list[i] && list[i..][1..] == list[i + 1..];
      if list[i].tenantId == tenantID { return [list[i]]; }
    }
    return [];
  }

  ghost predicate UniqueIds(list: seq<Listed>) {
    forall i, j :: 0 <= i < j < |list| ==> list[i].tenantId != list[j].tenantId
  }

  ghost predicate NoRepeats(list: seq<Listed>) {
    forall i, j :: 0 <= i < j < |list| ==> list[i] != list[j]
  }

  lemma {:induction false} FirstIsEarliest(list: seq<Listed>, i: nat)
    requires i < |list| && forall j :: 0 <= j < i ==> list[j].tenantId != list[i].tenantId
    ensures FirstWith(list, list[i].tenantId) == Some(list[i])
    decreases |list|
  {
    if i > 0 {
      assert forall j :: 0 <= j < i - 1 ==> list[1..][j] == list[j + 1];
      FirstIsEarliest(list[1..], i - 1);
    }
  }

  /** The label finds every listed tenant, whatever the order of the list, exactly when tenant ids are unique. */
  lemma MappingInvertsLabelling(list: seq<Listed>)
    requires NoRepeats(list)
    ensures (forall i :: 0 <= i < |list| ==> FirstWith(list, list[i].tenantId) == Some(list[i])) <==> UniqueIds(list)
  {
    if UniqueIds(list) {
      forall i | 0 <= i < |list| ensures FirstWith(list, list[i].tenantId) == Some(list[i]) { FirstIsEarliest(list, i); }
    } else {
      // two entries with one id are both mapped to the same entry
      var i, j :| 0 <= i < j < |list| && list[i].tenantId == list[j].tenantId;
      assert list[i] != list[j];
    }
  }

  function LabelsOf(o: Obj): Labels {
    match o
    case ClaimObj(_) => map[]
    case ParentObj(_) => map[]
    case _ => o.labels
  }

  /** Every object that a pass creates or brings up to date carries its tenant's id. */
  lemma BuiltIsLabelled(t: Tenant, spec: Spec, parent: Parent, ctx: Context, data: map<string, string>, was: Obj, x: Target)
    ensures Label(LabelsOf(Desired(t, spec, parent, ctx, data, x)), LABEL_TENANT) == t.id
    ensures Mended(x) && Label(LabelsOf(was), LABEL_TENANT) == t.id ==>
              Label(LabelsOf(Patched(was, Mending(t, spec, parent, ctx, x))), LABEL_TENANT) == t.id
  {
  }

  /** With unique ids, a built object maps back to its own tenant and to no other. */
  lemma BuiltMapsBack(t: Tenant, spec: Spec, parent: Parent, ctx: Context, data: map<string, string>, x: Target, list: seq<Listed>, i: nat)
    requires UniqueIds(list) && i < |list| && list[i] == Listed(t.id, t.platform, t.cr)
    requires t.id != ""
    ensures MappedTo(Label(LabelsOf(Desired(t, spec, parent, ctx, data, x)), LABEL_TENANT), Some(list)) == [Listed(t.id, t.platform, t.cr)]
  {
    BuiltIsLabelled(t, spec, parent, ctx, data, Desired(t, spec, parent, ctx, data, x), x);
    FirstIsEarliest(list, i);
  }
}
