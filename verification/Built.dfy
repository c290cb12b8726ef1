/** What the objects of a tenant contain in every state of every run, and what that means across objects and
    across tenants: services reach the pods of their own deployment, routes reach the tenant's own services
    under host names of their own, and everything speaks of one database. */
module Built {
  import opened Options
  import opened Objects
  import opened Tenants
  import opened Machine
  import opened Safety
  import opened Orders
  import opened Leftovers
  import opened Runs
  import opened Routing
  import Dsn
  import opened Contents

  // ---------------------------------------------------------------- what never changes about an object

  /** The parts of an object that are the same in whatever pass it was written. */
  ghost predicate Ours(t: Tenant, x: Target, o: Obj) {
    match x
    case TPolicy => o.PolicyObj? && o.allowedFrom == t.platform
    case TDatabase => o.DatabaseObj? && o.dbName == t.id && o.cluster == ClusterName(t)
    case TJob => o.JobObj? && JobOurs(t, o.job)
    case TDeploy(svc) => o.DeploymentObj? && DeploymentOurs(t, svc, o.deployment)
    case TService(svc) => o.ServiceObj? && o.ports == WantedPorts(svc) && o.selector == TenantSelector(t, svc)
    case TRoute => o.RouteObj? && exists parent :: o.route == WantedRoute(t, parent)
    case _ => true
  }

  ghost predicate JobOurs(t: Tenant, j: JobSpec) {
    j.host == DatabaseHost(t) && j.port == "5432" && j.database == t.id && j.image != ""
  }

  ghost predicate DeploymentOurs(t: Tenant, svc: Svc, d: DeploymentSpec) {
    d.podLabels == PodLabels(t, svc) && d.selector == TenantSelector(t, svc) && d.containerPort == SvcPort(svc)
  }

  ghost predicate AllOurs(t: Tenant, h: Home) {
    forall x: Target :: Child(x) in h ==> Ours(t, x, h[Child(x)])
  }

  lemma DesiredOurs(t: Tenant, l: Local, x: Target)
    requires l.Pass?
    ensures Ours(t, x, DesiredBy(t, l, x))
  {
    if x.TRoute? { assert DesiredBy(t, l, x).route == WantedRoute(t, l.parent); }
  }

  /** Bringing an object up to date makes it ours, whatever was there of its kind. */
  lemma MendedOurs(t: Tenant, spec: Spec, parent: Parent, ctx: Context, x: Target, o: Obj)
    requires Mended(x) && Fits(Child(x), o)
    ensures Ours(t, x, Patched(o, Mending(t, spec, parent, ctx, x)))
  {
    if x.TRoute? { assert Patched(o, Mending(t, spec, parent, ctx, x)).route == WantedRoute(t, parent); }
  }

  lemma OursPut(t: Tenant, h: Home, x: Target, o: Obj)
    requires AllOurs(t, h) && Ours(t, x, o)
    ensures AllOurs(t, h[Child(x) := o])
  {
  }

  lemma OursLess(t: Tenant, h: Home, s: Slot)
    requires AllOurs(t, h)
    ensures AllOurs(t, h - {s})
  {
  }

  lemma OursSame(t: Tenant, h: Home, h': Home)
    requires AllOurs(t, h) && SameChildren(h, h')
    ensures AllOurs(t, h')
  {
    forall x: Target | Child(x) in h' ensures Ours(t, x, h'[Child(x)]) { SameStands(h, h', x); }
  }

  // ---------------------------------------------------------------- every call and every event keeps it

  lemma EnsureOurs(t: Tenant, h: Home, l: Local, k: Tick)
    requires Orderly(h, l) && AllOurs(t, h) && Running(l) && l.pc.Ensure?
    ensures var w := Step(t, h, l, k); AllOurs(t, Put(h, w.slot, w.obj))
  {
    var x := l.pc.target;
    if l.pc.act.Look? { LookStep(t, h, l, k); }
    else if l.pc.act.Add? {
      AddStep(t, h, l, k);
      DesiredOurs(t, l, x);
      OursPut(t, h, x, DesiredBy(t, l, x));
    } else {
      assert l.pc == Ensure(x, Fix);
      FixStep(t, h, l, k);
      if Child(x) in h {
        assert Fits(Child(x), h[Child(x)]);
        MendedOurs(t, l.cr.spec, l.parent, ContextFor(t, l), x, h[Child(x)]);
        OursPut(t, h, x, Patched(h[Child(x)], Mending(t, l.cr.spec, l.parent, ContextFor(t, l), x)));
      }
    }
  }

  lemma QuiesceOurs(t: Tenant, h: Home, l: Local, k: Tick)
    requires Typed(h) && AllOurs(t, h) && Running(l) && l.pc.Quiesce?
    ensures var w := Step(t, h, l, k); AllOurs(t, Put(h, w.slot, w.obj))
  {
    var x := TDeploy(l.pc.svc);
    QuiesceStep(t, h, l, k);
    if Child(x) in h { OursPut(t, h, x, Patched(h[Child(x)], Scale(0))); }
  }

  lemma DropOurs(t: Tenant, h: Home, l: Local, k: Tick)
    requires Typed(h) && AllOurs(t, h) && Running(l) && l.pc.Drop?
    ensures var w := Step(t, h, l, k); AllOurs(t, Put(h, w.slot, w.obj))
  {
    DropStep(t, h, l, k);
    OursLess(t, h, Child(l.pc.target));
  }

  lemma StepKeepsOurs(t: Tenant, h: Home, l: Local, k: Tick)
    requires Orderly(h, l) && AllOurs(t, h) && Running(l)
    ensures var w := Step(t, h, l, k); AllOurs(t, Put(h, w.slot, w.obj))
  {
    if l.pc.Ensure? { EnsureOurs(t, h, l, k); }
    else if l.pc.Check? { LookStep(t, h, l, k); }
    else if l.pc.Quiesce? { QuiesceOurs(t, h, l, k); }
    else if l.pc.Unroute? { UnrouteStep(t, h, l, k); OursLess(t, h, Child(TRoute)); }
    else if l.pc.Drop? { DropOurs(t, h, l, k); }
    else {
      ClaimSet(t, h, l, k);
      var w := Step(t, h, l, k);
      OursSame(t, h, Put(h, w.slot, w.obj));
    }
  }

  lemma OutsideKeepsOurs(t: Tenant, h: Home, l: Local, e: Happening)
    requires Typed(h) && AllOurs(t, h) && !e.PassStep?
    ensures var w := Outside(t, h, l, e); AllOurs(t, Put(h, w.slot, w.obj))
  {
    var w := Outside(t, h, l, e);
    PutBack(h, w.slot);
    OursLess(t, h, w.slot);
    if w.slot.Child? && w.slot in h && w.obj.Some? {
      assert Ours(t, w.slot.target, h[w.slot]);
      OursPut(t, h, w.slot.target, w.obj.value);
    }
  }

  /** Whatever happens to a tenant, its objects stay what the operator made of them. */
  lemma HappeningKeepsOurs(t: Tenant, h: Home, l: Local, e: Happening)
    requires Orderly(h, l) && AllOurs(t, h)
    ensures var w := Happens(t, h, l, e); AllOurs(t, Put(h, w.slot, w.obj))
  {
    if e.PassStep? {
      if Running(l) { StepKeepsOurs(t, h, l, e.tick); } else { PutBack(h, Claim); }
    } else { OutsideKeepsOurs(t, h, l, e); }
  }

  // ---------------------------------------------------------------- every run

  ghost predicate EveryOurs(ts: seq<Tenant>, y: System) {
    Ordered(ts, y) && forall i :: 0 <= i < |ts| ==> AllOurs(ts[i], HomeOf(ts[i], y.store))
  }

  lemma NextOurs(ts: seq<Tenant>, y: System, e: Event)
    requires Family(ts) && EveryOurs(ts, y)
    ensures EveryOurs(ts, Next(ts, y, e))
  {
    var z := Next(ts, y, e);
    NextOrdered(ts, y, e);
    forall i: nat | i < |ts| ensures AllOurs(ts[i], HomeOf(ts[i], z.store)) { TenantOurs(ts, y, e, i); }
  }

  lemma TenantOurs(ts: seq<Tenant>, y: System, e: Event, i: nat)
    requires Family(ts) && EveryOurs(ts, y) && i < |ts|
    ensures AllOurs(ts[i], HomeOf(ts[i], Next(ts, y, e).store))
  {
    match e
    case OfTenant(j, what) =>
      if j == i { OwnOurs(ts, y, i, what); }
      else if j < |ts| { OthersUntouched(ts, y, j, i, what); }
    case ParentChanges(p) => ParentOurs(ts, y, p, i);
  }

  lemma OwnOurs(ts: seq<Tenant>, y: System, i: nat, what: Happening)
    requires Family(ts) && EveryOurs(ts, y) && i < |ts|
    ensures AllOurs(ts[i], HomeOf(ts[i], Next(ts, y, OfTenant(i, what)).store))
  {
    var t, h, l := ts[i], HomeOf(ts[i], y.store), y.locals[i];
    assert TenantOrderly(t, y, l);
    var w := Happens(t, h, l, what);
    OwnView(t, y.store, w.slot, w.obj);
    HappeningKeepsOurs(t, h, l, what);
  }

  lemma ParentOurs(ts: seq<Tenant>, y: System, p: Option<Parent>, i: nat)
    requires Family(ts) && EveryOurs(ts, y) && i < |ts|
    ensures AllOurs(ts[i], HomeOf(ts[i], Next(ts, y, ParentChanges(p)).store))
  {
    var t, h, l := ts[i], HomeOf(ts[i], y.store), y.locals[i];
    assert TenantOrderly(t, y, l);
    ParentView(ts, y, p, i);
    ParentIrrelevant(t, h, l, p);
    OursSame(t, h, Put(h, ParentSlot, ParentNow(p)));
  }

  lemma {:induction false} RunOurs(ts: seq<Tenant>, y: System, es: seq<Event>)
    requires Family(ts) && EveryOurs(ts, y)
    ensures EveryOurs(ts, Run(ts, y, es))
    decreases |es|
  {
    if |es| > 0 {
      NextOurs(ts, y, es[0]);
      RunOurs(ts, Next(ts, y, es[0]), es[1..]);
    }
  }

  lemma OursInStore(ts: seq<Tenant>, y: System, es: seq<Event>, i: nat, x: Target)
    requires Family(ts) && Fresh(ts, y) && i < |ts| && Stands(ts[i], Run(ts, y, es).store, x)
    ensures Ours(ts[i], x, Run(ts, y, es).store[KeyOf(ts[i], Child(x))])
  {
    FreshIsOrdered(ts, y);
    RunOurs(ts, y, es);
    HomeAt(ts[i], Run(ts, y, es).store, Child(x));
  }

  // ---------------------------------------------------------------- services and pods

  lemma PodTenant(t: Tenant, svc: Svc)
    ensures LABEL_TENANT in PodLabels(t, svc) && PodLabels(t, svc)[LABEL_TENANT] == t.id
    ensures LABEL_TENANT in TenantSelector(t, svc) && TenantSelector(t, svc)[LABEL_TENANT] == t.id
  {
    var sel, l := TenantSelector(t, svc), PartLabels(t, SvcName(svc));
    assert [sel, l][..1] == [sel] && [sel][..0] == [];
    assert Merged([sel]) == map[] + sel && Merged([sel, l]) == sel + l;
    assert LABEL_TENANT in l && l[LABEL_TENANT] == t.id;
  }

  lemma SelectsExactly(a: Tenant, svc: Svc, b: Tenant, other: Svc)
    requires a == b || a.id != b.id
    ensures Selects(TenantSelector(a, svc), PodLabels(b, other)) <==> a == b && svc == other
  {
    if a == b { SelectorMatchesPods(a, svc, other); } else { OtherTenantsPods(a, svc, b, other); }
  }

  lemma OtherTenantsPods(a: Tenant, svc: Svc, b: Tenant, other: Svc)
    requires a.id != b.id
    ensures !Selects(TenantSelector(a, svc), PodLabels(b, other))
  {
    PodTenant(a, svc);
    PodTenant(b, other);
  }

  /** The service selects the pods of the deployment exactly if it is the deployment's own, and then its port
      is the one on which those pods listen. */
  ghost predicate Reaches(service: Obj, workload: Obj, own: bool) {
    && service.ServiceObj? && workload.DeploymentObj?
    && (Selects(service.selector, workload.deployment.podLabels) <==> own)
    && Selects(workload.deployment.selector, workload.deployment.podLabels)
    && (own ==> |service.ports| == 1 && service.ports[0].targetPort == workload.deployment.containerPort)
  }

  lemma OursReaches(a: Tenant, svc: Svc, b: Tenant, other: Svc, service: Obj, workload: Obj)
    requires Ours(a, TService(svc), service) && Ours(b, TDeploy(other), workload) && (a == b || a.id != b.id)
    ensures Reaches(service, workload, a == b && svc == other)
  {
    SelectsExactly(a, svc, b, other);
    SelectsExactly(b, other, b, other);
  }

  /** In every state of every run, a service selects the pods of its own deployment, and no pods of any other
      deployment of any tenant. */
  lemma ServicesOfEveryRun(ts: seq<Tenant>, y: System, es: seq<Event>, i: nat, svc: Svc, j: nat, other: Svc)
    requires Family(ts) && Fresh(ts, y) && i < |ts| && j < |ts|
    requires var s := Run(ts, y, es).store; Stands(ts[i], s, TService(svc)) && Stands(ts[j], s, TDeploy(other))
    ensures var s := Run(ts, y, es).store;
            Reaches(s[KeyOf(ts[i], Child(TService(svc)))], s[KeyOf(ts[j], Child(TDeploy(other)))], i == j && svc == other)
  {
    var s := Run(ts, y, es).store;
    OursInStore(ts, y, es, i, TService(svc));
    OursInStore(ts, y, es, j, TDeploy(other));
    if i != j { assert Siblings(ts[i], ts[j]); }
    OursReaches(ts[i], svc, ts[j], other, s[KeyOf(ts[i], Child(TService(svc)))], s[KeyOf(ts[j], Child(TDeploy(other)))]);
  }

  // ---------------------------------------------------------------- routes

  /** The rule for requests under a path leads to the tenant's own service, on a port that it has. */
  ghost predicate LeadsTo(t: Tenant, s: Store, rule: Rule, svc: Svc) {
    && rule.pathPrefix == PathOf(svc)
    && (forall x :: BackendKey(rule) == KeyOf(t, x) <==> x == Child(TService(svc)))
    && (Stands(t, s, TService(svc)) ==>
          var service := s[BackendKey(rule)];
          service.ServiceObj? && exists p :: p in service.ports && p.port == rule.port)
  }

  lemma RuleLeads(t: Tenant, s: Store, svc: Svc)
    requires NamespaceName(t) != t.platform && (Stands(t, s, TService(svc)) ==> Ours(t, TService(svc), s[KeyOf(t, Child(TService(svc)))]))
    ensures LeadsTo(t, s, WantedRule(t, svc), svc)
  {
    RulePath(t, svc);
    forall x ensures BackendKey(WantedRule(t, svc)) == KeyOf(t, x) <==> x == Child(TService(svc)) { BackendIsService(t, svc, x); }
    var p := Port("http", SvcPort(svc), SvcPort(svc));
    assert p in WantedPorts(svc);
  }

  /** In every state of every run, a route has one rule for each of the five services, which leads to that
      service of its own tenant; and no request path falls under two of them. */
  lemma RoutesOfEveryRun(ts: seq<Tenant>, y: System, es: seq<Event>, i: nat, svc: Svc)
    requires Family(ts) && Fresh(ts, y) && i < |ts| && Stands(ts[i], Run(ts, y, es).store, TRoute)
    ensures var s := Run(ts, y, es).store; var o := s[KeyOf(ts[i], Child(TRoute))];
      && o.RouteObj? && |o.route.rules| == 5
      && (exists rule :: rule in o.route.rules && LeadsTo(ts[i], s, rule, svc))
      && Apart(o.route.rules)
  {
    var t, s := ts[i], Run(ts, y, es).store;
    OursInStore(ts, y, es, i, TRoute);
    if Stands(t, s, TService(svc)) { OursInStore(ts, y, es, i, TService(svc)); }
    RuleLeads(t, s, svc);
    RulesAt(t, 5, Index(svc));
    assert WantedRules(t, 5)[Index(svc)] == WantedRule(t, svc);
    RulesApart(t, s[KeyOf(t, Child(TRoute))].route);
  }

  // ---------------------------------------------------------------- host names

  predicate Dotless(s: string) { forall c :: c in s ==> c != '.' }

  lemma ValidIsDotless(id: string)
    requires ValidId(id)
    ensures Dotless(id)
  {
  }

  lemma NoDotWithin(a: string, b: string, y: string)
    requires Dotless(b) && |a| < |b + "." + y|
    ensures |a| < |b| ==> (b + "." + y)[|a|] != '.'
  {
    if |a| < |b| { assert (b + "." + y)[|a|] == b[|a|] && b[|a|] in b; }
  }

  /** Up to the first dot. */
  lemma HostsDiffer(a: string, x: string, b: string, y: string)
    requires Dotless(a) && Dotless(b) && a + "." + x == b + "." + y
    ensures a == b
  {
    NoDotWithin(a, b, y);
    NoDotWithin(b, a, x);
    var h, g := a + "." + x, b + "." + y;
    assert h[|a|] == '.' && g[|b|] == '.';
    assert h[..|a|] == a && g[..|b|] == b;
  }

  /** In every state of every run, whatever base domains the parent has had, no two tenants with admissible ids
      claim the same host name; so no request can reach the workloads of two of them. */
  lemma HostsOfEveryRun(ts: seq<Tenant>, y: System, es: seq<Event>, i: nat, j: nat)
    requires Family(ts) && Fresh(ts, y) && i < |ts| && j < |ts| && i != j && ValidId(ts[i].id) && ValidId(ts[j].id)
    requires var s := Run(ts, y, es).store; Stands(ts[i], s, TRoute) && Stands(ts[j], s, TRoute)
    ensures var s := Run(ts, y, es).store;
      var a, b := s[KeyOf(ts[i], Child(TRoute))], s[KeyOf(ts[j], Child(TRoute))];
      a.RouteObj? && b.RouteObj? && a.route.hostname != b.route.hostname
  {
    OursInStore(ts, y, es, i, TRoute);
    OursInStore(ts, y, es, j, TRoute);
    var s := Run(ts, y, es).store;
    var a, b := s[KeyOf(ts[i], Child(TRoute))], s[KeyOf(ts[j], Child(TRoute))];
    var p :| a.route == WantedRoute(ts[i], p);
    var q :| b.route == WantedRoute(ts[j], q);
    assert Siblings(ts[i], ts[j]);
    EndpointsDiffer(ts[i], p, ts[j], q);
  }

  lemma EndpointsDiffer(a: Tenant, p: Parent, b: Tenant, q: Parent)
    requires ValidId(a.id) && ValidId(b.id) && a.id != b.id
    ensures Endpoint(a, p) != Endpoint(b, q)
  {
    ValidIsDotless(a.id);
    ValidIsDotless(b.id);
    if Endpoint(a, p) == Endpoint(b, q) { HostsDiffer(a.id, p.baseDomain, b.id, q.baseDomain); }
  }

  /** For one parent, ids of any shape have host names of their own. */
  lemma HostsInjective(a: Tenant, b: Tenant, parent: Parent)
    ensures WantedRoute(a, parent).hostname == WantedRoute(b, parent).hostname <==> a.id == b.id
  {
    if Endpoint(a, parent) == Endpoint(b, parent) {
      assert a.id + ("." + parent.baseDomain) == a.id + "." + parent.baseDomain;
      assert b.id + ("." + parent.baseDomain) == b.id + "." + parent.baseDomain;
      SuffixCancels(a.id, b.id, "." + parent.baseDomain);
    }
  }

  /** In every state of every run, the gateway that a route hangs on is in the one namespace that the tenant's
      network policy lets in. */
  lemma GatewayOfEveryRun(ts: seq<Tenant>, y: System, es: seq<Event>, i: nat)
    requires Family(ts) && Fresh(ts, y) && i < |ts|
    requires var s := Run(ts, y, es).store; Stands(ts[i], s, TRoute) && Stands(ts[i], s, TPolicy)
    ensures var s := Run(ts, y, es).store;
      var route, policy := s[KeyOf(ts[i], Child(TRoute))], s[KeyOf(ts[i], Child(TPolicy))];
      && route.RouteObj? && policy.PolicyObj? && route.route.gatewayNamespace == policy.allowedFrom == KeyOf(ts[i], ParentSlot).namespace
      && route.route.gateway == KeyOf(ts[i], ParentSlot).name + "-gateway"
  {
    OursInStore(ts, y, es, i, TRoute);
    OursInStore(ts, y, es, i, TPolicy);
  }

  // ---------------------------------------------------------------- one database

  /** In every state of every run, the init job works on the database that the database object declares, at the
      address for writing of the cluster that this object belongs to. */
  lemma DatabaseOfEveryRun(ts: seq<Tenant>, y: System, es: seq<Event>, i: nat)
    requires Family(ts) && Fresh(ts, y) && i < |ts|
    requires var s := Run(ts, y, es).store; Stands(ts[i], s, TDatabase) && Stands(ts[i], s, TJob)
    ensures var s, t := Run(ts, y, es).store, ts[i];
      var db, job := s[KeyOf(t, Child(TDatabase))], s[KeyOf(t, Child(TJob))];
      && db.DatabaseObj? && job.JobObj? && job.job.database == db.dbName == t.id && job.job.port == "5432"
      && job.job.host == db.cluster + "-rw." + KeyOf(t, Child(TDatabase)).namespace + ".svc.cluster.local"
      && job.job.image != ""
  {
    OursInStore(ts, y, es, i, TDatabase);
    OursInStore(ts, y, es, i, TJob);
    HostOfCluster(ts[i]);
  }

  lemma HostOfCluster(t: Tenant)
    ensures DatabaseHost(t) == ClusterName(t) + "-rw." + t.platform + ".svc.cluster.local"
  {
    assert "-db-rw." == "-db" + "-rw.";
    assert t.parent + "-db-rw." == t.parent + "-db" + "-rw.";
  }

  /** The variable that holds the connection string of a service. */
  function UrlVariable(svc: Svc): string {
    match svc
    case Auth => "GOTRUE_DB_DATABASE_URL"
    case Rest => "PGRST_DB_URI"
    case Realtime => ""
    case Storage => "DATABASE_URL"
    case Functions => "SUPABASE_DB_URL"
  }

  /** In every state of every careful run, the connection string of a service leads to the very database that
      the init job has worked on. */
  lemma UrlsOfEveryRun(ts: seq<Tenant>, y: System, es: seq<Event>, i: nat, svc: Svc)
    requires Family(ts) && Fresh(ts, y) && Careful(ts, y, es, false) && i < |ts| && Nameable(ts[i]) && !svc.Realtime?
    requires var s, t := Run(ts, y, es).store, ts[i];
      && Stands(t, s, TJwt) && Stands(t, s, TCreds) && Stands(t, s, TJob) && Stands(t, s, TDeploy(svc))
      && Dsn.Bytes(KeysIn(SecretData(s[KeyOf(t, Child(TJwt))]), SecretData(s[KeyOf(t, Child(TCreds))])).password)
    ensures var s, t := Run(ts, y, es).store, ts[i];
      var job, d := s[KeyOf(t, Child(TJob))], s[KeyOf(t, Child(TDeploy(svc)))];
      && job.JobObj? && d.DeploymentObj? && UrlVariable(svc) in d.deployment.env
      && var uri := Dsn.ParseUri(d.deployment.env[UrlVariable(svc)]);
         uri.Some? && uri.value.host == job.job.host && uri.value.port == job.job.port && uri.value.path == "/" + job.job.database
  {
    CredentialsOfEveryRun(ts, y, es, i);
    OursInStore(ts, y, es, i, TJob);
    var s, t := Run(ts, y, es).store, ts[i];
    var jwt, creds := SecretData(s[KeyOf(t, Child(TJwt))]), SecretData(s[KeyOf(t, Child(TCreds))]);
    assert CarriesKeys(t, svc, s[KeyOf(t, Child(TDeploy(svc)))].deployment, jwt, creds);
    UrlLeadsHome(t, svc, s[KeyOf(t, Child(TDeploy(svc)))].deployment.env, KeysIn(jwt, creds));
  }

  lemma UrlLeadsHome(t: Tenant, svc: Svc, env: map<string, string>, k: Keys)
    requires Wired(t, svc, env, k) && !svc.Realtime? && Nameable(t) && Dsn.Bytes(k.password)
    ensures UrlVariable(svc) in env
    ensures var uri := Dsn.ParseUri(env[UrlVariable(svc)]);
            uri.Some? && uri.value.host == DatabaseHost(t) && uri.value.port == "5432" && uri.value.path == "/" + t.id
  {
  }
}
