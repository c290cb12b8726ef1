/** The platform side: five optional services, each a chain of config map, deployment and service, behind
    three critical components, and the phase that is derived from them. */
module Platform {
  import opened Options
  import Objects
  import Machine

  // ---------------------------------------------------------------- objects

  datatype Service = Imgproxy | Analytics | Vector | Supavisor | Studio

  datatype Part = Config | Workload | Endpoint

  datatype Spot = Spot(service: Service, part: Part)

  datatype Thing =
    | ConfigMap(labels: Objects.Labels, data: map<string, string>)
    | Deployment(labels: Objects.Labels, spec: Objects.DeploymentSpec, ready: int)
    | Svc(labels: Objects.Labels, ports: seq<Objects.Port>, selector: Objects.Labels, clusterIP: string)

  type Cluster = map<Spot, Thing>

  /** Only one builder provides a config map. */
  predicate HasConfig(s: Service) { s.Vector? }

  /** What a builder makes of the platform's specification. */
  datatype Builder = Builder(enabled: bool, config: Thing, deployment: Thing, service: Thing)

  predicate WellBuilt(b: Builder) {
    b.config.ConfigMap? && b.deployment.Deployment? && b.service.Svc?
  }

  /** A service only with its deployment, a deployment only with its config map, where there is one. */
  ghost predicate Chained(c: Cluster) {
    && (forall s :: Spot(s, Endpoint) in c ==> Spot(s, Workload) in c)
    && (forall s :: Spot(s, Workload) in c && HasConfig(s) ==> Spot(s, Config) in c)
  }

  ghost predicate Shaped(spot: Spot, thing: Thing) {
    match spot.part
    case Config => thing.ConfigMap?
    case Workload => thing.Deployment?
    case Endpoint => thing.Svc?
  }

  ghost predicate Typed(c: Cluster) {
    forall s :: s in c ==> Shaped(s, c[s])
  }

  /** What has to exist before an object may be created. */
  ghost predicate Prepared(c: Cluster, spot: Spot) {
    match spot.part
    case Config => true
    case Workload => HasConfig(spot.service) ==> Spot(spot.service, Config) in c
    case Endpoint => Spot(spot.service, Workload) in c
  }

  // ---------------------------------------------------------------- the API server

  /** The part of an object that the operator writes; others own ready counts and addresses. */
  function Written(thing: Thing): Thing {
    match thing
    case ConfigMap(_, _) => thing
    case Deployment(l, spec, _) => Deployment(l, spec, 0)
    case Svc(l, ports, selector, _) => Svc(l, ports, selector, "")
  }

  /** Others delete nothing, create nothing, and leave alone what the operator writes. */
  ghost predicate Harmless(c: Cluster, d: Cluster) {
    && c.Keys == d.Keys && Typed(d)
    && (forall s :: s in c ==> Written(d[s]) == Written(c[s]))
  }

  datatype World = World(faults: nat -> Objects.Fault, others: nat -> Cluster -> Cluster)

  ghost predicate Gentle(w: World) {
    forall n: nat, c: Cluster {:trigger w.others(n)(c)} :: Typed(c) ==> Harmless(c, w.others(n)(c))
  }

  lemma HarmlessKeeps(c: Cluster, d: Cluster)
    requires Chained(c) && Harmless(c, d)
    ensures Chained(d) && Typed(d)
  {
    assert forall s :: s in c <==> s in d;
  }

  lemma CreateKeeps(c: Cluster, spot: Spot, thing: Thing)
    requires Chained(c) && Typed(c) && Prepared(c, spot) && Shaped(spot, thing)
    ensures Chained(c[spot := thing]) && Typed(c[spot := thing])
  {
  }

  lemma PatchKeeps(c: Cluster, spot: Spot, desired: Thing)
    requires Chained(c) && Typed(c) && spot in c && Shaped(spot, desired)
    ensures Chained(c[spot := Over(c[spot], desired)]) && Typed(c[spot := Over(c[spot], desired)])
  {
  }

  datatype Reply = Ok(thing: Thing) | NotFound | Failed

  /** The fields of a desired object written over those of the stored one. */
  function Over(stored: Thing, desired: Thing): Thing {
    match (stored, desired)
    case (ConfigMap(_, _), ConfigMap(l, d)) => ConfigMap(l, d)
    case (Deployment(_, _, ready), Deployment(l, spec, _)) => Deployment(l, spec, ready)
    case (Svc(_, _, _, ip), Svc(l, ports, selector, _)) => Svc(l, ports, selector, ip)
    case (_, _) => stored
  }

  class ApiServer {
    const world: World
    var cluster: Cluster
    var calls: nat
    ghost var history: seq<Cluster>

    /** One state for each call; every state so far has been chained. */
    ghost predicate Valid()
      reads this
    {
      && Gentle(world) && |history| == calls + 1 && history[calls] == cluster && Chained(cluster) && Typed(cluster)
      && (forall c :: c in history ==> Chained(c) && Typed(c))
    }

    constructor (world: World, cluster: Cluster)
      requires Gentle(world) && Chained(cluster) && Typed(cluster)
      ensures Valid() && this.world == world && this.cluster == cluster
    {
      this.world, this.cluster, this.calls, this.history := world, cluster, 0, [cluster];
    }

    method Get(spot: Spot) returns (r: Reply)
      requires Valid()
      modifies this
      ensures Valid() && old(history) < history && Harmless(old(cluster), cluster)
      ensures r.Ok? ==> spot in cluster && r.thing == cluster[spot]
      ensures r.NotFound? ==> spot !in cluster
      ensures calls == old(calls) + 1 && (r.Failed? <==> world.faults(old(calls)).Transient?)
    {
      var before := world.others(calls)(cluster);
      HarmlessKeeps(cluster, before);
      cluster := before;
      r := if world.faults(calls).Transient? then Failed else if spot in cluster then Ok(cluster[spot]) else NotFound;
      calls := calls + 1;
      history := history + [cluster];
    }

    method Create(spot: Spot, desired: Thing) returns (ok: bool)
      requires Valid() && Prepared(cluster, spot) && Shaped(spot, desired)
      modifies this
      ensures Valid() && old(history) < history && Kept(old(cluster), cluster, spot)
      ensures ok ==> InPlace(cluster, spot, desired)
      ensures calls == old(calls) + 1 && (spot !in old(cluster) ==> (ok <==> world.faults(old(calls)).NoFault?))
    {
      var before, fault := world.others(calls)(cluster), world.faults(calls);
      HarmlessKeeps(cluster, before);
      var effective := spot !in before && (fault.NoFault? || fault.applied);
      if effective { CreateKeeps(before, spot, desired); }
      cluster := if effective then before[spot := desired] else before;
      ok := fault.NoFault? && spot !in before;
      calls := calls + 1;
      history := history + [cluster];
    }

    method Patch(spot: Spot, desired: Thing) returns (ok: bool)
      requires Valid() && Shaped(spot, desired)
      modifies this
      ensures Valid() && old(history) < history && Kept(old(cluster), cluster, spot) && cluster.Keys == old(cluster.Keys)
      ensures ok ==> InPlace(cluster, spot, desired)
      ensures calls == old(calls) + 1 && (spot in old(cluster) ==> (ok <==> world.faults(old(calls)).NoFault?))
    {
      var before, fault := world.others(calls)(cluster), world.faults(calls);
      HarmlessKeeps(cluster, before);
      var effective := spot in before && (fault.NoFault? || fault.applied);
      if effective { PatchKeeps(before, spot, desired); }
      cluster := if effective then before[spot := Over(before[spot], desired)] else before;
      ok := fault.NoFault? && spot in before;
      calls := calls + 1;
      history := history + [cluster];
    }
  }

  /** Nothing is lost, and what is written elsewhere stays. */
  ghost predicate Kept(c: Cluster, d: Cluster, spot: Spot) {
    && c.Keys <= d.Keys && d.Keys <= c.Keys + {spot}
    && (forall s :: s in c && s != spot ==> Written(d[s]) == Written(c[s]))
  }

  /** The objects of all other services are the same ones, as they were written. */
  ghost predicate OthersKept(c: Cluster, d: Cluster, service: Service) {
    forall s: Spot :: s.service != service ==> (s in c <==> s in d) && (s in c ==> Written(d[s]) == Written(c[s]))
  }

  /** The object is there, as it is wanted. */
  ghost predicate InPlace(c: Cluster, spot: Spot, desired: Thing) {
    spot in c && Written(c[spot]) == Written(desired)
  }

  // ---------------------------------------------------------------- one service

  /** Between these two numbers of calls none failed. */
  ghost predicate Undisturbed(w: World, from: nat, to: nat) {
    forall n: nat :: from <= n < to ==> w.faults(n).NoFault?
  }

  /** The last of these calls failed, and none before it. */
  ghost predicate Broken(w: World, from: nat, to: nat) {
    from < to && Undisturbed(w, from, to - 1) && w.faults(to - 1).Transient?
  }

  /** The calls that putting a service in place takes: a read and a write for each of its objects. */
  function CallsOf(s: Service): nat { if HasConfig(s) then 6 else 4 }

  /** Everything that belongs to the service is there, as it is wanted. */
  ghost predicate AllInPlace(c: Cluster, s: Service, b: Builder) {
    && (HasConfig(s) ==> InPlace(c, Spot(s, Config), b.config))
    && InPlace(c, Spot(s, Workload), b.deployment) && InPlace(c, Spot(s, Endpoint), b.service)
  }

  class ServiceComponent {
    const api: ApiServer
    const service: Service
    const builder: Builder

    constructor (api: ApiServer, service: Service, builder: Builder)
      ensures this.api == api && this.service == service && this.builder == builder
    {
      this.api, this.service, this.builder := api, service, builder;
    }

    /** Creates the object if it is missing, and brings it up to date otherwise. */
    method Put(part: Part, desired: Thing) returns (err: bool)
      requires api.Valid() && Prepared(api.cluster, Spot(service, part)) && Shaped(Spot(service, part), desired)
      modifies api
      ensures api.Valid() && old(api.history) < api.history && Kept(old(api.cluster), api.cluster, Spot(service, part))
      ensures !err ==> InPlace(api.cluster, Spot(service, part), desired)
      ensures !err ==> api.calls == old(api.calls) + 2 && Undisturbed(api.world, old(api.calls), api.calls)
      ensures err ==> api.calls <= old(api.calls) + 2 && Broken(api.world, old(api.calls), api.calls)
    {
      var spot := Spot(service, part);
      var r := api.Get(spot);
      if r.Failed? { return true; }
      var ok;
      if r.NotFound? { ok := api.Create(spot, desired); } else { ok := api.Patch(spot, desired); }
      return !ok;
    }

    /** Config map, deployment, service, in this order; a failure stops the chain. A disabled service is left
        as it is, and no other service is touched. */
    method Reconcile() returns (err: bool)
      requires api.Valid() && WellBuilt(builder)
      modifies api
      ensures api.Valid() && old(api.history) <= api.history && old(api.cluster).Keys <= api.cluster.Keys
      ensures !builder.enabled ==> !err && api.cluster == old(api.cluster) && api.calls == old(api.calls)
      ensures OthersKept(old(api.cluster), api.cluster, service)
      ensures builder.enabled && !err ==> AllInPlace(api.cluster, service, builder)
      ensures builder.enabled && !err ==>
        api.calls == old(api.calls) + CallsOf(service) && Undisturbed(api.world, old(api.calls), api.calls)
      ensures err ==> api.calls <= old(api.calls) + CallsOf(service) && Broken(api.world, old(api.calls), api.calls)
    {
      if !builder.enabled { return false; }
      if HasConfig(service) {
        err := Put(Config, builder.config);
        if err { return; }
      }
      err := Put(Workload, builder.deployment);
      if err { return; }
      err := Put(Endpoint, builder.service);
    }

    method Healthcheck() returns (ready: bool, err: bool)
      requires api.Valid()
      modifies api
      ensures api.Valid() && old(api.history) <= api.history && old(api.cluster).Keys <= api.cluster.Keys && (err ==> !ready)
      ensures !builder.enabled ==> ready && api.cluster == old(api.cluster) && api.calls == old(api.calls)
      ensures builder.enabled ==> Harmless(old(api.cluster), api.cluster)
      ensures builder.enabled && !err ==> (ready <==> Staffed(api.cluster, service))
      ensures builder.enabled ==> api.calls == old(api.calls) + 1 && (err <==> api.world.faults(old(api.calls)).Transient?)
    {
      if !builder.enabled { return true, false; }
      var r := api.Get(Spot(service, Workload));
      if !r.Ok? { return false, r.Failed?; }
      var replicas := if r.thing.Deployment? then r.thing.spec.replicas else 1;
      return r.thing.Deployment? && r.thing.ready >= 1 && r.thing.ready == replicas, false;
    }
  }

  ghost predicate Staffed(c: Cluster, s: Service) {
    && Spot(s, Workload) in c && c[Spot(s, Workload)].Deployment?
    && c[Spot(s, Workload)].ready >= 1 && c[Spot(s, Workload)].ready == c[Spot(s, Workload)].spec.replicas
  }

  // ---------------------------------------------------------------- conditions and phase

  datatype Cond = DatabaseReady | BackupReady | GatewayReady | ImgproxyReady | AnalyticsReady | VectorReady | SupavisorReady | StudioReady

  /** The conditions in the order in which a pass records them; the first three are critical. */
  const ORDER: seq<Cond> := [DatabaseReady, BackupReady, GatewayReady, ImgproxyReady, AnalyticsReady, VectorReady, SupavisorReady, StudioReady]

  function Place(k: Cond): (i: nat)
    ensures i < 8 && ORDER[i] == k
  {
    match k
    case DatabaseReady => 0 case BackupReady => 1 case GatewayReady => 2 case ImgproxyReady => 3
    case AnalyticsReady => 4 case VectorReady => 5 case SupavisorReady => 6 case StudioReady => 7
  }

  lemma PlaceOf(i: nat)
    requires i < 8
    ensures Place(ORDER[i]) == i
  {
  }

  function ServiceAt(i: nat): Service
    requires 3 <= i < 8
  {
    if i == 3 then Imgproxy else if i == 4 then Analytics else if i == 5 then Vector else if i == 6 then Supavisor else Studio
  }

  /** How the reconciliation of one component can come out. */
  datatype Verdict = ReconcileError | Reconciling | HealthcheckError | Healthy | NotReady

  predicate IsError(v: Verdict) { v.ReconcileError? || v.HealthcheckError? }

  datatype Condition = Condition(holds: bool, reason: Verdict, observed: int)

  datatype Phase = Pending | Error | Ready | Degraded | Provisioning

  datatype Status = Status(phase: Phase, conditions: map<Cond, Condition>, databaseReady: bool, gatewayReady: bool, observed: int)

  datatype Supabase = Supabase(generation: int, builders: Service -> Builder, status: Status)

  function DerivePhase(hasError: bool, allReady: bool, dbReady: bool): Phase {
    if hasError && !dbReady then Error
    else if allReady then Ready
    else if dbReady && hasError then Degraded
    else Provisioning
  }

  predicate IsTrue(cs: map<Cond, Condition>, k: Cond) { k in cs && cs[k].holds }

  function ConditionOf(v: Verdict, generation: int): Condition { Condition(v.Healthy?, v, generation) }

  /** The conditions after the verdicts on the first components. */
  function Noted(cs: map<Cond, Condition>, vs: seq<Verdict>, generation: int): map<Cond, Condition>
    requires |vs| <= 8
  {
    if |vs| == 0 then cs
    else Noted(cs, vs[..|vs| - 1], generation)[ORDER[|vs| - 1] := ConditionOf(vs[|vs| - 1], generation)]
  }

  ghost predicate SomeError(vs: seq<Verdict>) { exists i :: 0 <= i < |vs| && IsError(vs[i]) }

  ghost predicate AllHealthy(vs: seq<Verdict>) { forall i :: 0 <= i < |vs| ==> vs[i].Healthy? }

  /** The components that a pass gets to: after an error among the critical ones, no others. */
  ghost predicate Attempted(vs: seq<Verdict>) {
    |vs| >= 3 && if SomeError(vs[..3]) then |vs| == 3 else |vs| == 8
  }

  ghost function PhaseOf(vs: seq<Verdict>): Phase
    requires Attempted(vs)
  {
    DerivePhase(SomeError(vs), AllHealthy(vs) && |vs| == 8, vs[0].Healthy?)
  }

  lemma {:induction false} NotedAt(cs: map<Cond, Condition>, vs: seq<Verdict>, generation: int, k: Cond)
    requires |vs| <= 8
    ensures Place(k) < |vs| ==> k in Noted(cs, vs, generation) && Noted(cs, vs, generation)[k] == ConditionOf(vs[Place(k)], generation)
    ensures Place(k) >= |vs| ==> (k in Noted(cs, vs, generation) <==> k in cs) && (k in cs ==> Noted(cs, vs, generation)[k] == cs[k])
  {
    if |vs| > 0 {
      NotedAt(cs, vs[..|vs| - 1], generation, k);
      PlaceOf(|vs| - 1);
    }
  }

  /** Ready means that all eight conditions are true at the current generation, and nothing else. */
  lemma ReadyIffAllTrue(cs: map<Cond, Condition>, vs: seq<Verdict>, generation: int)
    requires Attempted(vs)
    ensures PhaseOf(vs) == Ready <==>
      (forall k: Cond :: IsTrue(Noted(cs, vs, generation), k) && Noted(cs, vs, generation)[k].observed == generation)
  {
    if PhaseOf(vs) == Ready {
      forall k: Cond ensures IsTrue(Noted(cs, vs, generation), k) && Noted(cs, vs, generation)[k].observed == generation {
        NotedAt(cs, vs, generation, k);
      }
    } else {
      var i := FirstTrouble(vs);
      NotedAt(cs, vs, generation, ORDER[i]);
      PlaceOf(i);
    }
  }

  lemma FirstTrouble(vs: seq<Verdict>) returns (i: nat)
    requires Attempted(vs) && PhaseOf(vs) != Ready
    ensures i < |vs| <= 8 && !vs[i].Healthy?
  {
    if SomeError(vs[..3]) {
      i :| 0 <= i < 3 && IsError(vs[..3][i]);
    } else if SomeError(vs) {
      i :| 0 <= i < |vs| && IsError(vs[i]);
    } else {
      i :| 0 <= i < |vs| && !vs[i].Healthy?;
    }
  }

  /** The other phases are told apart by two facts: whether some component failed, and whether the database is healthy. */
  lemma PhaseCases(vs: seq<Verdict>)
    requires Attempted(vs)
    ensures PhaseOf(vs) == Error <==> SomeError(vs) && !vs[0].Healthy?
    ensures PhaseOf(vs) == Degraded <==> SomeError(vs) && vs[0].Healthy?
    ensures PhaseOf(vs) == Provisioning <==> !SomeError(vs) && exists i :: 0 <= i < |vs| && !vs[i].Healthy?
    ensures PhaseOf(vs) != Pending
  {
    if SomeError(vs) {
      var i :| 0 <= i < |vs| && IsError(vs[i]);
      assert !vs[i].Healthy?;
    }
  }

  /** The persisted `databaseReady` is what the loop saw. */
  lemma DatabaseReadyIsSeen(cs: map<Cond, Condition>, vs: seq<Verdict>, generation: int)
    requires Attempted(vs)
    ensures IsTrue(Noted(cs, vs, generation), DatabaseReady) == vs[0].Healthy?
    ensures IsTrue(Noted(cs, vs, generation), GatewayReady) == vs[2].Healthy?
  {
    NotedAt(cs, vs, generation, DatabaseReady);
    NotedAt(cs, vs, generation, GatewayReady);
  }

  /** A critical failure leaves the conditions of the services as they were. */
  lemma SkippedKeepConditions(cs: map<Cond, Condition>, vs: seq<Verdict>, generation: int, k: Cond)
    requires Attempted(vs) && SomeError(vs[..3]) && Place(k) >= 3
    ensures (k in Noted(cs, vs, generation) <==> k in cs) && (k in cs ==> Noted(cs, vs, generation)[k] == cs[k])
  {
    NotedAt(cs, vs, generation, k);
  }

  // ---------------------------------------------------------------- the reconciler

  /** Delays before the next pass, by phase. After Error nothing is scheduled. */
  function Requeue(p: Phase): nat {
    match p
    case Ready => 300
    case Provisioning => 30
    case Degraded => 30
    case _ => 0
  }

  predicate AllBuilt(sb: Supabase) {
    forall s: Service :: WellBuilt(sb.builders(s))
  }

  /** An enabled service that is to have no replicas. */
  predicate Unstaffed(b: Builder) {
    b.enabled && b.deployment.Deployment? && b.deployment.spec.replicas == 0
  }

  ghost predicate SomeUnstaffed(sb: Supabase) {
    exists s: Service :: Unstaffed(sb.builders(s))
  }

  /** Verdicts that a pass over this resource can come to: a service without replicas is never found healthy. */
  ghost predicate Borne(sb: Supabase, vs: seq<Verdict>) {
    forall i :: 3 <= i < 8 && i < |vs| && Unstaffed(sb.builders(ServiceAt(i))) ==> !vs[i].Healthy?
  }

  /** The status that a pass with these verdicts writes. */
  ghost function StatusFor(sb: Supabase, vs: seq<Verdict>): Status
    requires Attempted(vs)
  {
    Status(PhaseOf(vs), Noted(sb.status.conditions, vs, sb.generation), vs[0].Healthy?, vs[2].Healthy?, sb.generation)
  }

  /** The critical components; their verdicts come from outside this model. */
  method NoteCriticals(sb: Supabase, criticals: seq<Verdict>)
    returns (conditions: map<Cond, Condition>, failed: bool, allReady: bool, dbReady: bool)
    requires |criticals| == 3
    ensures conditions == Noted(sb.status.conditions, criticals, sb.generation)
    ensures failed == SomeError(criticals) && allReady == AllHealthy(criticals) && dbReady == criticals[0].Healthy?
  {
    conditions, failed, allReady, dbReady := sb.status.conditions, false, true, false;
    ghost var seen := [];
    var i := 0;
    while i < 3
      invariant 0 <= i <= 3 && seen == criticals[..i]
      invariant conditions == Noted(sb.status.conditions, seen, sb.generation)
      invariant failed == SomeError(seen) && allReady == AllHealthy(seen)
      invariant i > 0 ==> dbReady == criticals[0].Healthy?
    {
      var v := criticals[i];
      OneMore(seen, v);
      NotedMore(sb.status.conditions, seen, v, sb.generation);
      conditions := conditions[ORDER[i] := ConditionOf(v, sb.generation)];
      failed, allReady := failed || IsError(v), allReady && v.Healthy?;
      if i == 0 { dbReady := v.Healthy?; }
      TakeMore(criticals, i);
      seen := seen + [v];
      i := i + 1;
    }
    TakeMore(criticals, 3);
  }

  /** The verdict on a service accounts for the calls that were made for it, and for the state `c` in which its
      health was checked. */
  ghost predicate Accounts(w: World, s: Service, b: Builder, v: Verdict, from: nat, to: nat, c: Cluster) {
    if !b.enabled then v.Healthy? && to == from
    else
      match v
      case ReconcileError => to <= from + CallsOf(s) && Broken(w, from, to)
      case HealthcheckError => to == from + CallsOf(s) + 1 && Broken(w, from, to)
      case Healthy => to == from + CallsOf(s) + 1 && Undisturbed(w, from, to) && Staffed(c, s)
      case NotReady => to == from + CallsOf(s) + 1 && Undisturbed(w, from, to) && !Staffed(c, s)
      case Reconciling => false
  }

  /** Every verdict so far accounts for its service's share of the calls. */
  ghost predicate AllAccounted(w: World, history: seq<Cluster>, sb: Supabase, vs: seq<Verdict>, marks: seq<nat>) {
    && 3 <= |vs| <= 8 && |marks| == |vs| - 2
    && (forall k :: 0 <= k < |marks| ==> marks[k] < |history|)
    && (forall i :: 3 <= i < |vs| ==> Accounted(w, history, sb, vs, marks, i))
  }

  ghost predicate Accounted(w: World, history: seq<Cluster>, sb: Supabase, vs: seq<Verdict>, marks: seq<nat>, i: nat)
    requires 3 <= i < |vs| <= 8 && |marks| == |vs| - 2 && marks[i - 2] < |history|
  {
    Accounts(w, ServiceAt(i), sb.builders(ServiceAt(i)), vs[i], marks[i - 3], marks[i - 2], history[marks[i - 2]])
  }

  /** Every enabled service so far that has not failed to be put in place is in place, all of it. */
  ghost predicate AllEstablished(c: Cluster, sb: Supabase, vs: seq<Verdict>) {
    forall i :: 3 <= i < |vs| && i < 8 && sb.builders(ServiceAt(i)).enabled && !vs[i].ReconcileError? ==>
      AllInPlace(c, ServiceAt(i), sb.builders(ServiceAt(i)))
  }

  lemma OneAccounted(w: World, history: seq<Cluster>, later: seq<Cluster>, sb: Supabase, vs: seq<Verdict>, marks: seq<nat>, v: Verdict, now: nat)
    requires AllAccounted(w, history, sb, vs, marks) && |vs| < 8 && history <= later && now < |later|
    requires var s := ServiceAt(|vs|); Accounts(w, s, sb.builders(s), v, marks[|vs| - 3], now, later[now])
    ensures AllAccounted(w, later, sb, vs + [v], marks + [now])
  {
    var ws, ms := vs + [v], marks + [now];
    forall i | 3 <= i < |ws| ensures Accounted(w, later, sb, ws, ms, i) {
      if i < |vs| { assert Accounted(w, history, sb, vs, marks, i); }
    }
  }

  lemma OneEstablished(c: Cluster, d: Cluster, sb: Supabase, vs: seq<Verdict>, v: Verdict)
    requires AllEstablished(c, sb, vs) && 3 <= |vs| < 8 && OthersKept(c, d, ServiceAt(|vs|))
    requires var s := ServiceAt(|vs|); sb.builders(s).enabled && !v.ReconcileError? ==> AllInPlace(d, s, sb.builders(s))
    ensures AllEstablished(d, sb, vs + [v])
  {
    var ws := vs + [v];
    forall i | 3 <= i < |ws| && sb.builders(ServiceAt(i)).enabled && !ws[i].ReconcileError?
      ensures AllInPlace(d, ServiceAt(i), sb.builders(ServiceAt(i)))
    {
      if i < |vs| {
        assert ServiceAt(i) != ServiceAt(|vs|) && vs[i] == ws[i];
        StillInPlace(c, d, ServiceAt(i), sb.builders(ServiceAt(i)), ServiceAt(|vs|));
      }
    }
  }

  lemma StillInPlace(c: Cluster, d: Cluster, s: Service, b: Builder, other: Service)
    requires AllInPlace(c, s, b) && OthersKept(c, d, other) && s != other
    ensures AllInPlace(d, s, b)
  {
  }

  class SupabaseReconciler {
    const api: ApiServer
    var stored: Option<Supabase>

    constructor (api: ApiServer, stored: Option<Supabase>)
      ensures this.api == api && this.stored == stored
    {
      this.api, this.stored := api, stored;
    }

    /** Reconciles a service and checks its health. */
    method ReconcileComponent(s: Service, b: Builder) returns (v: Verdict)
      requires api.Valid() && WellBuilt(b)
      modifies api
      ensures api.Valid() && old(api.history) <= api.history && old(api.cluster).Keys <= api.cluster.Keys
      ensures OthersKept(old(api.cluster), api.cluster, s)
      ensures Unstaffed(b) ==> !v.Healthy?
      ensures !b.enabled ==> api.cluster == old(api.cluster)
      ensures Accounts(api.world, s, b, v, old(api.calls), api.calls, api.cluster)
      ensures b.enabled && !v.ReconcileError? ==> AllInPlace(api.cluster, s, b)
    {
      var comp := new ServiceComponent(api, s, b);
      var err := comp.Reconcile();
      if err { return ReconcileError; }
      var ready;
      ready, err := comp.Healthcheck();
      v := if err then HealthcheckError else if ready then Healthy else NotReady;
    }

    /** Writes a status; the call may fail, with or without having taken effect. */
    method PatchStatus(sb: Supabase, st: Status, fault: Objects.Fault) returns (ok: bool)
      requires stored == Some(sb)
      modifies this`stored
      ensures ok == fault.NoFault?
      ensures stored == if ok || fault.applied then Some(sb.(status := st)) else Some(sb)
    {
      ok := fault.NoFault?;
      if ok || fault.applied { stored := Some(sb.(status := st)); }
    }

    method UpdateStatus(sb: Supabase, st: Status, failed: bool, fault: Objects.Fault) returns (result: Machine.Outcome)
      requires stored == Some(sb)
      modifies this`stored
      ensures stored == if fault.NoFault? || fault.applied then Some(sb.(status := st)) else Some(sb)
      ensures result == if fault.NoFault? then Machine.Outcome(Requeue(st.phase), false, failed) else Machine.Outcome(0, false, true)
      ensures fault.NoFault? ==>
        && (result.after == 300 <==> st.phase.Ready?) && (result.after == 30 <==> st.phase.Provisioning? || st.phase.Degraded?)
        && (result.after == 0 <==> st.phase.Error? || st.phase.Pending?)
    {
      var ok := PatchStatus(sb, st, fault);
      if !ok { return Machine.Outcome(0, false, true); }
      return Machine.Outcome(Requeue(st.phase), false, failed);
    }

    /** The five services in turn, each whatever becomes of the others. `marks` are the numbers of calls made
        before the first service and after each. */
    method ReconcileServices(sb: Supabase, cs: map<Cond, Condition>, before: seq<Verdict>)
      returns (conditions: map<Cond, Condition>, hasError: bool, allReady: bool, ghost vs: seq<Verdict>, ghost marks: seq<nat>)
      requires api.Valid() && AllBuilt(sb) && |before| == 3
      requires cs == Noted(sb.status.conditions, before, sb.generation)
      modifies api
      ensures api.Valid() && old(api.history) <= api.history && old(api.cluster).Keys <= api.cluster.Keys
      ensures |vs| == 8 && vs[..3] == before && conditions == Noted(sb.status.conditions, vs, sb.generation)
      ensures hasError == SomeError(vs[3..]) && allReady == AllHealthy(vs[3..])
      ensures forall i :: 3 <= i < 8 && Unstaffed(sb.builders(ServiceAt(i))) ==> !vs[i].Healthy?
      ensures |marks| == 6 && marks[0] == old(api.calls) && marks[5] == api.calls
      ensures AllAccounted(api.world, api.history, sb, vs, marks)
      ensures AllEstablished(api.cluster, sb, vs)
    {
      conditions, hasError, allReady, vs, marks := cs, false, true, before, [api.calls];
      var i := 3;
      while i < 8
        invariant 3 <= i <= 8 && |vs| == i && vs[..3] == before
        invariant api.Valid() && old(api.history) <= api.history && old(api.cluster).Keys <= api.cluster.Keys
        invariant conditions == Noted(sb.status.conditions, vs, sb.generation)
        invariant hasError == SomeError(vs[3..]) && allReady == AllHealthy(vs[3..])
        invariant forall j :: 3 <= j < i && Unstaffed(sb.builders(ServiceAt(j))) ==> !vs[j].Healthy?
        invariant |marks| == i - 2 && marks[0] == old(api.calls) && marks[i - 3] == api.calls
        invariant AllAccounted(api.world, api.history, sb, vs, marks)
        invariant AllEstablished(api.cluster, sb, vs)
      {
        var s := ServiceAt(i);
        ghost var history, cluster := api.history, api.cluster;
        var v := ReconcileComponent(s, sb.builders(s));
        Another(vs, v);
        NotedMore(sb.status.conditions, vs, v, sb.generation);
        OneAccounted(api.world, history, api.history, sb, vs, marks, v, api.calls);
        OneEstablished(cluster, api.cluster, sb, vs, v);
        conditions := conditions[ORDER[i] := ConditionOf(v, sb.generation)];
        hasError, allReady := hasError || IsError(v), allReady && v.Healthy?;
        vs, marks := vs + [v], marks + [api.calls];
        i := i + 1;
      }
    }

    /** One pass over the platform resource. `vs` are the verdicts on the components that it got to, `marks` the
        numbers of calls made before the first service and after each. */
    method Reconcile(read: Objects.Fault, preflight: bool, criticals: seq<Verdict>, write: Objects.Fault)
      returns (result: Machine.Outcome, ghost vs: seq<Verdict>, ghost marks: seq<nat>)
      requires api.Valid() && |criticals| == 3 && (stored.Some? ==> AllBuilt(stored.value))
      modifies api, this`stored
      ensures api.Valid() && old(api.history) <= api.history && old(api.cluster).Keys <= api.cluster.Keys
      ensures read.Transient? ==> stored == old(stored) && result == Machine.Outcome(0, false, true)
      ensures read.NoFault? && old(stored).None? ==> stored == None && result == Machine.Outcome(0, false, false)
      ensures read.NoFault? && old(stored).Some? ==>
        var sb := old(stored).value;
        var st := if preflight then if Attempted(vs) then StatusFor(sb, vs) else sb.status
                  else sb.status.(phase := Error, observed := sb.generation);
        && (preflight ==> Attempted(vs) && vs[..3] == criticals)
        && stored == (if write.NoFault? || write.applied then Some(sb.(status := st)) else Some(sb))
        && result == (if write.NoFault? then Machine.Outcome(Requeue(st.phase), false, !preflight) else Machine.Outcome(0, false, true))
        && (!preflight || SomeError(criticals) ==> api.cluster == old(api.cluster) && api.calls == old(api.calls))
      // where the pass gets to the services, each verdict accounts for the calls made, and whatever could be put
      // in place is there at the end
      ensures read.NoFault? && old(stored).Some? && preflight && !SomeError(criticals) ==>
        && |vs| == 8 && |marks| == 6 && marks[0] == old(api.calls) && marks[5] == api.calls
        && AllAccounted(api.world, api.history, old(stored).value, vs, marks)
        && AllEstablished(api.cluster, old(stored).value, vs)
      // the two flags of the status are the conditions stored beside them
      ensures read.NoFault? && old(stored).Some? && preflight && (write.NoFault? || write.applied) ==>
        var st := stored.value.status;
        && st.databaseReady == IsTrue(st.conditions, DatabaseReady) == criticals[0].Healthy?
        && st.gatewayReady == IsTrue(st.conditions, GatewayReady) == criticals[2].Healthy?
      // an enabled service that is to have no replicas keeps the platform from being reported ready
      ensures (read.NoFault? && old(stored).Some? && preflight && (write.NoFault? || write.applied)
               && SomeUnstaffed(old(stored).value)) ==> stored.value.status.phase != Ready
      // a failing database cluster leaves nothing behind that would bring the next pass
      ensures read.NoFault? && old(stored).Some? && preflight && write.NoFault? && IsError(criticals[0]) ==>
        result == Machine.Outcome(0, false, false)
    {
      vs, marks := [], [];
      if read.Transient? { return Machine.Outcome(0, false, true), vs, marks; }
      if stored.None? { return Machine.Outcome(0, false, false), vs, marks; }
      var sb := stored.value;
      if !preflight {
        result := UpdateStatus(sb, sb.status.(phase := Error, observed := sb.generation), true, write);
        return;
      }
      var conditions, hasError, allReady, dbReady := NoteCriticals(sb, criticals);
      TakeMore(criticals, 3);
      vs := criticals;
      if !hasError {
        var ready;
        conditions, hasError, ready, vs, marks := ReconcileServices(sb, conditions, criticals);
        allReady := allReady && ready;
      } else {
        allReady := false;
      }
      Split(vs);
      if SomeUnstaffed(sb) { UnstaffedNeverReady(sb, vs); }
      if IsError(criticals[0]) { StuckWhenDatabaseFails(sb, vs); }
      DatabaseReadyIsSeen(sb.status.conditions, vs, sb.generation);
      var phase := DerivePhase(hasError, allReady, dbReady);
      result := UpdateStatus(sb, Status(phase, conditions, IsTrue(conditions, DatabaseReady), IsTrue(conditions, GatewayReady), sb.generation), false, write);
    }
  }

  lemma TakeMore(vs: seq<Verdict>, i: nat)
    requires i <= |vs|
    ensures if i < |vs| then vs[..i + 1] == vs[..i] + [vs[i]] else vs[..i] == vs
  {
  }

  lemma OneMore(vs: seq<Verdict>, v: Verdict)
    ensures SomeError(vs + [v]) == (SomeError(vs) || IsError(v))
    ensures AllHealthy(vs + [v]) == (AllHealthy(vs) && v.Healthy?)
  {
    var more := vs + [v];
    assert more[|vs|] == v && forall i :: 0 <= i < |vs| ==> more[i] == vs[i];
    if SomeError(vs) {
      var i :| 0 <= i < |vs| && IsError(vs[i]);
      assert IsError(more[i]);
    }
    if AllHealthy(more) {
      forall i | 0 <= i < |vs| ensures vs[i].Healthy? { assert more[i].Healthy?; }
    }
  }

  lemma Split(vs: seq<Verdict>)
    requires |vs| >= 3
    ensures SomeError(vs) == (SomeError(vs[..3]) || SomeError(vs[3..]))
    ensures AllHealthy(vs) == (AllHealthy(vs[..3]) && AllHealthy(vs[3..]))
  {
    assert forall i :: 0 <= i < 3 ==> vs[..3][i] == vs[i];
    assert forall i :: 0 <= i < |vs| - 3 ==> vs[3..][i] == vs[i + 3];
    if SomeError(vs) {
      var i :| 0 <= i < |vs| && IsError(vs[i]);
      if i < 3 { assert IsError(vs[..3][i]); } else { assert IsError(vs[3..][i - 3]); }
    }
    if AllHealthy(vs[..3]) && AllHealthy(vs[3..]) {
      forall i | 0 <= i < |vs| ensures vs[i].Healthy? {
        if i < 3 { assert vs[..3][i].Healthy?; } else { assert vs[3..][i - 3].Healthy?; }
      }
    }
  }

  lemma Another(vs: seq<Verdict>, v: Verdict)
    requires |vs| >= 3
    ensures (vs + [v])[..3] == vs[..3]
    ensures SomeError((vs + [v])[3..]) == (SomeError(vs[3..]) || IsError(v))
    ensures AllHealthy((vs + [v])[3..]) == (AllHealthy(vs[3..]) && v.Healthy?)
  {
    assert (vs + [v])[3..] == vs[3..] + [v];
    OneMore(vs[3..], v);
  }

  lemma NotedMore(cs: map<Cond, Condition>, vs: seq<Verdict>, v: Verdict, generation: int)
    requires |vs| < 8
    ensures Noted(cs, vs + [v], generation) == Noted(cs, vs, generation)[ORDER[|vs|] := ConditionOf(v, generation)]
  {
    assert (vs + [v])[..|vs|] == vs;
  }

  // ---------------------------------------------------------------- names

  /** The names of the five services, and the texts of their condition types. */
  function NameOf(s: Service): string {
    match s
    case Imgproxy => "imgproxy"
    case Analytics => "analytics"
    case Vector => "vector"
    case Supavisor => "supavisor"
    case Studio => "studio"
  }

  function TypeText(k: Cond): string {
    match k
    case DatabaseReady => "DatabaseReady"
    case BackupReady => "BackupReady"
    case GatewayReady => "GatewayReady"
    case ImgproxyReady => "ImgproxyReady"
    case AnalyticsReady => "AnalyticsReady"
    case VectorReady => "VectorReady"
    case SupavisorReady => "SupavisorReady"
    case StudioReady => "StudioReady"
  }

  function Upper(c: char): char { if 'a' <= c <= 'z' then (c as int - 32) as char else c }

  /** The condition that a pass records for a service is the one that is named after it. */
  lemma NamedAfter(i: nat)
    requires 3 <= i < 8
    ensures var name := NameOf(ServiceAt(i)); TypeText(ORDER[i]) == [Upper(name[0])] + name[1..] + "Ready"
  {
    assert "imgproxy"[1..] == "mgproxy" && "analytics"[1..] == "nalytics" && "vector"[1..] == "ector";
    assert "supavisor"[1..] == "upavisor" && "studio"[1..] == "tudio";
    assert "I" + "mgproxy" + "Ready" == "ImgproxyReady" && "A" + "nalytics" + "Ready" == "AnalyticsReady";
    assert "V" + "ector" + "Ready" == "VectorReady" && "S" + "upavisor" + "Ready" == "SupavisorReady";
    assert "S" + "tudio" + "Ready" == "StudioReady";
  }

  // ---------------------------------------------------------------- what follows

  function SpotOf(s: Service): (i: nat)
    ensures 3 <= i < 8 && ServiceAt(i) == s
  {
    match s case Imgproxy => 3 case Analytics => 4 case Vector => 5 case Supavisor => 6 case Studio => 7
  }

  /** An enabled service without replicas keeps the platform from ever being reported ready. */
  lemma UnstaffedNeverReady(sb: Supabase, vs: seq<Verdict>)
    requires Attempted(vs) && Borne(sb, vs) && SomeUnstaffed(sb)
    ensures StatusFor(sb, vs).phase != Ready
  {
    var s: Service :| Unstaffed(sb.builders(s));
    assert ServiceAt(SpotOf(s)) == s;
  }

  /** A failing database cluster is enough for that. */
  lemma StuckWhenDatabaseFails(sb: Supabase, vs: seq<Verdict>)
    requires Attempted(vs) && IsError(vs[0])
    ensures Requeue(StatusFor(sb, vs).phase) == 0
  {
    assert SomeError(vs);
    StuckExactlyOnError(sb, vs);
  }

  /** After a written status nothing brings the next pass exactly when some component failed while the
      database was not healthy: a failing platform is left alone until something else wakes it. */
  lemma StuckExactlyOnError(sb: Supabase, vs: seq<Verdict>)
    requires Attempted(vs)
    ensures Requeue(StatusFor(sb, vs).phase) == 0 <==> SomeError(vs) && !vs[0].Healthy?
  {
    PhaseCases(vs);
  }
}
