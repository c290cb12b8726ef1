/** The objects that the operator keeps in the cluster, their labels, and one API call on one object. */
module Objects {
  import opened Options
  import opened Credentials

  // ---------------------------------------------------------------- labels

  type Labels = map<string, string>

  const LABEL_MANAGED_BY := "app.kubernetes.io/managed-by"
  const LABEL_PART_OF := "app.kubernetes.io/part-of"
  const LABEL_INSTANCE := "app.kubernetes.io/instance"
  const LABEL_COMPONENT := "app.kubernetes.io/component"
  const LABEL_TENANT := "supabase.codanael.io/tenant"

  function PlatformLabels(instance: string, component: string): Labels {
    map[LABEL_MANAGED_BY := "supabase-operator", LABEL_PART_OF := "supabase",
        LABEL_INSTANCE := instance, LABEL_COMPONENT := component]
  }

  function TenantLabels(instance: string, tenantId: string, component: string): Labels {
    PlatformLabels(instance, component)[LABEL_TENANT := tenantId]
  }

  function SelectorLabels(instance: string, component: string): Labels {
    map[LABEL_INSTANCE := instance, LABEL_COMPONENT := component]
  }

  // ---------------------------------------------------------------- what a tenant consists of

  datatype Svc = Auth | Rest | Realtime | Storage | Functions

  /** The objects that belong to one tenant. */
  datatype Target =
    | TNamespace
    | TPolicy
    | TJwt
    | TCreds
    | TDatabase
    | TJob
    | TDeploy(svc: Svc)
    | TService(svc: Svc)
    | TRoute

  /** Everything that one tenant's passes read or write: its own custom resource, the parent Supabase
      resource, the platform namespace, and its objects. */
  datatype Slot = Claim | ParentSlot | Platform | Child(target: Target)

  // ---------------------------------------------------------------- object contents

  datatype Preset = Small | Medium | Large | Custom

  /** The part of the tenant's spec that a user may change; `settings` stands for all the options that the
      operator copies into workloads without looking at them. */
  datatype Spec = Spec(suspended: bool, preset: Preset, settings: string)

  datatype Component = CNamespace | CSecrets | CDatabase | CService(svc: Svc) | CRouting

  /** The condition types: one per component, and the extra type "Ready" that an unresolved parent leaves behind. */
  datatype CondKind = Of(component: Component) | Overall

  datatype Reason = ReconcileError | HealthcheckError | IsReady | NotReady | SupabaseRefNotFound

  datatype Condition = Condition(kind: CondKind, holds: bool, reason: Reason, observed: int)

  datatype Phase = NoPhase | Provisioning | Ready | ErrorPhase | Suspended | Deleting

  datatype Status = Status(phase: Phase, conditions: seq<Condition>, namespace: string, endpoint: string, observed: int)

  datatype TenantCR = TenantCR(spec: Spec, generation: int, deleting: bool, finalizer: bool, status: Status)

  datatype Parent = Parent(baseDomain: string, image: string)

  datatype NsPhase = Pending | Active | Terminating

  datatype InitParams = InitParams(database: string, jwtSecret: string, authenticator: string, authAdmin: string, storageAdmin: string)

  datatype JobSpec = JobSpec(image: string, host: string, port: string, database: string, sql: InitParams, password: string)

  datatype DeploymentSpec = DeploymentSpec(
    replicas: int, selector: Labels, podLabels: Labels, secretHash: string,
    containerPort: int, env: map<string, string>, publicUrl: string, settings: string)

  datatype Port = Port(name: string, port: int, targetPort: int)

  datatype Rule = Rule(pathPrefix: string, service: string, namespace: string, port: int)

  datatype RouteSpec = RouteSpec(gateway: string, gatewayNamespace: string, hostname: string, rules: seq<Rule>)

  /** An object as the cluster stores it: what the operator writes, and the fields that others own
      (`phase`, `applied`, `succeeded`, `ready`, `clusterIP`). */
  datatype Obj =
    | NamespaceObj(labels: Labels, phase: NsPhase)
    | PolicyObj(labels: Labels, allowedFrom: string)
    | SecretObj(labels: Labels, data: Data)
    | DatabaseObj(labels: Labels, dbName: string, cluster: string, applied: Option<bool>)
    | JobObj(labels: Labels, job: JobSpec, succeeded: nat)
    | DeploymentObj(labels: Labels, deployment: DeploymentSpec, ready: int)
    | ServiceObj(labels: Labels, ports: seq<Port>, selector: Labels, clusterIP: string)
    | RouteObj(labels: Labels, route: RouteSpec)
    | ClaimObj(cr: TenantCR)
    | ParentObj(parent: Parent)

  // ---------------------------------------------------------------- one API call

  /** The field-wise changes that the operator sends as merge patches computed against a fresh read. */
  datatype Patch =
    | Scale(replicas: int)
    | SetDeployment(labels: Labels, deployment: DeploymentSpec)
    | SetService(labels: Labels, ports: seq<Port>, selector: Labels)
    | SetRoute(labels: Labels, route: RouteSpec)

  function Patched(o: Obj, p: Patch): Obj {
    match p
    case Scale(n) => if o.DeploymentObj? then o.(deployment := o.deployment.(replicas := n)) else o
    case SetDeployment(labels, d) => if o.DeploymentObj? then o.(labels := labels, deployment := d) else o
    case SetService(labels, ports, selector) =>
      if o.ServiceObj? then o.(labels := labels, ports := ports, selector := selector) else o
    case SetRoute(labels, r) => if o.RouteObj? then o.(labels := labels, route := r) else o
  }

  predicate Overwritable(o: Obj) {
    o.DeploymentObj? || o.ServiceObj? || o.RouteObj?
  }

  /** The fields that an update writes over those of the object it found. */
  function Overwrite(desired: Obj): Patch
    requires Overwritable(desired)
  {
    match desired
    case DeploymentObj(labels, d, _) => SetDeployment(labels, d)
    case ServiceObj(labels, ports, selector, _) => SetService(labels, ports, selector)
    case RouteObj(labels, route) => SetRoute(labels, route)
  }

  /** An object written over itself stays as it is, and writing it over another twice is writing it once. */
  lemma OverwriteAgain(desired: Obj, o: Obj)
    requires Overwritable(desired)
    ensures Patched(desired, Overwrite(desired)) == desired
    ensures Patched(Patched(o, Overwrite(desired)), Overwrite(desired)) == Patched(o, Overwrite(desired))
  {
  }

  /** `Update` carries the resource as it was read; it is refused when the stored one has changed since. */
  datatype Verb =
    | Get
    | Create(obj: Obj)
    | Patch(patch: Patch)
    | Delete
    | Update(base: TenantCR, finalizer: bool)
    | PatchStatus(status: Status)

  datatype Op = Op(slot: Slot, verb: Verb)

  /** A call either goes through, or reports a failure after having taken effect or not. */
  datatype Fault = NoFault | Transient(applied: bool)

  datatype Resp = Ok(obj: Obj) | NotFound | Failed

  /** What a fault-free call does to the one object it names. `open` says whether the namespace that is to
      hold the object exists and is not terminating. */
  function Effect(cur: Option<Obj>, open: bool, verb: Verb): (r: (Option<Obj>, Resp))
    ensures verb.Get? ==> r.0 == cur
    ensures r.0.Some? && cur.None? ==> verb.Create? && open
  {
    match verb
    case Get => (cur, if cur.Some? then Ok(cur.value) else NotFound)
    case Create(o) => if cur.Some? || !open then (cur, Failed) else (Some(o), Ok(o))
    case Patch(p) =>
      if cur.None? then (cur, NotFound)
      else (Some(Patched(cur.value, p)), Ok(Patched(cur.value, p)))
    case Delete =>
      if cur.None? then (cur, NotFound)
      else if cur.value.NamespaceObj? then
        // deleting a namespace starts the deletion of its contents
        (Some(cur.value.(phase := Terminating)), Ok(cur.value))
      else (None, Ok(cur.value))
    case Update(base, finalizer) =>
      if cur.Some? && cur.value.ClaimObj? && cur.value.cr == base then
        if base.deleting && !finalizer then (None, Ok(cur.value))
        else (Some(ClaimObj(base.(finalizer := finalizer))), Ok(ClaimObj(base.(finalizer := finalizer))))
      else (cur, Failed)
    case PatchStatus(status) =>
      if cur.Some? && cur.value.ClaimObj? then
        (Some(ClaimObj(cur.value.cr.(status := status))), Ok(ClaimObj(cur.value.cr.(status := status))))
      else (cur, NotFound)
  }

  function Serve(cur: Option<Obj>, open: bool, verb: Verb, fault: Fault): (r: (Option<Obj>, Resp))
    ensures verb.Get? ==> r.0 == cur
    ensures r.0.Some? && cur.None? ==> verb.Create? && open
  {
    match fault
    case NoFault => Effect(cur, open, verb)
    case Transient(applied) => (if applied then Effect(cur, open, verb).0 else cur, Failed)
  }
}
