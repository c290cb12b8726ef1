/** The components of a tenant as the operator writes them: each reads, creates, patches and deletes in turn.
    Their contracts say where a pass stands afterwards, in any world of faults and interference. */
module Components {
  import opened Options
  import opened Objects
  import opened Tenants
  import opened Machine
  import opened Runs
  import opened Sessions
  import opened Contents
  import opened Routing
  import opened Calls
  import Credentials

  /** What one pass shares between its components. The credentials are filled in by the secrets. */
  class TenantContext {
    const t: Tenant
    const tenant: TenantCR
    const parent: Parent
    var status: Status
    var JWTSecret: string
    var AnonKey: string
    var ServiceRoleKey: string
    var DatabasePassword: string
    var SecretHash: string

    constructor (t: Tenant, tenant: TenantCR, parent: Parent)
      ensures this.t == t && this.tenant == tenant && this.parent == parent && status == tenant.status
    {
      this.t, this.tenant, this.parent, this.status := t, tenant, parent, tenant.status;
      JWTSecret, AnonKey, ServiceRoleKey, DatabasePassword, SecretHash := "", "", "", "", "";
    }

    function Credentials(): Context
      reads this
    {
      Context(JWTSecret, AnonKey, ServiceRoleKey, DatabasePassword, SecretHash)
    }

    /** The context belongs to the pass. */
    ghost predicate Serves(s: Session)
      reads this, s
    {
      t == s.t && s.local.Pass? && s.local.cr == tenant && s.local.parent == parent
    }

    /** The credentials are those that the pass has taken from the secrets. */
    ghost predicate Filled(s: Session)
      reads this, s
      requires s.local.Pass?
    {
      Credentials() == ContextFor(s.t, s.local)
    }
  }

  // ---------------------------------------------------------------- shared steps

  /** Namespace, policy and database do not depend on credentials. */
  lemma BuiltWithout(t: Tenant, spec: Spec, parent: Parent, a: Context, b: Context, x: Target)
    requires x.TNamespace? || x.TPolicy? || x.TDatabase?
    ensures Desired(t, spec, parent, a, map[], x) == Desired(t, spec, parent, b, map[], x)
  {
  }

  lemma GoneThere(t: Tenant, l: Local, pc: PC, x: Target)
    requires l.Pass?
    ensures Gone(t, To(l, pc), x) == Gone(t, l, x)
  {
  }

  /** What is wanted does not depend on the point. */
  lemma WantedThere(t: Tenant, l: Local, pc: PC, x: Target)
    requires l.Pass?
    ensures DesiredBy(t, To(l, pc), x) == DesiredBy(t, l, x)
  {
  }

  lemma MendedThere(t: Tenant, l: Local, pc: PC, x: Target)
    requires l.Pass? && Mended(x)
    ensures MendingBy(t, To(l, pc), x) == MendingBy(t, l, x)
  {
  }

  method CreateAt(s: Session, ghost l: Local, x: Target, desired: Obj) returns (err: bool)
    requires l.Pass? && s.local == To(l, Ensure(x, Add)) && s.Valid() && desired == DesiredBy(s.t, l, x)
    modifies s
    ensures s.Valid()
    ensures s.local == if err then Gone(s.t, l, x) else To(l, AfterEnsure(x))
    ensures !err ==> Lookup(s.store, KeyOf(s.t, Child(x))) == Some(desired)
  {
    WantedThere(s.t, l, Ensure(x, Add), x);
    GoneThere(s.t, l, Ensure(x, Add), x);
    var ok := CreateObject(s, x, desired);
    return !ok;
  }

  method PatchAt(s: Session, ghost l: Local, x: Target, over: Objects.Patch) returns (err: bool)
    requires l.Pass? && s.local == To(l, Ensure(x, Fix)) && s.Valid() && Mended(x) && over == MendingBy(s.t, l, x)
    modifies s
    ensures s.Valid()
    ensures s.local == if err then Gone(s.t, l, x) else To(l, AfterEnsure(x))
    ensures !err ==> exists cur :: Lookup(s.store, KeyOf(s.t, Child(x))) == Some(Patched(cur, over))
  {
    MendedThere(s.t, l, Ensure(x, Fix), x);
    GoneThere(s.t, l, Ensure(x, Fix), x);
    var ok := PatchObject(s, x, over);
    return !ok;
  }

  /** Gets the object, and creates it if there is none. */
  method CreateIfMissing(s: Session, x: Target, desired: Obj) returns (err: bool)
    requires StandsAt(s, Ensure(x, Look)) && Plain(x) && desired == DesiredBy(s.t, s.local, x)
    modifies s
    ensures s.Valid()
    ensures s.local == if err then Gone(s.t, old(s.local), x) else To(old(s.local), AfterEnsure(x))
  {
    ghost var l := s.local;
    var r := LookUpPlain(s, x);
    if r.NotFound? { err := CreateAt(s, l, x, desired); } else { err := r.Failed?; }
  }

  /** The object is the desired one, or one over which its fields have been written. */
  ghost predicate Placed(s: Store, key: Key, desired: Obj, over: Objects.Patch) {
    key in s && (s[key] == desired || exists cur :: s[key] == Patched(cur, over))
  }

  /** Gets the object, creates it if there is none, and otherwise overwrites its fields in place. */
  method CreateOrPatch(s: Session, x: Target, desired: Obj, over: Objects.Patch) returns (err: bool)
    requires StandsAt(s, Ensure(x, Look)) && Mended(x)
    requires desired == DesiredBy(s.t, s.local, x) && over == MendingBy(s.t, s.local, x)
    modifies s
    ensures s.Valid()
    ensures s.local == if err then Gone(s.t, old(s.local), x) else To(old(s.local), AfterEnsure(x))
    ensures !err ==> Placed(s.store, KeyOf(s.t, Child(x)), desired, over)
  {
    ghost var l := s.local;
    var r := LookUpMended(s, x);
    if r.NotFound? { err := CreateAt(s, l, x, desired); }
    else if r.Ok? { err := PatchAt(s, l, x, over); }
    else { err := true; }
  }

  // ---------------------------------------------------------------- namespace

  class NamespaceComponent {
    const ctx: TenantContext
    constructor (ctx: TenantContext) ensures this.ctx == ctx { this.ctx := ctx; }

    method Reconcile(s: Session) returns (err: bool)
      requires ctx.Serves(s) && StandsAt(s, Ensure(TNamespace, Look))
      modifies s
      ensures s.Valid()
      ensures s.local == if err then Conclude(s.t, old(s.local), CNamespace, ReconcileFailed) else To(old(s.local), Check(TNamespace))
    {
      var c := ctx.Credentials();
      var desiredNS := Desired(ctx.t, ctx.tenant.spec, ctx.parent, c, map[], TNamespace);
      BuiltWithout(s.t, s.local.cr.spec, s.local.parent, c, ContextFor(s.t, s.local), TNamespace);
      err := CreateIfMissing(s, TNamespace, desiredNS);
      if err { return; }
      var desiredNP := Desired(ctx.t, ctx.tenant.spec, ctx.parent, c, map[], TPolicy);
      BuiltWithout(s.t, s.local.cr.spec, s.local.parent, c, ContextFor(s.t, s.local), TPolicy);
      err := CreateIfMissing(s, TPolicy, desiredNP);
    }

    method Healthcheck(s: Session) returns (ready: bool, err: bool)
      requires StandsAt(s, Check(TNamespace))
      modifies s
      ensures s.Valid() && (err ==> !ready)
      ensures s.local == Conclude(s.t, old(s.local), CNamespace, VerdictOf(ready, err))
      ensures !err ==> (ready <==> NamespaceActive(s.store, KeyOf(s.t, Child(TNamespace))))
    {
      var r := Inspect(s, TNamespace);
      if !r.Ok? { return false, r.Failed?; }
      return r.obj.NamespaceObj? && r.obj.phase.Active?, false;
    }

    method Finalize(s: Session) returns (err: bool)
      requires StandsAt(s, Drop(TNamespace, Look))
      modifies s
      ensures s.Valid()
      ensures s.local == To(old(s.local), if err then After(10) else Release(false))
    {
      var r := LookUpLeft(s, TNamespace);
      if !r.Ok? { return r.Failed?; }
      var ok := Remove(s, TNamespace);
      return !ok;
    }
  }

  ghost predicate NamespaceActive(s: Store, key: Key) {
    key in s && s[key].NamespaceObj? && s[key].phase.Active?
  }

  /** The verdict that the two results of a healthcheck stand for. */
  function VerdictOf(ready: bool, err: bool): Verdict {
    if err then HealthcheckFailed else if ready then Healthy else Unhealthy
  }

  // ---------------------------------------------------------------- secrets

  class SecretComponent {
    const ctx: TenantContext
    constructor (ctx: TenantContext) ensures this.ctx == ctx { this.ctx := ctx; }

    /** Creates a secret once, with drawn contents, and hands its data on. */
    method EnsureSecret(s: Session, x: Target) returns (err: bool, data: Credentials.Data)
      requires ctx.Serves(s) && StandsAt(s, Ensure(x, Look)) && (x.TJwt? || x.TCreds?)
      modifies s
      ensures s.Valid()
      ensures err ==> s.local == Conclude(s.t, old(s.local).(jwt := s.local.jwt, creds := s.local.creds), CSecrets, ReconcileFailed)
      ensures !err ==> s.local == To(if x.TJwt? then old(s.local).(jwt := data) else old(s.local).(creds := data), AfterEnsure(x))
    {
      var r, luck := LookUpSecret(s, x);
      data := map[];
      if r.Failed? || (r.NotFound? && !luck.drawn) { return true, data; }
      if r.NotFound? {
        data := if x.TJwt? then JwtData(ctx.t.crypto, luck) else CredsData(luck);
        var desired := Desired(ctx.t, ctx.tenant.spec, ctx.parent, ctx.Credentials(), data, x);
        SecretBuilt(s.t, ctx.tenant.spec, ctx.parent, ctx.Credentials(), ContextFor(s.t, s.local), data, x);
        var ok := CreateObject(s, x, desired);
        return !ok, data;
      }
      return false, SecretData(r.obj);
    }

    method ReconcileJwt(s: Session) returns (err: bool, jwt: Credentials.Data)
      requires ctx.Serves(s) && StandsAt(s, Ensure(TJwt, Look))
      modifies s, ctx`JWTSecret, ctx`AnonKey, ctx`ServiceRoleKey
      ensures s.Valid()
      ensures err ==> s.local == Conclude(s.t, old(s.local).(jwt := s.local.jwt, creds := s.local.creds), CSecrets, ReconcileFailed)
      ensures !err ==> s.local == To(old(s.local).(jwt := jwt), Ensure(TCreds, Look))
      ensures !err ==> HoldsJwt(ctx.JWTSecret, ctx.AnonKey, ctx.ServiceRoleKey, jwt)
    {
      err, jwt := EnsureSecret(s, TJwt);
      if err { return; }
      ctx.JWTSecret := Credentials.Val(jwt, "jwt-secret");
      ctx.AnonKey := Credentials.Val(jwt, "anon-key");
      ctx.ServiceRoleKey := Credentials.Val(jwt, "service-role-key");
    }

    method ReconcileCreds(s: Session) returns (err: bool, creds: Credentials.Data)
      requires ctx.Serves(s) && StandsAt(s, Ensure(TCreds, Look))
      modifies s, ctx`DatabasePassword
      ensures s.Valid()
      ensures err ==> s.local == Conclude(s.t, old(s.local).(jwt := s.local.jwt, creds := s.local.creds), CSecrets, ReconcileFailed)
      ensures !err ==> s.local == To(old(s.local).(creds := creds), Check(TJwt))
      ensures !err ==> ctx.DatabasePassword == Credentials.Val(creds, "postgres-password")
    {
      err, creds := EnsureSecret(s, TCreds);
      if err { return; }
      ctx.DatabasePassword := Credentials.Val(creds, "postgres-password");
    }

    method Reconcile(s: Session) returns (err: bool)
      requires ctx.Serves(s) && StandsAt(s, Ensure(TJwt, Look))
      modifies s, ctx`JWTSecret, ctx`AnonKey, ctx`ServiceRoleKey, ctx`DatabasePassword, ctx`SecretHash
      ensures s.Valid()
      ensures err ==> s.local == Conclude(s.t, old(s.local).(jwt := s.local.jwt, creds := s.local.creds), CSecrets, ReconcileFailed)
      ensures !err ==> s.local == To(old(s.local).(jwt := s.local.jwt, creds := s.local.creds), Check(TJwt))
      ensures !err ==> ctx.Filled(s)
    {
      ghost var l := s.local;
      var jwt, creds;
      err, jwt := ReconcileJwt(s);
      if err { return; }
      err, creds := ReconcileCreds(s);
      if err {
        FailedTwice(s.t, l, jwt, s.local.jwt, s.local.creds);
        return;
      }
      ctx.SecretHash := Credentials.ComputeSecretHash([jwt, creds], ctx.t.crypto.sha256);
      FilledFrom(ctx.t.crypto, ctx.Credentials(), jwt, creds);
    }

    method Healthcheck(s: Session) returns (ready: bool, err: bool)
      requires StandsAt(s, Check(TJwt))
      modifies s
      ensures s.Valid() && (err ==> !ready)
      ensures s.local == Conclude(s.t, old(s.local), CSecrets, VerdictOf(ready, err))
    {
      var r := Inspect(s, TJwt);
      if !r.Ok? { return false, r.Failed?; }
      r := Inspect(s, TCreds);
      if !r.Ok? { return false, r.Failed?; }
      return true, false;
    }
  }

  ghost predicate HoldsJwt(secret: string, anon: string, service: string, jwt: Credentials.Data) {
    && secret == Credentials.Val(jwt, "jwt-secret") && anon == Credentials.Val(jwt, "anon-key")
    && service == Credentials.Val(jwt, "service-role-key")
  }

  lemma FilledFrom(c: Crypto, ctx: Context, jwt: Credentials.Data, creds: Credentials.Data)
    requires HoldsJwt(ctx.jwt, ctx.anon, ctx.service, jwt) && ctx.password == Credentials.Val(creds, "postgres-password")
    requires ctx.hash == c.sha256(Credentials.CombinedStream([jwt, creds]))
    ensures ctx == ContextOf(c, jwt, creds)
  {
  }

  lemma FailedTwice(t: Tenant, l: Local, first: Credentials.Data, jwt: Credentials.Data, creds: Credentials.Data)
    requires l.Pass?
    ensures var m := To(l.(jwt := first), Ensure(TCreds, Look));
            m.Pass? && Conclude(t, m.(jwt := jwt, creds := creds), CSecrets, ReconcileFailed)
                       == Conclude(t, l.(jwt := jwt, creds := creds), CSecrets, ReconcileFailed)
  {
  }

  lemma SecretBuilt(t: Tenant, spec: Spec, parent: Parent, a: Context, b: Context, data: Credentials.Data, x: Target)
    requires x.TJwt? || x.TCreds?
    ensures Desired(t, spec, parent, a, data, x) == Desired(t, spec, parent, b, data, x)
  {
  }

  // ---------------------------------------------------------------- database

  class DatabaseComponent {
    const ctx: TenantContext
    constructor (ctx: TenantContext) ensures this.ctx == ctx { this.ctx := ctx; }

    method Reconcile(s: Session) returns (err: bool)
      requires ctx.Serves(s) && ctx.Filled(s) && StandsAt(s, Ensure(TDatabase, Look))
      modifies s
      ensures s.Valid()
      ensures s.local == if err then Conclude(s.t, old(s.local), CDatabase, ReconcileFailed) else To(old(s.local), Check(TDatabase))
    {
      var c := ctx.Credentials();
      var desiredDB := Desired(ctx.t, ctx.tenant.spec, ctx.parent, c, map[], TDatabase);
      err := CreateIfMissing(s, TDatabase, desiredDB);
      if err { return; }
      var desiredJob := Desired(ctx.t, ctx.tenant.spec, ctx.parent, c, map[], TJob);
      err := CreateIfMissing(s, TJob, desiredJob);
    }

    method Healthcheck(s: Session) returns (ready: bool, err: bool)
      requires StandsAt(s, Check(TDatabase))
      modifies s
      ensures s.Valid() && (err ==> !ready)
      ensures s.local == Conclude(s.t, old(s.local), CDatabase, VerdictOf(ready, err))
      ensures ready ==> JobSucceeded(s.store, KeyOf(s.t, Child(TJob)))
    {
      var r := Inspect(s, TDatabase);
      if !r.Ok? { return false, r.Failed?; }
      if r.obj.DatabaseObj? && r.obj.applied == Some(false) { return false, false; }
      r := Inspect(s, TJob);
      if !r.Ok? { return false, r.Failed?; }
      return r.obj.JobObj? && r.obj.succeeded > 0, false;
    }

    /** Any error of a read, not only "not found", counts as nothing to delete. */
    method RemoveIfFound(s: Session, x: Target) returns (err: bool)
      requires StandsAt(s, Drop(x, Look)) && ErrorMeansGone(x)
      modifies s
      ensures s.Valid()
      ensures s.local == To(old(s.local).(skipped := s.local.skipped), if err then After(10) else AfterDrop(x))
      ensures old(s.local.skipped) ==> s.local.skipped
    {
      var r := LookUpLeft(s, x);
      if r.Ok? {
        var ok := Remove(s, x);
        return !ok;
      }
      return false;
    }

    method Finalize(s: Session) returns (err: bool)
      requires StandsAt(s, Drop(TDatabase, Look))
      modifies s
      ensures s.Valid()
      ensures s.local == To(old(s.local).(skipped := s.local.skipped), if err then After(10) else Drop(TNamespace, Look))
      ensures old(s.local.skipped) ==> s.local.skipped
    {
      err := RemoveIfFound(s, TDatabase);
      if err { return; }
      err := RemoveIfFound(s, TJob);
    }
  }

  ghost predicate JobSucceeded(s: Store, key: Key) {
    key in s && s[key].JobObj? && s[key].succeeded > 0
  }

  // ---------------------------------------------------------------- services

  /** The stored workload finds every credential under its name, and has the preset's replicas. */
  ghost predicate WorkloadWritten(t: Tenant, s: Store, svc: Svc, ctx: Context, preset: Preset) {
    var key := KeyOf(t, Child(TDeploy(svc)));
    && key in s
    && (s[key].DeploymentObj? ==>
          && Wired(t, svc, s[key].deployment.env, KeysOf(ctx)) && s[key].deployment.secretHash == ctx.hash
          && ReplicasFor(preset, s[key].deployment.replicas))
  }

  lemma PlacedWorkload(t: Tenant, s: Store, svc: Svc, ctx: Context, preset: Preset, desired: Obj)
    requires desired.DeploymentObj? && Placed(s, KeyOf(t, Child(TDeploy(svc))), desired, Overwrite(desired))
    requires Wired(t, svc, desired.deployment.env, KeysOf(ctx)) && desired.deployment.secretHash == ctx.hash
    requires ReplicasFor(preset, desired.deployment.replicas)
    ensures WorkloadWritten(t, s, svc, ctx, preset)
  {
    var key := KeyOf(t, Child(TDeploy(svc)));
    if s[key] != desired {
      var cur :| s[key] == Patched(cur, Overwrite(desired));
      assert s[key].DeploymentObj? ==> s[key].deployment == desired.deployment;
    }
  }

  /** The stored service serves the pods of its own deployment. */
  ghost predicate ServiceWritten(t: Tenant, s: Store, svc: Svc) {
    var key := KeyOf(t, Child(TService(svc))); key in s && (s[key].ServiceObj? ==> Serving(t, svc, s[key]))
  }

  lemma PlacedService(t: Tenant, s: Store, svc: Svc, desired: Obj)
    requires Serving(t, svc, desired) && Placed(s, KeyOf(t, Child(TService(svc))), desired, Overwrite(desired))
    ensures ServiceWritten(t, s, svc)
  {
    var key := KeyOf(t, Child(TService(svc)));
    if s[key] != desired { var cur :| s[key] == Patched(cur, Overwrite(desired)); }
  }

  /** The stored deployment has replicas, all of them ready. */
  ghost predicate AllReady(s: Store, key: Key) {
    key in s && s[key].DeploymentObj? && s[key].ready >= 1 && s[key].ready == s[key].deployment.replicas
  }

  class TenantServiceComponent {
    const ctx: TenantContext
    const svc: Svc
    constructor (ctx: TenantContext, svc: Svc) ensures this.ctx == ctx && this.svc == svc { this.ctx, this.svc := ctx, svc; }

    /** Suspended: scales an existing deployment to zero. A read error counts as "no deployment". */
    method Quieten(s: Session) returns (err: bool)
      requires StandsAt(s, Quiesce(svc, Look))
      modifies s
      ensures s.Valid()
      ensures s.local == Conclude(s.t, old(s.local), CService(svc), if err then ReconcileFailed else Healthy)
    {
      var found := LookUpRunning(s, svc);
      if found {
        var ok := ScaleToZero(s, svc);
        return !ok;
      }
      return false;
    }

    method EstablishDeployment(s: Session) returns (err: bool)
      requires ctx.Serves(s) && ctx.Filled(s) && StandsAt(s, Ensure(TDeploy(svc), Look))
      modifies s
      ensures s.Valid()
      ensures s.local == if err then Conclude(s.t, old(s.local), CService(svc), ReconcileFailed) else To(old(s.local), Ensure(TService(svc), Look))
      ensures !err ==> WorkloadWritten(s.t, s.store, svc, ctx.Credentials(), ctx.tenant.spec.preset)
    {
      var c := ctx.Credentials();
      var desiredDeploy := BuildDeployment(ctx.t, ctx.tenant.spec, ctx.parent, c, svc);
      err := CreateOrPatch(s, TDeploy(svc), desiredDeploy, Overwrite(desiredDeploy));
      if !err { PlacedWorkload(ctx.t, s.store, svc, c, ctx.tenant.spec.preset, desiredDeploy); }
    }

    method EstablishService(s: Session) returns (err: bool)
      requires ctx.Serves(s) && ctx.Filled(s) && StandsAt(s, Ensure(TService(svc), Look))
      modifies s
      ensures s.Valid()
      ensures s.local == if err then Conclude(s.t, old(s.local), CService(svc), ReconcileFailed) else To(old(s.local), Check(TDeploy(svc)))
      ensures !err ==> ServiceWritten(s.t, s.store, svc)
    {
      var c := ctx.Credentials();
      var desiredSvc := BuildService(ctx.t, ctx.tenant.spec, ctx.parent, c, svc);
      err := CreateOrPatch(s, TService(svc), desiredSvc, Overwrite(desiredSvc));
      if !err { PlacedService(ctx.t, s.store, svc, desiredSvc); }
    }

    method Establish(s: Session) returns (err: bool)
      requires ctx.Serves(s) && ctx.Filled(s) && StandsAt(s, Ensure(TDeploy(svc), Look))
      modifies s
      ensures s.Valid()
      ensures s.local == if err then Conclude(s.t, old(s.local), CService(svc), ReconcileFailed) else To(old(s.local), Check(TDeploy(svc)))
      ensures !err ==> ServiceWritten(s.t, s.store, svc)
    {
      err := EstablishDeployment(s);
      if err { return; }
      err := EstablishService(s);
    }

    method Reconcile(s: Session) returns (err: bool)
      requires ctx.Serves(s) && ctx.Filled(s) && StandsAt(s, StartOf(CService(svc), ctx.tenant.spec.suspended))
      modifies s
      ensures s.Valid()
      ensures s.local == if err then Conclude(s.t, old(s.local), CService(svc), ReconcileFailed)
                         else if ctx.tenant.spec.suspended then Conclude(s.t, old(s.local), CService(svc), Healthy)
                         else To(old(s.local), Check(TDeploy(svc)))
      ensures !err && !ctx.tenant.spec.suspended ==> ServiceWritten(s.t, s.store, svc)
    {
      if ctx.tenant.spec.suspended { err := Quieten(s); } else { err := Establish(s); }
    }

    method Healthcheck(s: Session) returns (ready: bool, err: bool)
      requires s.Valid() && (!ctx.tenant.spec.suspended ==> StandsAt(s, Check(TDeploy(svc))))
      modifies s
      ensures s.Valid() && (err ==> !ready)
      ensures ctx.tenant.spec.suspended ==> s.local == old(s.local) && ready
      ensures !ctx.tenant.spec.suspended ==> s.local == Conclude(s.t, old(s.local), CService(svc), VerdictOf(ready, err))
      ensures !ctx.tenant.spec.suspended && !err ==> (ready <==> AllReady(s.store, KeyOf(s.t, Child(TDeploy(svc)))))
    {
      if ctx.tenant.spec.suspended { return true, false; }
      var r := Inspect(s, TDeploy(svc));
      if !r.Ok? { return false, r.Failed?; }
      return r.obj.DeploymentObj? && r.obj.ready >= 1 && r.obj.ready == r.obj.deployment.replicas, false;
    }
  }

  // ---------------------------------------------------------------- routing

  /** The stored route is for a host name of the tenant's own, and leads to its services. */
  ghost predicate RouteWritten(t: Tenant, s: Store, domain: string) {
    var key := KeyOf(t, Child(TRoute)); key in s && (s[key].RouteObj? ==> Routed(t, domain, s[key]))
  }

  lemma PlacedRoute(t: Tenant, s: Store, domain: string, desired: Obj)
    requires Routed(t, domain, desired) && Placed(s, KeyOf(t, Child(TRoute)), desired, Overwrite(desired))
    ensures RouteWritten(t, s, domain)
  {
    var key := KeyOf(t, Child(TRoute));
    if s[key] != desired {
      var cur :| s[key] == Patched(cur, Overwrite(desired));
      assert !s[key].RouteObj?;
    }
  }

  class RoutingComponent {
    const ctx: TenantContext
    constructor (ctx: TenantContext) ensures this.ctx == ctx { this.ctx := ctx; }

    method Reconcile(s: Session) returns (err: bool)
      requires ctx.Serves(s) && ctx.Filled(s) && StandsAt(s, StartOf(CRouting, ctx.tenant.spec.suspended))
      modifies s
      ensures s.Valid()
      ensures s.local == if err then Conclude(s.t, old(s.local), CRouting, ReconcileFailed)
                         else if ctx.tenant.spec.suspended then Conclude(s.t, old(s.local), CRouting, Healthy)
                         else To(old(s.local), Check(TRoute))
      ensures !err && !ctx.tenant.spec.suspended ==> RouteWritten(s.t, s.store, ctx.parent.baseDomain)
    {
      if ctx.tenant.spec.suspended {
        err := DeleteHTTPRoute(s);
        return;
      }
      var desired := DesiredRoute();
      err := CreateOrPatch(s, TRoute, desired, Overwrite(desired));
      if !err { PlacedRoute(ctx.t, s.store, ctx.parent.baseDomain, desired); }
    }

    method DesiredRoute() returns (o: Obj)
      ensures o == Desired(ctx.t, ctx.tenant.spec, ctx.parent, ctx.Credentials(), map[], TRoute) && Overwritable(o)
      ensures Routed(ctx.t, ctx.parent.baseDomain, o)
    {
      o := BuildHTTPRoute(ctx.t, ctx.parent);
      RouteBuilt(ctx.t, ctx.tenant.spec, ctx.parent, ctx.Credentials());
    }

    method DeleteHTTPRoute(s: Session) returns (err: bool)
      requires StandsAt(s, Unroute(Look))
      modifies s
      ensures s.Valid()
      ensures s.local == Conclude(s.t, old(s.local), CRouting, if err then ReconcileFailed else Healthy)
    {
      var r := LookUpRoute(s);
      if !r.Ok? { return r.Failed?; }
      var ok := DeleteRoute(s);
      return !ok;
    }

    method Healthcheck(s: Session) returns (ready: bool, err: bool)
      requires s.Valid() && (!ctx.tenant.spec.suspended ==> StandsAt(s, Check(TRoute)))
      modifies s
      ensures s.Valid() && (err ==> !ready)
      ensures ctx.tenant.spec.suspended ==> s.local == old(s.local) && ready
      ensures !ctx.tenant.spec.suspended ==> s.local == Conclude(s.t, old(s.local), CRouting, VerdictOf(ready, err))
      ensures !ctx.tenant.spec.suspended && !err ==> (ready <==> KeyOf(s.t, Child(TRoute)) in s.store)
    {
      if ctx.tenant.spec.suspended { return true, false; }
      var r := Inspect(s, TRoute);
      if !r.Ok? { return false, r.Failed?; }
      return true, false;
    }

    method Finalize(s: Session) returns (err: bool)
      requires StandsAt(s, Drop(TRoute, Look))
      modifies s
      ensures s.Valid()
      ensures s.local == To(old(s.local), if err then After(10) else Drop(TDatabase, Look))
    {
      var r := LookUpLeft(s, TRoute);
      if !r.Ok? { return r.Failed?; }
      var ok := Remove(s, TRoute);
      return !ok;
    }
  }

  lemma RouteBuilt(t: Tenant, spec: Spec, parent: Parent, ctx: Context)
    ensures Desired(t, spec, parent, ctx, map[], TRoute) == RouteObj(PartLabels(t, "routing"), WantedRoute(t, parent))
  {
  }
}
