/** A tenant's identity, the names of its objects, and the contents that the operator wants them to have. */
module Tenants {
  import opened Options
  import opened Objects
  import Credentials
  import Dsn

  /** Hashing and signing are parameters: any functions of the exact bytes. */
  datatype Crypto = Crypto(sha256: string -> string, sign: (string, string, int) -> string)

  /** What never changes about a tenant: its `tenantId`, the name of its parent Supabase resource, the
      platform namespace that holds parent and custom resource, and the name of the custom resource. */
  datatype Tenant = Tenant(id: string, parent: string, platform: string, cr: string, crypto: Crypto)

  // ---------------------------------------------------------------- names

  datatype Kind =
    | KNamespace | KPolicy | KSecret | KDatabase | KJob | KDeployment | KService | KRoute | KTenant | KSupabase | KConfigMap

  datatype Key = Key(kind: Kind, namespace: string, name: string)

  function NamespaceName(t: Tenant): string { "supabase-" + t.id }
  function DatabaseHost(t: Tenant): string { t.parent + "-db-rw." + t.platform + ".svc.cluster.local" }
  function ClusterName(t: Tenant): string { t.parent + "-db" }
  function DatabaseObjName(t: Tenant): string { t.parent + "-db-" + t.id }
  function JobName(t: Tenant): string { t.parent + "-db-init-" + t.id }
  function RouteName(t: Tenant): string { t.id + "-routes" }
  function JwtName(t: Tenant): string { t.id + "-jwt" }
  function CredsName(t: Tenant): string { t.id + "-db-credentials" }

  function SvcName(svc: Svc): string {
    match svc
    case Auth => "auth"
    case Rest => "rest"
    case Realtime => "realtime"
    case Storage => "storage"
    case Functions => "functions"
  }

  function SvcPort(svc: Svc): int {
    match svc
    case Auth => 9999
    case Rest => 3000
    case Realtime => 4000
    case Storage => 5000
    case Functions => 9000
  }

  function ResourceName(t: Tenant, svc: Svc): string { t.id + "-" + SvcName(svc) }

  function KeyOf(t: Tenant, slot: Slot): Key {
    match slot
    case Claim => Key(KTenant, t.platform, t.cr)
    case ParentSlot => Key(KSupabase, t.platform, t.parent)
    case Platform => Key(KNamespace, "", t.platform)
    case Child(TNamespace) => Key(KNamespace, "", NamespaceName(t))
    case Child(TPolicy) => Key(KPolicy, NamespaceName(t), "deny-cross-tenant")
    case Child(TJwt) => Key(KSecret, NamespaceName(t), JwtName(t))
    case Child(TCreds) => Key(KSecret, NamespaceName(t), CredsName(t))
    case Child(TDatabase) => Key(KDatabase, t.platform, DatabaseObjName(t))
    case Child(TJob) => Key(KJob, t.platform, JobName(t))
    case Child(TDeploy(svc)) => Key(KDeployment, NamespaceName(t), ResourceName(t, svc))
    case Child(TService(svc)) => Key(KService, NamespaceName(t), ResourceName(t, svc))
    case Child(TRoute) => Key(KRoute, t.platform, RouteName(t))
  }

  /** The objects that live inside the tenant's namespace, and go when it goes. */
  predicate Inside(x: Target) {
    x.TPolicy? || x.TJwt? || x.TCreds? || x.TDeploy? || x.TService?
  }

  /** The namespace that has to be open for an object to be created; none for a namespace itself. */
  function HolderOf(slot: Slot): Option<Slot> {
    match slot
    case Platform => None
    case Child(TNamespace) => None
    case Child(x) => if Inside(x) then Some(Child(TNamespace)) else Some(Platform)
    case _ => Some(Platform)
  }

  // ---------------------------------------------------------------- secrets

  /** The material drawn from the random source and the clock for one step; `drawn` is false when the source fails. */
  datatype Luck = Luck(
    drawn: bool, jwt: string, anonAt: int, serviceAt: int,
    postgres: string, authenticator: string, authAdmin: string, storageAdmin: string)

  function JwtData(c: Crypto, luck: Luck): Credentials.Data {
    map["jwt-secret" := luck.jwt,
        "anon-key" := c.sign(luck.jwt, "anon", luck.anonAt),
        "service-role-key" := c.sign(luck.jwt, "service_role", luck.serviceAt)]
  }

  function CredsData(luck: Luck): Credentials.Data {
    map["postgres-password" := luck.postgres,
        "authenticator-password" := luck.authenticator,
        "auth-admin-password" := luck.authAdmin,
        "storage-admin-password" := luck.storageAdmin]
  }

  /** The credentials that one pass hands from the secrets to everything downstream. */
  datatype Context = Context(jwt: string, anon: string, service: string, password: string, hash: string)

  ghost function ContextOf(c: Crypto, jwt: Credentials.Data, creds: Credentials.Data): Context {
    Context(Credentials.Val(jwt, "jwt-secret"), Credentials.Val(jwt, "anon-key"), Credentials.Val(jwt, "service-role-key"),
            Credentials.Val(creds, "postgres-password"), c.sha256(Credentials.CombinedStream([jwt, creds])))
  }

  // ---------------------------------------------------------------- wanted contents

  function Replicas(p: Preset): int {
    match p
    case Small => 1
    case Medium => 2
    case Large => 3
    case Custom => 1
  }

  function UrlFor(t: Tenant, ctx: Context, user: string): string {
    Dsn.DatabaseDSN(user, ctx.password, DatabaseHost(t), "5432", t.id)
  }

  /** The database role as which a service connects. */
  function RoleOf(svc: Svc): string {
    match svc
    case Auth => "supabase_auth_admin"
    case Rest => "authenticator"
    case Realtime => "supabase_admin"
    case Storage => "supabase_storage_admin"
    case Functions => "postgres"
  }

  /** The environment variables that carry credentials or lead to the database, given the connection string. */
  function EnvWith(t: Tenant, ctx: Context, svc: Svc, url: string): map<string, string> {
    match svc
    case Auth => map["GOTRUE_DB_DATABASE_URL" := url, "GOTRUE_JWT_SECRET" := ctx.jwt]
    case Rest => map["PGRST_DB_URI" := url, "PGRST_JWT_SECRET" := ctx.jwt, "PGRST_APP_SETTINGS_JWT_SECRET" := ctx.jwt]
    case Realtime => map["DB_HOST" := DatabaseHost(t), "DB_PORT" := "5432", "DB_USER" := RoleOf(svc),
                         "DB_PASSWORD" := ctx.password, "DB_NAME" := t.id,
                         "API_JWT_SECRET" := ctx.jwt, "SECRET_KEY_BASE" := ctx.jwt]
    case Storage => map["ANON_KEY" := ctx.anon, "SERVICE_KEY" := ctx.service, "AUTH_JWT_SECRET" := ctx.jwt, "DATABASE_URL" := url]
    case Functions => map["JWT_SECRET" := ctx.jwt, "SUPABASE_ANON_KEY" := ctx.anon,
                          "SUPABASE_SERVICE_ROLE_KEY" := ctx.service, "SUPABASE_DB_URL" := url]
  }

  function CredentialEnv(t: Tenant, ctx: Context, svc: Svc): map<string, string> {
    EnvWith(t, ctx, svc, UrlFor(t, ctx, RoleOf(svc)))
  }

  function TenantSelector(t: Tenant, svc: Svc): Labels {
    SelectorLabels(t.parent, SvcName(svc))[LABEL_TENANT := t.id]
  }

  /** Later maps win; the order within one map does not matter. */
  function Merged(maps: seq<Labels>): Labels {
    if |maps| == 0 then map[] else Merged(maps[..|maps| - 1]) + maps[|maps| - 1]
  }

  function Endpoint(t: Tenant, parent: Parent): string { t.id + "." + parent.baseDomain }

  function WantedDeployment(t: Tenant, spec: Spec, parent: Parent, ctx: Context, svc: Svc): DeploymentSpec {
    DeploymentSpec(
      Replicas(spec.preset), TenantSelector(t, svc),
      Merged([TenantSelector(t, svc), TenantLabels(t.parent, t.id, SvcName(svc))]),
      ctx.hash, SvcPort(svc), CredentialEnv(t, ctx, svc),
      if svc.Auth? || svc.Functions? then "https://" + Endpoint(t, parent) else "", spec.settings)
  }

  function WantedPorts(svc: Svc): seq<Port> { [Port("http", SvcPort(svc), SvcPort(svc))] }

  function WantedRule(t: Tenant, svc: Svc): Rule {
    Rule("/" + SvcName(svc) + "/v1", ResourceName(t, svc), NamespaceName(t), SvcPort(svc))
  }

  const SERVICES: seq<Svc> := [Auth, Rest, Realtime, Storage, Functions]

  function WantedRules(t: Tenant, n: nat): seq<Rule>
    requires n <= 5
  {
    if n == 0 then [] else WantedRules(t, n - 1) + [WantedRule(t, SERVICES[n - 1])]
  }

  function WantedRoute(t: Tenant, parent: Parent): RouteSpec {
    RouteSpec(t.parent + "-gateway", t.platform, Endpoint(t, parent), WantedRules(t, 5))
  }

  function WantedJob(t: Tenant, parent: Parent, ctx: Context): JobSpec {
    JobSpec(if parent.image == "" then "supabase/postgres:15.8.1.085" else parent.image,
            DatabaseHost(t), "5432", t.id,
            InitParams(t.id, ctx.jwt, ctx.password, ctx.password, ctx.password), ctx.password)
  }

  function PartLabels(t: Tenant, part: string): Labels { TenantLabels(t.parent, t.id, part) }

  /** The object that a pass creates when it finds none. The two secrets take their drawn data as it is. */
  function Desired(t: Tenant, spec: Spec, parent: Parent, ctx: Context, data: Credentials.Data, x: Target): Obj {
    match x
    case TNamespace => NamespaceObj(PartLabels(t, "namespace"), Pending)
    case TPolicy => PolicyObj(PartLabels(t, "namespace"), t.platform)
    case TJwt => SecretObj(PartLabels(t, "secrets"), data)
    case TCreds => SecretObj(PartLabels(t, "secrets"), data)
    case TDatabase => DatabaseObj(PartLabels(t, "database"), t.id, ClusterName(t), None)
    case TJob => JobObj(PartLabels(t, "database"), WantedJob(t, parent, ctx), 0)
    case TDeploy(svc) => DeploymentObj(PartLabels(t, SvcName(svc)), WantedDeployment(t, spec, parent, ctx, svc), 0)
    case TService(svc) => ServiceObj(PartLabels(t, SvcName(svc)), WantedPorts(svc), TenantSelector(t, svc), "")
    case TRoute => RouteObj(PartLabels(t, "routing"), WantedRoute(t, parent))
  }

  /** Deployments, services and the route are brought up to date when they exist; the rest is create-only. */
  predicate Mended(x: Target) {
    x.TDeploy? || x.TService? || x.TRoute?
  }

  function Mending(t: Tenant, spec: Spec, parent: Parent, ctx: Context, x: Target): Patch
    requires Mended(x)
  {
    Overwrite(Desired(t, spec, parent, ctx, map[], x))
  }
}
