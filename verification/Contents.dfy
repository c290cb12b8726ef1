/** What written objects mean to those who read them: which variable holds which credential, where a connection
    string leads, which pods a service serves, where a route leads. The meanings do not refer to how the operator
    puts the objects together. */
module Contents {
  import opened Options
  import opened Objects
  import opened Tenants
  import Credentials
  import Dsn

  /** Names that have no meaning of their own inside a connection string. */
  ghost predicate Nameable(t: Tenant) {
    Dsn.Plain(t.id) && Dsn.Plain(t.parent) && Dsn.Plain(t.platform)
  }

  predicate Holds(env: map<string, string>, name: string, value: string) {
    name in env && env[name] == value
  }

  /** A reader of the text, after RFC 3986, connects to the tenant's database on the platform's cluster; as this
      role with this password exactly when the password holds no blank. */
  ghost predicate Leads(t: Tenant, text: string, role: string, password: string) {
    Nameable(t) && Dsn.Bytes(password) ==>
      var uri := Dsn.ParseUri(text);
      var host := t.parent + "-db-rw." + t.platform + ".svc.cluster.local";
      && uri.Some?
      && (uri.value == Dsn.Uri("postgres", role, password, host, "5432", "/" + t.id, "sslmode=disable") <==> ' ' !in password)
      && uri.value.host == host && uri.value.port == "5432" && uri.value.path == "/" + t.id
  }

  ghost predicate Connects(t: Tenant, env: map<string, string>, name: string, role: string, password: string) {
    name in env && Leads(t, env[name], role, password)
  }

  /** The signing key, the tokens for the roles "anon" and "service_role", and the database password. */
  datatype Keys = Keys(secret: string, anon: string, service: string, password: string)

  /** What the two secrets hold. */
  function KeysIn(jwt: Credentials.Data, creds: Credentials.Data): Keys {
    Keys(Credentials.Val(jwt, "jwt-secret"), Credentials.Val(jwt, "anon-key"), Credentials.Val(jwt, "service-role-key"),
         Credentials.Val(creds, "postgres-password"))
  }

  /** Every service finds every credential under the name by which it looks for it. */
  ghost predicate Wired(t: Tenant, svc: Svc, env: map<string, string>, k: Keys) {
    match svc
    case Auth =>
      && Holds(env, "GOTRUE_JWT_SECRET", k.secret)
      && Connects(t, env, "GOTRUE_DB_DATABASE_URL", "supabase_auth_admin", k.password)
    case Rest =>
      && Holds(env, "PGRST_JWT_SECRET", k.secret) && Holds(env, "PGRST_APP_SETTINGS_JWT_SECRET", k.secret)
      && Connects(t, env, "PGRST_DB_URI", "authenticator", k.password)
    case Realtime =>
      && Holds(env, "API_JWT_SECRET", k.secret) && Holds(env, "SECRET_KEY_BASE", k.secret)
      && Holds(env, "DB_HOST", t.parent + "-db-rw." + t.platform + ".svc.cluster.local") && Holds(env, "DB_PORT", "5432")
      && Holds(env, "DB_USER", "supabase_admin") && Holds(env, "DB_PASSWORD", k.password) && Holds(env, "DB_NAME", t.id)
    case Storage =>
      && Holds(env, "ANON_KEY", k.anon) && Holds(env, "SERVICE_KEY", k.service) && Holds(env, "AUTH_JWT_SECRET", k.secret)
      && Connects(t, env, "DATABASE_URL", "supabase_storage_admin", k.password)
    case Functions =>
      && Holds(env, "SUPABASE_ANON_KEY", k.anon) && Holds(env, "SUPABASE_SERVICE_ROLE_KEY", k.service)
      && Holds(env, "JWT_SECRET", k.secret)
      && Connects(t, env, "SUPABASE_DB_URL", "postgres", k.password)
  }

  // ---------------------------------------------------------------- services and routes

  /** The port on which a service listens. */
  function PortOf(svc: Svc): int {
    match svc
    case Auth => 9999
    case Rest => 3000
    case Realtime => 4000
    case Storage => 5000
    case Functions => 9000
  }

  /** A service object that serves the tenant's pods of one service, on its port. */
  ghost predicate Serving(t: Tenant, svc: Svc, o: Obj) {
    && o.ServiceObj? && o.ports == [Port("http", PortOf(svc), PortOf(svc))]
    && o.selector.Keys == {LABEL_INSTANCE, LABEL_COMPONENT, LABEL_TENANT}
    && o.selector[LABEL_INSTANCE] == t.parent && o.selector[LABEL_COMPONENT] == SvcName(svc) && o.selector[LABEL_TENANT] == t.id
  }

  /** The service object that a rule points at. */
  function BackendKey(r: Rule): Key { Key(KService, r.namespace, r.service) }

  /** The paths under which a service is reached. */
  function PathOf(svc: Svc): string {
    match svc
    case Auth => "/auth/v1"
    case Rest => "/rest/v1"
    case Realtime => "/realtime/v1"
    case Storage => "/storage/v1"
    case Functions => "/functions/v1"
  }

  /** Prefix matching of the gateway: whole path elements. */
  predicate PathMatches(prefix: string, path: string) {
    prefix <= path && (|path| == |prefix| || path[|prefix|] == '/')
  }

  predicate BothMatch(a: Rule, b: Rule, path: string) {
    PathMatches(a.pathPrefix, path) && PathMatches(b.pathPrefix, path)
  }

  /** No request path falls under two of the rules. */
  ghost predicate Apart(rules: seq<Rule>) {
    forall a, b, path :: 0 <= a < |rules| && 0 <= b < |rules| && BothMatch(rules[a], rules[b], path) ==> a == b
  }

  /** A route for a host name of the tenant's own, with a rule for each service. */
  ghost predicate Routed(t: Tenant, domain: string, o: Obj) {
    && o.RouteObj? && o.route.hostname == t.id + "." + domain && Apart(o.route.rules)
    && forall svc :: HasRule(t, o.route.rules, svc)
  }

  ghost predicate HasRule(t: Tenant, rules: seq<Rule>, svc: Svc) {
    exists rule :: rule in rules && Forwards(t, rule, svc)
  }

  ghost predicate Forwards(t: Tenant, rule: Rule, svc: Svc) {
    rule.pathPrefix == PathOf(svc) && BackendKey(rule) == KeyOf(t, Child(TService(svc))) && rule.port == PortOf(svc)
  }

  /** The number of replicas that a preset stands for. */
  predicate ReplicasFor(p: Preset, n: int) {
    match p
    case Small => n == 1
    case Medium => n == 2
    case Large => n == 3
    case Custom => n == 1
  }

  // ---------------------------------------------------------------- the environments that the operator writes

  lemma PlainHost(t: Tenant)
    requires Nameable(t)
    ensures Dsn.Plain(DatabaseHost(t)) && Dsn.Plain("5432")
  {
  }

  lemma UrlLeads(t: Tenant, ctx: Context, role: string)
    requires Dsn.Bytes(role) && ' ' !in role
    ensures Leads(t, UrlFor(t, ctx, role), role, ctx.password)
  {
    if Nameable(t) && Dsn.Bytes(ctx.password) {
      PlainHost(t);
      Dsn.DsnRoundTrip(role, ctx.password, DatabaseHost(t), "5432", t.id);
    }
  }

  function KeysOf(ctx: Context): Keys { Keys(ctx.jwt, ctx.anon, ctx.service, ctx.password) }

  lemma RoleBytes(svc: Svc)
    ensures Dsn.Bytes(RoleOf(svc))
  {
  }

  lemma RoleBlankless(svc: Svc)
    ensures ' ' !in RoleOf(svc)
  {
  }

  lemma EnvWithWired(t: Tenant, ctx: Context, svc: Svc, url: string)
    requires Leads(t, url, RoleOf(svc), ctx.password)
    ensures Wired(t, svc, EnvWith(t, ctx, svc, url), KeysOf(ctx))
  {
  }

  /** Whatever the service, its environment is wired. */
  lemma EnvWired(t: Tenant, ctx: Context, svc: Svc)
    ensures Wired(t, svc, CredentialEnv(t, ctx, svc), KeysOf(ctx))
  {
    RoleBytes(svc);
    RoleBlankless(svc);
    UrlLeads(t, ctx, RoleOf(svc));
    EnvWithWired(t, ctx, svc, UrlFor(t, ctx, RoleOf(svc)));
  }

  /** What a deployment carries: every credential under its name, and the digest of both secrets. */
  ghost predicate CarriesKeys(t: Tenant, svc: Svc, d: DeploymentSpec, jwt: Credentials.Data, creds: Credentials.Data) {
    && Wired(t, svc, d.env, KeysIn(jwt, creds))
    && d.secretHash == t.crypto.sha256(Credentials.CombinedStream([jwt, creds]))
  }

  lemma ContextCarries(t: Tenant, svc: Svc, d: DeploymentSpec, jwt: Credentials.Data, creds: Credentials.Data, ctx: Context)
    requires ctx == ContextOf(t.crypto, jwt, creds) && d.env == CredentialEnv(t, ctx, svc) && d.secretHash == ctx.hash
    ensures CarriesKeys(t, svc, d, jwt, creds)
  {
    EnvWired(t, ctx, svc);
    KeysOfContext(t.crypto, jwt, creds);
  }

  lemma KeysOfContext(c: Crypto, jwt: Credentials.Data, creds: Credentials.Data)
    ensures KeysOf(ContextOf(c, jwt, creds)) == KeysIn(jwt, creds)
    ensures ContextOf(c, jwt, creds).hash == c.sha256(Credentials.CombinedStream([jwt, creds]))
  {
  }
}
