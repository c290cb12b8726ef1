/** The two entry points of the tenant controller. They are proved to make exactly the calls of the machine
    and to end as it does, in any world of faults and interference. */
module Reconciler {
  import opened Options
  import opened Objects
  import opened Tenants
  import opened Machine
  import opened Sessions
  import opened Calls
  import opened Components

  // ---------------------------------------------------------------- one component

  function CheckOf(c: Component): PC {
    match c
    case CNamespace => Check(TNamespace)
    case CSecrets => Check(TJwt)
    case CDatabase => Check(TDatabase)
    case CService(svc) => Check(TDeploy(svc))
    case CRouting => Check(TRoute)
  }

  /** A suspended workload is healthy without a check. */
  predicate OffDuty(c: Component, suspended: bool) {
    suspended && (c.CService? || c.CRouting?)
  }

  /** Components behind the secrets work with the credentials. */
  predicate Downstream(c: Component) {
    !c.CNamespace? && !c.CSecrets?
  }

  ghost function Learned(l: Local, m: Local): (r: Local)
    requires l.Pass? && m.Pass?
    ensures r.Pass?
  {
    l.(jwt := m.jwt, creds := m.creds)
  }

  ghost predicate Attended(ctx: TenantContext, s: Session, c: Component)
    reads ctx, s
  {
    ctx.Serves(s) && StandsAt(s, StartOf(c, ctx.tenant.spec.suspended)) && (Downstream(c) ==> ctx.Filled(s))
  }

  /** Only the secrets change what a pass has learned. */
  lemma NothingLearned(t: Tenant, l: Local, c: Component, v: Verdict, pc: PC)
    requires l.Pass?
    ensures Learned(l, Conclude(t, l, c, v)) == l && Learned(l, To(l, pc)) == l
  {
  }

  method ReconcileWorkload(s: Session, ctx: TenantContext, c: Component) returns (err: bool)
    requires Attended(ctx, s, c) && (c.CService? || c.CRouting?)
    modifies s
    ensures s.Valid() && ctx.Filled(s)
    ensures s.local == if err then Conclude(s.t, old(s.local), c, ReconcileFailed)
                       else if ctx.tenant.spec.suspended then Conclude(s.t, old(s.local), c, Healthy)
                       else To(old(s.local), CheckOf(c))
  {
    if c.CService? {
      var comp := new TenantServiceComponent(ctx, c.svc);
      err := comp.Reconcile(s);
    } else {
      var comp := new RoutingComponent(ctx);
      err := comp.Reconcile(s);
    }
  }

  method ReconcileComponent(s: Session, ctx: TenantContext, c: Component) returns (err: bool)
    requires Attended(ctx, s, c)
    modifies s, ctx`JWTSecret, ctx`AnonKey, ctx`ServiceRoleKey, ctx`DatabasePassword, ctx`SecretHash
    ensures s.Valid()
    ensures err ==> s.local == Conclude(s.t, Learned(old(s.local), s.local), c, ReconcileFailed)
    ensures !err && OffDuty(c, ctx.tenant.spec.suspended) ==> s.local == Conclude(s.t, old(s.local), c, Healthy)
    ensures !err && !OffDuty(c, ctx.tenant.spec.suspended) ==> s.local == To(Learned(old(s.local), s.local), CheckOf(c))
    ensures !c.CNamespace? && !err ==> ctx.Filled(s)
    ensures Downstream(c) ==> ctx.Filled(s)
  {
    ghost var l := s.local;
    NothingLearned(s.t, l, c, ReconcileFailed, CheckOf(c));
    match c
    case CNamespace =>
      var comp := new NamespaceComponent(ctx);
      err := comp.Reconcile(s);
    case CSecrets =>
      var comp := new SecretComponent(ctx);
      err := comp.Reconcile(s);
    case CDatabase =>
      var comp := new DatabaseComponent(ctx);
      err := comp.Reconcile(s);
    case _ =>
      err := ReconcileWorkload(s, ctx, c);
  }

  method HealthcheckComponent(s: Session, ctx: TenantContext, c: Component) returns (ready: bool, err: bool)
    requires s.Valid() && (!OffDuty(c, ctx.tenant.spec.suspended) ==> StandsAt(s, CheckOf(c)))
    modifies s
    ensures s.Valid() && (err ==> !ready)
    ensures OffDuty(c, ctx.tenant.spec.suspended) ==> s.local == old(s.local) && ready
    ensures !OffDuty(c, ctx.tenant.spec.suspended) ==> s.local == Conclude(s.t, old(s.local), c, VerdictOf(ready, err))
  {
    match c
    case CNamespace =>
      var comp := new NamespaceComponent(ctx);
      ready, err := comp.Healthcheck(s);
    case CSecrets =>
      var comp := new SecretComponent(ctx);
      ready, err := comp.Healthcheck(s);
    case CDatabase =>
      var comp := new DatabaseComponent(ctx);
      ready, err := comp.Healthcheck(s);
    case CService(svc) =>
      var comp := new TenantServiceComponent(ctx, svc);
      ready, err := comp.Healthcheck(s);
    case CRouting =>
      var comp := new RoutingComponent(ctx);
      ready, err := comp.Healthcheck(s);
  }

  function Judged(kind: Component, v: Verdict, generation: int): Condition {
    Condition(Of(kind), v.Healthy?, ReasonOf(v), generation)
  }

  /** What concluding a component leaves in the pass. */
  lemma Concluded(t: Tenant, l: Local, c: Component, v: Verdict)
    requires l.Pass?
    ensures var m := Conclude(t, l, c, v);
      && m.cr == l.cr && m.parent == l.parent && m.jwt == l.jwt && m.creds == l.creds
      && m.status.conditions == SetCondition(l.status.conditions, Judged(c, v, l.cr.generation))
  {
  }

  lemma ConcludedAgain(t: Tenant, l: Local, m: Local, c: Component, v: Verdict)
    requires l.Pass? && m.Pass?
    ensures Conclude(t, To(Learned(l, m), CheckOf(c)), c, v) == Conclude(t, Learned(l, m), c, v)
  {
  }

  method SetStatusCondition(ctx: TenantContext, c: Component, holds: bool, reason: Reason)
    modifies ctx`status
    ensures ctx.status == old(ctx.status).(conditions :=
      SetCondition(old(ctx.status).conditions, Condition(Of(c), holds, reason, ctx.tenant.generation)))
  {
    ctx.status := ctx.status.(conditions := SetCondition(ctx.status.conditions, Condition(Of(c), holds, reason, ctx.tenant.generation)));
  }

  /** The component has been reconciled: checks its health, and records the outcome in memory. */
  method Assess(s: Session, ctx: TenantContext, c: Component, ghost l: Local) returns (ready: bool, hasErr: bool, ghost v: Verdict)
    requires s.Valid() && ctx.Serves(s) && l.Pass? && ctx.status == l.status && l.cr == ctx.tenant
    requires if OffDuty(c, ctx.tenant.spec.suspended) then s.local == Conclude(s.t, l, c, Healthy) else s.local == To(l, CheckOf(c))
    modifies s, ctx`status
    ensures s.Valid() && s.local == Conclude(s.t, l, c, v)
    ensures ready == v.Healthy? && (hasErr ==> !ready)
    ensures ctx.status == Recorded(l, c, v).status
  {
    ready, hasErr := HealthcheckComponent(s, ctx, c);
    v := VerdictOf(ready, hasErr);
    if !OffDuty(c, ctx.tenant.spec.suspended) { ConcludedAgain(s.t, l, l, c, v); }
    SetStatusCondition(ctx, c, ready, if hasErr then HealthcheckError else if ready then IsReady else NotReady);
  }

  /** Reconciles a component, checks its health, and records its condition in memory. */
  method ReconcileTenantComponent(s: Session, ctx: TenantContext, c: Component)
    returns (ready: bool, hasErr: bool, ghost v: Verdict)
    requires Attended(ctx, s, c) && ctx.status == s.local.status
    modifies s, ctx
    ensures s.Valid() && ctx.Serves(s)
    ensures s.local == Conclude(s.t, Learned(old(s.local), s.local), c, v)
    ensures ready == v.Healthy? && (hasErr ==> !ready)
    ensures ctx.status == Recorded(old(s.local), c, v).status
    ensures (Downstream(c) || (c.CSecrets? && ready)) ==> ctx.Filled(s)
  {
    ghost var l := s.local;
    var err := ReconcileComponent(s, ctx, c);
    ghost var m := Learned(l, s.local);
    Concluded(s.t, m, c, ReconcileFailed);
    if err {
      SetStatusCondition(ctx, c, false, ReconcileError);
      return false, true, ReconcileFailed;
    }
    ready, hasErr, v := Assess(s, ctx, c, m);
    Concluded(s.t, m, c, v);
  }

  // ---------------------------------------------------------------- the phases of a pass

  const PREREQUISITES: seq<Component> := [CNamespace, CSecrets, CDatabase]

  /** A pass that is about to turn to a component, with its memory and its status in step. */
  ghost predicate AboutTo(ctx: TenantContext, s: Session, c: Component)
    reads ctx, s
  {
    Attended(ctx, s, c) && ctx.status == s.local.status
  }

  /** What concluding a prerequisite means for the way on. */
  lemma PrerequisiteGoesOn(t: Tenant, l: Local, c: Component, v: Verdict)
    requires l.Pass? && Prerequisite(c)
    ensures var m := Conclude(t, l, c, v);
      && m.cr == l.cr && m.parent == l.parent
      && (v.Healthy? ==> m.pc == StartOf(NextComponent(c), l.cr.spec.suspended) && m.status == Recorded(l, c, v).status
                         && m.servicesReady == l.servicesReady)
      && (!v.Healthy? ==> m.pc == Park && m.status == Recorded(l, c, v).status.(phase := Provisioning, observed := l.cr.generation))
  {
  }

  lemma ServiceGoesOn(t: Tenant, l: Local, svc: Svc, v: Verdict)
    requires l.Pass?
    ensures var m, c := Conclude(t, l, CService(svc), v), CService(svc);
      && m.cr == l.cr && m.parent == l.parent && m.pc == StartOf(NextComponent(c), l.cr.spec.suspended)
      && m.status == Recorded(l, c, v).status && m.servicesReady == (l.servicesReady && v.Healthy?)
  {
  }

  predicate Prerequisite(c: Component) { c.CNamespace? || c.CSecrets? || c.CDatabase? }

  ghost predicate ParkedAt(ctx: TenantContext, s: Session)
    reads ctx, s
  {
    s.Valid() && s.local.pc == Park && s.local.status == ctx.status.(phase := Provisioning, observed := ctx.tenant.generation)
  }

  method ReconcilePrerequisite(s: Session, ctx: TenantContext, c: Component) returns (ok: bool)
    requires AboutTo(ctx, s, c) && Prerequisite(c)
    modifies s, ctx
    ensures if ok then AboutTo(ctx, s, NextComponent(c)) && s.local.servicesReady == old(s.local.servicesReady) else ParkedAt(ctx, s)
  {
    ghost var l := s.local;
    var ready, hasErr, v := ReconcileTenantComponent(s, ctx, c);
    PrerequisiteGoesOn(s.t, Learned(l, s.local), c, v);
    return !hasErr && ready;
  }

  method ReconcileService(s: Session, ctx: TenantContext, c: Component) returns (ready: bool)
    requires AboutTo(ctx, s, c) && c.CService?
    modifies s, ctx
    ensures AboutTo(ctx, s, NextComponent(c)) && s.local.servicesReady == (old(s.local.servicesReady) && ready)
  {
    ghost var l := s.local;
    var hasErr;
    ghost var v;
    ready, hasErr, v := ReconcileTenantComponent(s, ctx, c);
    ServiceGoesOn(s.t, Learned(l, s.local), c.svc, v);
    assert s.local.pc == StartOf(NextComponent(c), ctx.tenant.spec.suspended);
  }

  /** Prerequisites one after the other; the first that is not ready ends the pass. */
  method ReconcilePrerequisites(s: Session, ctx: TenantContext) returns (ok: bool)
    requires AboutTo(ctx, s, CNamespace)
    modifies s, ctx
    ensures if ok then AboutTo(ctx, s, CService(Auth)) && s.local.servicesReady == old(s.local.servicesReady) else ParkedAt(ctx, s)
  {
    ghost var c := CNamespace;
    var i := 0;
    while i < |PREREQUISITES|
      invariant 0 <= i <= 3 && c == NthPrerequisite(i)
      invariant AboutTo(ctx, s, c) && s.local.servicesReady == old(s.local.servicesReady)
    {
      ok := ReconcilePrerequisite(s, ctx, PREREQUISITES[i]);
      if !ok { return; }
      c := NextComponent(c);
      i := i + 1;
    }
    ok := true;
  }

  function NthPrerequisite(i: nat): (c: Component)
    ensures i < 3 ==> c == PREREQUISITES[i] && Prerequisite(c)
  {
    if i == 0 then CNamespace else if i == 1 then CSecrets else if i == 2 then CDatabase else CService(Auth)
  }

  function NthService(i: nat): (c: Component)
    ensures if i < 5 then c == CService(SERVICES[i]) else c == CRouting
  {
    if i == 0 then CService(Auth) else if i == 1 then CService(Rest) else if i == 2 then CService(Realtime)
    else if i == 3 then CService(Storage) else if i == 4 then CService(Functions) else CRouting
  }

  ghost predicate AtService(ctx: TenantContext, s: Session, c: Component, all: bool)
    reads ctx, s
  {
    AboutTo(ctx, s, c) && all == s.local.servicesReady
  }

  method NextService(s: Session, ctx: TenantContext, c: Component, soFar: bool) returns (all: bool)
    requires AtService(ctx, s, c, soFar) && c.CService?
    modifies s, ctx
    ensures AtService(ctx, s, NextComponent(c), all)
  {
    var ready := ReconcileService(s, ctx, c);
    all := if !ready then false else soFar;
  }

  lemma NthServiceNext(i: nat)
    requires i < 5
    ensures NextComponent(NthService(i)) == NthService(i + 1)
  {
  }

  /** All services, whatever becomes of each. */
  method ReconcileServices(s: Session, ctx: TenantContext) returns (allServicesReady: bool)
    requires AboutTo(ctx, s, CService(Auth)) && s.local.servicesReady
    modifies s, ctx
    ensures AtService(ctx, s, CRouting, allServicesReady)
  {
    allServicesReady := true;
    ghost var c := CService(Auth);
    var i := 0;
    while i < |SERVICES|
      invariant 0 <= i <= 5 && c == NthService(i)
      invariant AtService(ctx, s, c, allServicesReady)
    {
      allServicesReady := NextService(s, ctx, CService(SERVICES[i]), allServicesReady);
      NthServiceNext(i);
      c := NthService(i + 1);
      i := i + 1;
    }
  }

  // ---------------------------------------------------------------- reconcile

  /** The status of a full pass. */
  lemma RoutingGoesOn(t: Tenant, l: Local, v: Verdict)
    requires l.Pass?
    ensures var m := Conclude(t, l, CRouting, v);
      && m.pc == Report && m.cr == l.cr
      && m.status == Recorded(l, CRouting, v).status.(
           phase := if l.cr.spec.suspended then Suspended else if l.servicesReady && v.Healthy? then Ready else Provisioning,
           namespace := NamespaceName(t), endpoint := Endpoint(t, l.parent), observed := l.cr.generation)
  {
  }

  /** Routing, the final phase and the final status. */
  method Conclusion(s: Session, ctx: TenantContext, allServicesReady: bool) returns (result: Outcome)
    requires AtService(ctx, s, CRouting, allServicesReady)
    modifies s, ctx
    ensures s.Valid() && s.local.pc == Stop(result)
  {
    ghost var l := s.local;
    var routingReady, hasErr;
    ghost var v;
    routingReady, hasErr, v := ReconcileTenantComponent(s, ctx, CRouting);
    RoutingGoesOn(s.t, Learned(l, s.local), v);
    var phase := Provisioning;
    if ctx.tenant.spec.suspended { phase := Suspended; } else if allServicesReady && routingReady { phase := Ready; }
    ctx.status := ctx.status.(phase := phase, namespace := NamespaceName(ctx.t),
                              endpoint := ctx.t.id + "." + ctx.parent.baseDomain, observed := ctx.tenant.generation);
    var ok := WriteStatus(s, ctx.status);
    if !ok { return Outcome(0, false, true); }
    return Outcome(if phase == Ready then 300 else 15, false, false);
  }

  /** From the parent on: prerequisites, services, routing. */
  method ReconcileLive(s: Session, tenant: TenantCR) returns (result: Outcome)
    requires StandsAt(s, ReadParent) && s.local.cr == tenant && s.local.status == tenant.status && s.local.servicesReady
    requires s.local.parent == Parent("", "")
    modifies s
    ensures s.Valid() && s.local.pc == Stop(result)
  {
    var r := ReadSupabase(s);
    if !r.Ok? {
      var lost := tenant.status.(phase := ErrorPhase,
        conditions := SetCondition(tenant.status.conditions, Condition(Overall, false, SupabaseRefNotFound, tenant.generation)));
      var noticed := WriteStatus(s, lost);
      return Outcome(15, false, false);
    }
    var ctx := new TenantContext(s.t, tenant, if r.obj.ParentObj? then r.obj.parent else Parent("", ""));
    var ok := ReconcilePrerequisites(s, ctx);
    if !ok {
      ctx.status := ctx.status.(phase := Provisioning, observed := ctx.tenant.generation);
      var noticed := WriteStatus(s, ctx.status);
      return Outcome(10, false, false);
    }
    var allServicesReady := ReconcileServices(s, ctx);
    result := Conclusion(s, ctx, allServicesReady);
  }

  /** Deletion: route, database and job, namespace; then the finalizer. Without a parent only the finalizer. */
  method Finalize(s: Session, tenant: TenantCR) returns (result: Outcome)
    requires StandsAt(s, MarkDeleting) && s.local.cr == tenant && s.local.status == tenant.status.(phase := Deleting)
    modifies s
    ensures s.Valid() && s.local.pc == Stop(result)
  {
    var current := WriteDeleting(s, tenant, tenant.status.(phase := Deleting));
    var found := ReadSupabaseAgain(s);
    if !found {
      var ok := RemoveFinalizer(s, current, true);
      return Outcome(0, false, !ok);
    }
    var ctx := new TenantContext(s.t, current, Parent("", ""));
    var err := FinalizeComponents(s, ctx);
    if err { return Outcome(10, false, false); }
    var ok := RemoveFinalizer(s, current, false);
    return Outcome(0, false, !ok);
  }

  const FINALIZERS: seq<Component> := [CRouting, CDatabase, CNamespace]

  function NthDrop(i: nat): (pc: PC)
    ensures i < 3 ==> pc == Drop(if i == 0 then TRoute else if i == 1 then TDatabase else TNamespace, Look)
    ensures i >= 3 ==> pc == Release(false)
  {
    if i == 0 then Drop(TRoute, Look) else if i == 1 then Drop(TDatabase, Look) else if i == 2 then Drop(TNamespace, Look) else Release(false)
  }

  method FinalizeComponent(s: Session, ctx: TenantContext, i: nat) returns (err: bool)
    requires i < 3 && StandsAt(s, NthDrop(i))
    modifies s
    ensures s.Valid() && s.local.cr == old(s.local.cr)
    ensures s.local.pc == if err then After(10) else NthDrop(i + 1)
  {
    if FINALIZERS[i] == CRouting {
      var comp := new RoutingComponent(ctx);
      err := comp.Finalize(s);
    } else if FINALIZERS[i] == CDatabase {
      var comp := new DatabaseComponent(ctx);
      err := comp.Finalize(s);
    } else {
      var comp := new NamespaceComponent(ctx);
      err := comp.Finalize(s);
    }
  }

  method FinalizeComponents(s: Session, ctx: TenantContext) returns (err: bool)
    requires StandsAt(s, Drop(TRoute, Look))
    modifies s
    ensures s.Valid() && s.local.cr == old(s.local.cr)
    ensures s.local.pc == if err then After(10) else Release(false)
  {
    var i := 0;
    while i < |FINALIZERS|
      invariant 0 <= i <= 3 && StandsAt(s, NthDrop(i)) && s.local.cr == old(s.local.cr)
    {
      err := FinalizeComponent(s, ctx, i);
      if err { return; }
      i := i + 1;
    }
    err := false;
  }

  /** One pass, from the read of the custom resource to the result handed to the work queue. It makes the
      calls of the machine and no others, and ends as the machine does: whatever is proved of the machine's
      steps holds of every pass of this method. */
  method Reconcile(s: Session) returns (result: Outcome)
    requires s.Valid() && s.local == Begin()
    modifies s
    ensures s.Valid() && s.local.pc == Stop(result)
    ensures (s.store, s.local) == Replay(s.t, s.first, s.world, s.calls)
  {
    result := ReconcileClaim(s);
    SessionIsReplay(s);
  }

  method ReconcileClaim(s: Session) returns (result: Outcome)
    requires s.Valid() && s.local == Begin()
    modifies s
    ensures s.Valid() && s.local.pc == Stop(result)
  {
    var r := ReadTenant(s);
    if !r.Ok? { return Outcome(0, false, r.Failed?); }
    var tenant := if r.obj.ClaimObj? then r.obj.cr else BLANK_CR;
    if tenant.deleting {
      if !tenant.finalizer { return Outcome(0, false, false); }
      result := Finalize(s, tenant);
      return;
    }
    if !tenant.finalizer {
      var ok := AddFinalizer(s, tenant);
      return if ok then Outcome(0, true, false) else Outcome(0, false, true);
    }
    result := ReconcileLive(s, tenant);
  }
}
