/** What passes report, measured against what stands in the cluster: phase, endpoint, reasons, delays. */
module Reports {
  import opened Options
  import opened Objects
  import opened Tenants
  import opened Machine
  import opened Safety
  import opened Orders
  import opened Statuses
  import opened Endings
  import opened Passes
  import opened Outcomes
  import opened Convergence
  import opened Finalization
  import opened Contents
  import opened Built

  // ---------------------------------------------------------------- the phase of a full pass

  lemma SizedHealth(h: Home, svc: Svc)
    requires Alive(h) && Sized(h, svc)
    ensures Health(h, CService(svc), false) <==> Rolled(h, svc)
  {
    ReplicasPositive(h[Claim].cr.spec.preset);
  }

  /** A full pass over an active tenant reports Ready exactly when every deployment that it leaves behind has
      the preset's replicas, all of them ready, and Provisioning otherwise. */
  lemma ReadyExactly(t: Tenant, h0: Home, h1: Home)
    requires Typed(h0) && FullEnd(t, h0, h1) && Alive(h0)
    ensures Alive(h1)
    ensures h1[Claim].cr.status.phase.Ready? <==> forall svc :: Rolled(h1, svc)
    ensures !h1[Claim].cr.status.phase.Ready? ==> h1[Claim].cr.status.phase.Provisioning?
  {
    forall svc ensures Health(h1, CService(svc), false) <==> Rolled(h1, svc) {
      FullDeployment(t, h0, h1, svc);
      SizedHealth(h1, svc);
    }
    ServicesAll(h1);
  }

  lemma ServicesAll(h: Home)
    ensures ServicesUp(h, false, 9) <==> forall svc :: Health(h, CService(svc), false)
  {
  }

  // ---------------------------------------------------------------- what stands after it

  /** A workload as its tenant's specification asks for, which knows its own public address. */
  ghost predicate AsSpecified(t: Tenant, svc: Svc, o: Option<Obj>, spec: Spec, endpoint: string) {
    && o.Some? && o.value.DeploymentObj? && DeploymentOurs(t, svc, o.value.deployment)
    && ReplicasFor(spec.preset, o.value.deployment.replicas) && o.value.deployment.settings == spec.settings
    && (svc.Auth? || svc.Functions? ==> o.value.deployment.publicUrl == "https://" + endpoint)
  }

  lemma DesiredSpecified(t: Tenant, spec: Spec, parent: Parent, ctx: Context, svc: Svc)
    ensures AsSpecified(t, svc, Some(Desired(t, spec, parent, ctx, map[], TDeploy(svc))), spec, Endpoint(t, parent))
  {
  }

  lemma MadeSpecified(t: Tenant, spec: Spec, parent: Parent, ctx: Context, was: Option<Obj>, svc: Svc)
    requires !spec.suspended && (was.Some? ==> was.value.DeploymentObj?)
    ensures AsSpecified(t, svc, Made(t, spec, parent, ctx, was, TDeploy(svc)), spec, Endpoint(t, parent))
  {
    DesiredSpecified(t, spec, parent, ctx, svc);
  }

  lemma MadeOurs(t: Tenant, spec: Spec, parent: Parent, ctx: Context, was: Option<Obj>, x: Target)
    requires !spec.suspended && (x.TService? || x.TRoute?) && (was.Some? ==> Fits(Child(x), was.value))
    ensures var now := Made(t, spec, parent, ctx, was, x); now.Some? && Ours(t, x, now.value)
    ensures x.TRoute? ==> Made(t, spec, parent, ctx, was, x).value.route.hostname == Endpoint(t, parent)
  {
    if was.Some? { MendedOurs(t, spec, parent, ctx, x, was.value); }
    else if x.TRoute? { assert Made(t, spec, parent, ctx, was, x).value.route == WantedRoute(t, parent); }
  }

  /** The status names the host under which the stored route is reached, and the namespace in which the service's
      objects stand; workload, service and route are as they are to be. */
  ghost predicate Displays(t: Tenant, h: Home, svc: Svc, cr: TenantCR) {
    && AsSpecified(t, svc, At(h, Child(TDeploy(svc))), cr.spec, cr.status.endpoint)
    && Child(TService(svc)) in h && Ours(t, TService(svc), h[Child(TService(svc))])
    && Child(TRoute) in h && Ours(t, TRoute, h[Child(TRoute)]) && cr.status.endpoint == h[Child(TRoute)].route.hostname
    && cr.status.namespace == KeyOf(t, Child(TDeploy(svc))).namespace == KeyOf(t, Child(TService(svc))).namespace
    && cr.status.observed == cr.generation
  }

  lemma FullWorkload(t: Tenant, h0: Home, h1: Home, svc: Svc)
    requires Typed(h0) && FullEnd(t, h0, h1) && !h0[Claim].cr.spec.suspended
    ensures AsSpecified(t, svc, At(h1, Child(TDeploy(svc))), h0[Claim].cr.spec, Endpoint(t, h0[ParentSlot].parent))
  {
    FullMade(t, h0, h1, TDeploy(svc));
    KindBefore(h0, TDeploy(svc));
    MadeSpecified(t, h0[Claim].cr.spec, h0[ParentSlot].parent, Stored(t, h1), At(h0, Child(TDeploy(svc))), svc);
  }

  lemma FullFront(t: Tenant, h0: Home, h1: Home, x: Target)
    requires Typed(h0) && FullEnd(t, h0, h1) && !h0[Claim].cr.spec.suspended && (x.TService? || x.TRoute?)
    ensures Child(x) in h1 && Ours(t, x, h1[Child(x)])
    ensures x.TRoute? ==> h1[Child(x)].route.hostname == Endpoint(t, h0[ParentSlot].parent)
  {
    FullMade(t, h0, h1, x);
    KindBefore(h0, x);
    MadeOurs(t, h0[Claim].cr.spec, h0[ParentSlot].parent, Stored(t, h1), At(h0, Child(x)), x);
  }

  lemma FullStatus(t: Tenant, h0: Home, h1: Home)
    requires FullEnd(t, h0, h1)
    ensures Claim in h1 && h1[Claim].ClaimObj? && h1[Claim].cr.spec == h0[Claim].cr.spec
    ensures var cr := h1[Claim].cr; cr.status == ExpectedStatus(t, h1, h0[Claim].cr, h0[ParentSlot].parent) && cr.generation == h0[Claim].cr.generation
  {
  }

  lemma StatusFields(t: Tenant, h: Home, cr: TenantCR, parent: Parent, svc: Svc)
    ensures var st := ExpectedStatus(t, h, cr, parent);
      && st.endpoint == Endpoint(t, parent) && st.observed == cr.generation
      && st.namespace == KeyOf(t, Child(TDeploy(svc))).namespace == KeyOf(t, Child(TService(svc))).namespace
  {
  }

  lemma DisplaysFrom(t: Tenant, h: Home, svc: Svc, cr: TenantCR, endpoint: string)
    requires AsSpecified(t, svc, At(h, Child(TDeploy(svc))), cr.spec, endpoint) && cr.status.endpoint == endpoint
    requires Child(TService(svc)) in h && Ours(t, TService(svc), h[Child(TService(svc))])
    requires Child(TRoute) in h && Ours(t, TRoute, h[Child(TRoute)]) && h[Child(TRoute)].route.hostname == endpoint
    requires cr.status.namespace == KeyOf(t, Child(TDeploy(svc))).namespace == KeyOf(t, Child(TService(svc))).namespace
    requires cr.status.observed == cr.generation
    ensures Displays(t, h, svc, cr)
  {
  }

  /** What a full pass over an active tenant leaves behind, whatever it found of each kind. */
  lemma FullContents(t: Tenant, h0: Home, h1: Home, svc: Svc)
    requires Typed(h0) && FullEnd(t, h0, h1) && !h0[Claim].cr.spec.suspended
    ensures Claim in h1 && h1[Claim].ClaimObj? && Displays(t, h1, svc, h1[Claim].cr)
  {
    FullWorkload(t, h0, h1, svc);
    FullFront(t, h0, h1, TService(svc));
    FullFront(t, h0, h1, TRoute);
    FullStatus(t, h0, h1);
    StatusFields(t, h1, h0[Claim].cr, h0[ParentSlot].parent, svc);
    DisplaysFrom(t, h1, svc, h1[Claim].cr, Endpoint(t, h0[ParentSlot].parent));
  }

  lemma FullReaches(t: Tenant, h0: Home, h1: Home, svc: Svc, other: Svc)
    requires Typed(h0) && FullEnd(t, h0, h1) && !h0[Claim].cr.spec.suspended
    ensures Claim in h1 && h1[Claim].ClaimObj? && Displays(t, h1, svc, h1[Claim].cr) && Child(TDeploy(other)) in h1
    ensures Reaches(h1[Child(TService(svc))], h1[Child(TDeploy(other))], svc == other)
  {
    FullContents(t, h0, h1, svc);
    FullContents(t, h0, h1, other);
    OursReaches(t, svc, t, other, h1[Child(TService(svc))], h1[Child(TDeploy(other))]);
  }

  /** A fault-free pass over an active tenant whose prerequisites are up reports Ready exactly when every workload
      has the preset's replicas, all of them ready, and leaves everything as specified and as reported, with every
      service in front of the pods of its own deployment only. */
  lemma ActivePass(t: Tenant, h: Home, ks: seq<Tick>, svc: Svc, other: Svc)
    requires Sound(t, h, Idle) && Wanted(h) && Prepared(h) && Alive(h) && Whole(ks)
    ensures var h1 := AfterPass(t, h, ks);
      && Alive(h1) && Displays(t, h1, svc, h1[Claim].cr) && Child(TDeploy(other)) in h1
      && Reaches(h1[Child(TService(svc))], h1[Child(TDeploy(other))], svc == other)
      && (h1[Claim].cr.status.phase.Ready? <==> forall each :: Rolled(h1, each))
  {
    PassOutcome(t, h, ks);
    ReadyExactly(t, h, AfterPass(t, h, ks));
    FullReaches(t, h, AfterPass(t, h, ks), svc, other);
  }

  lemma KindBefore(h: Home, x: Target)
    requires Typed(h)
    ensures At(h, Child(x)).Some? ==> Fits(Child(x), At(h, Child(x)).value)
  {
  }

  // ---------------------------------------------------------------- a parent that is not there

  /** The phase is Error, the extra condition says why, and all others are as they were. */
  ghost predicate ShowsLost(cr: TenantCR, st: Status) {
    && st.phase.ErrorPhase?
    && forall kind :: Latest(st.conditions, kind) == if kind.Overall? then Some(Condition(Overall, false, SupabaseRefNotFound, cr.generation))
                                                     else Latest(cr.status.conditions, kind)
  }

  /** A fault-free pass over a wanted tenant whose parent is missing touches nothing but the status; the
      next pass comes after 15 seconds. */
  lemma ParentMissing(t: Tenant, h: Home, ks: seq<Tick>)
    requires Claim in h && h[Claim].ClaimObj? && !h[Claim].cr.deleting && h[Claim].cr.finalizer && ParentSlot !in h && Whole(ks)
    ensures var h1 := AfterPass(t, h, ks); var cr := h[Claim].cr;
      && Claim in h1 && h1[Claim].ClaimObj? && h1 == h[Claim := ClaimObj(cr.(status := h1[Claim].cr.status))]
      && ShowsLost(cr, h1[Claim].cr.status)
    ensures var l := Burst(t, h, Begin(), ks).1; l.Pass? && l.pc == After(15)
  {
    var cr := h[Claim].cr;
    PutBack(h, Claim);
    PutBack(h, ParentSlot);
    var l1 := Step(t, h, Begin(), ks[0]).local;
    var l2 := Step(t, h, l1, ks[1]).local;
    MissingReads(t, h, ks[0], ks[1]);
    var w := Step(t, h, l2, ks[2]);
    assert ks == [ks[0]] + ([ks[1]] + ([ks[2]] + ks[3..]));
    BurstFirst(t, h, Begin(), ks[0], [ks[1]] + ([ks[2]] + ks[3..]), h, l1);
    BurstFirst(t, h, l1, ks[1], [ks[2]] + ks[3..], h, l2);
    LostWrites(t, h, l2, ks[2]);
    BurstFirst(t, h, l2, ks[2], ks[3..], h[Claim := ClaimObj(cr.(status := l2.status))], w.local);
  }

  lemma MissingReads(t: Tenant, h: Home, k1: Tick, k2: Tick)
    requires Claim in h && h[Claim].ClaimObj? && !h[Claim].cr.deleting && h[Claim].cr.finalizer && ParentSlot !in h
    requires CalmTick(k1) && CalmTick(k2)
    ensures var w := Step(t, h, Begin(), k1); Put(h, w.slot, w.obj) == h && w.local.Pass? && w.local.pc.ReadParent?
    ensures var v := Step(t, h, Step(t, h, Begin(), k1).local, k2);
            Put(h, v.slot, v.obj) == h && v.local.Pass? && v.local.pc.ReportLost? && ShowsLost(h[Claim].cr, v.local.status)
  {
    PutBack(h, Claim);
    PutBack(h, ParentSlot);
    var cr := h[Claim].cr;
    forall kind ensures Latest(SetCondition(cr.status.conditions, Condition(Overall, false, SupabaseRefNotFound, cr.generation)), kind) ==
        if kind.Overall? then Some(Condition(Overall, false, SupabaseRefNotFound, cr.generation)) else Latest(cr.status.conditions, kind)
    {
      LatestSet(cr.status.conditions, Condition(Overall, false, SupabaseRefNotFound, cr.generation), kind);
    }
  }

  lemma LostWrites(t: Tenant, h: Home, l: Local, k: Tick)
    requires l.Pass? && l.pc.ReportLost? && CalmTick(k) && Claim in h && h[Claim].ClaimObj?
    ensures var w := Step(t, h, l, k);
            Put(h, w.slot, w.obj) == h[Claim := ClaimObj(h[Claim].cr.(status := l.status))] && w.local.pc == After(15)
  {
  }

  // ---------------------------------------------------------------- the reason of a condition

  /** The component that a point belongs to. */
  ghost function PartOf(pc: PC): Component
    requires pc.Ensure? || pc.Check? || pc.Quiesce? || pc.Unroute?
  {
    match pc
    case Ensure(x, _) => ComponentOf(x)
    case Check(x) => ComponentOf(x)
    case Quiesce(svc, _) => CService(svc)
    case Unroute(_) => CRouting
  }

  /** What the condition that a call leads to says about the call. */
  ghost predicate Tells(h: Home, l: Local, k: Tick, c: Condition)
    requires l.Pass?
  {
    && (c.holds <==> c.reason.IsReady?) && c.observed == l.cr.generation
    && (c.reason.HealthcheckError? <==> l.pc.Check? && k.fault.Transient?)
    && (c.reason.ReconcileError? <==> !l.pc.Check? && !c.holds)
    && (c.reason.NotReady? <==> l.pc.Check? && k.fault.NoFault? && !c.holds)
    && (l.pc.Check? && l.pc.target.TDeploy? && k.fault.NoFault? ==>
          (c.holds <==> Child(l.pc.target) in h && AllReady(h[Child(l.pc.target)])))
  }

  /** A deployment with replicas, all of them ready. */
  predicate AllReady(o: Obj) {
    o.DeploymentObj? && o.ready == o.deployment.replicas && o.ready >= 1
  }

  /** The pass goes on with the component, or it records a condition. */
  ghost predicate GoesOnOrTells(h: Home, l: Local, k: Tick, m: Local)
    requires InComponent(l) && m.Pass?
  {
    || (InComponent(m) && PartOf(m.pc) == PartOf(l.pc) && m.status == l.status)
    || (exists c :: Latest(m.status.conditions, Of(PartOf(l.pc))) == Some(c) && Tells(h, l, k, c))
  }

  lemma ConcludeTells(t: Tenant, h: Home, l: Local, k: Tick, v: Verdict)
    requires InComponent(l)
    requires Tells(h, l, k, Condition(Of(PartOf(l.pc)), v.Healthy?, ReasonOf(v), l.cr.generation))
    ensures GoesOnOrTells(h, l, k, Conclude(t, l, PartOf(l.pc), v))
  {
    var c := Condition(Of(PartOf(l.pc)), v.Healthy?, ReasonOf(v), l.cr.generation);
    ConcludeLatest(t, l, PartOf(l.pc), v);
    assert Tells(h, l, k, c);
  }

  lemma ConcludeLatest(t: Tenant, l: Local, p: Component, v: Verdict)
    requires l.Pass?
    ensures Latest(Conclude(t, l, p, v).status.conditions, Of(p)) == Some(Condition(Of(p), v.Healthy?, ReasonOf(v), l.cr.generation))
  {
    var c := Condition(Of(p), v.Healthy?, ReasonOf(v), l.cr.generation);
    LatestSet(l.status.conditions, c, Of(p));
    assert Conclude(t, l, p, v).status.conditions == SetCondition(l.status.conditions, c);
  }

  lemma LookTells(t: Tenant, h: Home, l: Local, k: Tick, r: Resp)
    requires l.Pass? && l.pc.Ensure? && l.pc.act.Look?
    ensures GoesOnOrTells(h, l, k, Resume(t, l, r, k.luck))
  {
    ConcludeTells(t, h, l, k, ReconcileFailed);
    LookMoves(t, l, l.pc.target, r, k.luck);
    assert Resume(t, l, r, k.luck) == AfterLook(t, l, l.pc.target, r, k.luck);
    SameComponent(l.pc.target);
  }

  lemma WriteTells(t: Tenant, h: Home, l: Local, k: Tick, r: Resp)
    requires l.Pass? && l.pc.Ensure? && !l.pc.act.Look?
    ensures GoesOnOrTells(h, l, k, Resume(t, l, r, k.luck))
  {
    ConcludeTells(t, h, l, k, ReconcileFailed);
    assert Resume(t, l, r, k.luck) == AfterWrite(t, l, l.pc.target, r);
  }

  lemma CheckTells(t: Tenant, h: Home, l: Local, k: Tick)
    requires l.Pass? && l.pc.Check?
    ensures GoesOnOrTells(h, l, k, Step(t, h, l, k).local)
  {
    var x, s := l.pc.target, Child(l.pc.target);
    if k.fault.Transient? { ConcludeTells(t, h, l, k, HealthcheckFailed); }
    else if s !in h { ConcludeTells(t, h, l, k, Unhealthy); }
    else if Examine(x, h[s]).Some? { ConcludeTells(t, h, l, k, Examine(x, h[s]).value); }
  }

  lemma SilencingTells(t: Tenant, h: Home, l: Local, k: Tick, r: Resp)
    requires l.Pass? && (l.pc.Quiesce? || l.pc.Unroute?)
    ensures GoesOnOrTells(h, l, k, Resume(t, l, r, k.luck))
  {
    ConcludeTells(t, h, l, k, Healthy);
    ConcludeTells(t, h, l, k, ReconcileFailed);
  }

  /** Every call of a component either goes on with it or records a condition from which one can tell what
      happened: HealthcheckError for a read of the healthcheck that failed, ReconcileError for anything that
      kept the component from being put in place, NotReady for an answered check, and a service is healthy
      exactly with replicas that are all ready. */
  lemma ConditionTells(t: Tenant, h: Home, l: Local, k: Tick)
    requires InComponent(l)
    ensures GoesOnOrTells(h, l, k, Step(t, h, l, k).local)
  {
    var op := NextOp(t, l);
    var r := Serve(At(h, op.slot), Open(h, op.slot), op.verb, k.fault).1;
    if l.pc.Ensure? {
      if l.pc.act.Look? { LookTells(t, h, l, k, r); } else { WriteTells(t, h, l, k, r); }
    }
    else if l.pc.Check? { CheckTells(t, h, l, k); }
    else { SilencingTells(t, h, l, k, r); }
  }

  // ---------------------------------------------------------------- when the next pass comes

  ghost predicate PhaseStored(h: Home, phase: Phase) {
    Claim in h && h[Claim].ClaimObj? && h[Claim].cr.status.phase == phase
  }

  /** How a pass that ends with this call brings the next one: after five minutes exactly when it has stored the
      phase Ready, at once exactly when it has added the finalizer. */
  lemma EndTells(t: Tenant, h: Home, l: Local, k: Tick)
    requires Orderly(h, l) && Running(l) && Step(t, h, l, k).local.pc.Stop?
    ensures var w := Step(t, h, l, k); var h', o := Put(h, w.slot, w.obj), w.local.pc.outcome;
      && (o.after == 300 <==> l.pc.Report? && !o.failed && PhaseStored(h', Ready))
      && (o.after == 15 <==> l.pc.ReportLost? || (l.pc.Report? && !o.failed && !PhaseStored(h', Ready)))
      && (o.after == 10 <==> l.pc.Park? || l.pc.Drop?)
      && (o.after == 0 || o.after == 10 || o.after == 15 || o.after == 300)
      && (o.again <==> l.pc.PutFinalizer? && !o.failed)
      && (o.again ==> Persisted(h')) && !(o.failed && (o.again || o.after > 0))
  {
    if InComponent(l) { StepOnwards(t, h, l, k); }
    else if l.pc.Report? || l.pc.ReportLost? || l.pc.Park? { ReportEnds(t, h, l, k); }
    else { OtherEnds(t, h, l, k); }
  }

  lemma ReportEnds(t: Tenant, h: Home, l: Local, k: Tick)
    requires Typed(h) && Running(l) && (l.pc.Report? || l.pc.ReportLost? || l.pc.Park?)
    ensures var w := Step(t, h, l, k); var h', m := Put(h, w.slot, w.obj), w.local;
      && (l.pc.ReportLost? ==> m.pc == After(15)) && (l.pc.Park? ==> m.pc == After(10))
      && (l.pc.Report? ==> m.pc == Error()
                           || (PhaseStored(h', l.status.phase) && m.pc == (if l.status.phase.Ready? then After(300) else After(15))))
  {
    if Claim in h { assert Fits(Claim, h[Claim]); }
  }

  lemma OtherEnds(t: Tenant, h: Home, l: Local, k: Tick)
    requires Orderly(h, l) && Running(l) && !InComponent(l) && !l.pc.Report? && !l.pc.ReportLost? && !l.pc.Park?
    requires Step(t, h, l, k).local.pc.Stop?
    ensures var w := Step(t, h, l, k); var h', pc := Put(h, w.slot, w.obj), w.local.pc;
      && (l.pc.Drop? ==> pc == After(10))
      && (l.pc.PutFinalizer? ==> pc == Error() || (pc == Stop(Outcome(0, true, false)) && Persisted(h')))
      && (!l.pc.Drop? && !l.pc.PutFinalizer? ==> pc == Nothing() || pc == Error())
  {
    if Claim in h { assert Fits(Claim, h[Claim]); }
  }

  // ---------------------------------------------------------------- the phase of a tenant on its way out

  /** Beyond the first two calls, the stored phase is Deleting. */
  ghost predicate Shown(h: Home, l: Local) {
    && l.Pass? && !l.pc.ReadClaim? && !l.pc.MarkDeleting?
    && (Claim in h ==> PhaseStored(h, Deleting))
  }

  lemma MarkShows(t: Tenant, h: Home, l: Local, k: Tick)
    requires Orderly(h, l) && Tidying(h, l) && l.pc.MarkDeleting? && l.status.phase.Deleting? && CalmTick(k)
    ensures var w := Step(t, h, l, k); Shown(Put(h, w.slot, w.obj), w.local)
  {
    MarkTidies(t, h, l, k);
  }

  lemma ShownStep(t: Tenant, h: Home, l: Local, k: Tick)
    requires Orderly(h, l) && Tidying(h, l) && Running(l) && Shown(h, l) && CalmTick(k)
    ensures var w := Step(t, h, l, k); Shown(Put(h, w.slot, w.obj), w.local)
  {
    if l.pc.ReadParentToo? { ParentStep(t, h, l, k); }
    else if l.pc.Drop? { DropStep(t, h, l, k); }
    else { ReleaseStep(t, h, l, k); }
  }

  lemma {:induction false} ShownBurst(t: Tenant, h: Home, l: Local, ks: seq<Tick>)
    requires Orderly(h, l) && Tidying(h, l) && Shown(h, l) && Calm(ks)
    ensures Shown(Burst(t, h, l, ks).0, Burst(t, h, l, ks).1)
    decreases |ks|
  {
    if |ks| > 0 && Running(l) {
      CalmAnswers(t, l, ks);
      ShownStep(t, h, l, ks[0]);
      TidyingStep(t, h, l, ks[0]);
      StepKeepsOrderly(t, h, l, ks[0]);
      var w := Step(t, h, l, ks[0]);
      ShownBurst(t, Put(h, w.slot, w.obj), w.local, ks[1..]);
    }
  }

  /** From its second call on, wherever it is cut, a fault-free pass over a tenant on its way out leaves the phase
      Deleting, until the custom resource is gone. */
  lemma DeletingShown(t: Tenant, h: Home, ks: seq<Tick>)
    requires Partial(h) && Leaving(h) && Calm(ks) && |ks| >= 2
    ensures var h1 := AfterPass(t, h, ks); Claim in h1 ==> PhaseStored(h1, Deleting)
  {
    InitiallyOrderly(h);
    ClaimStep(t, h, Begin(), ks[0]);
    StepKeepsOrderly(t, h, Begin(), ks[0]);
    var l := Step(t, h, Begin(), ks[0]).local;
    LeavingReads(t, h, ks[0]);
    assert ks == [ks[0]] + ([ks[1]] + ks[2..]);
    BurstFirst(t, h, Begin(), ks[0], [ks[1]] + ks[2..], h, l);
    MarkShows(t, h, l, ks[1]);
    MarkTidies(t, h, l, ks[1]);
    StepKeepsOrderly(t, h, l, ks[1]);
    var w := Step(t, h, l, ks[1]);
    var h2 := Put(h, w.slot, w.obj);
    BurstFirst(t, h, l, ks[1], ks[2..], h2, w.local);
    ShownBurst(t, h2, w.local, ks[2..]);
  }

  lemma LeavingReads(t: Tenant, h: Home, k: Tick)
    requires Leaving(h) && CalmTick(k)
    ensures var m := Step(t, h, Begin(), k).local; m.Pass? && m.pc.MarkDeleting? && m.status.phase.Deleting?
  {
  }
}
