/** A live tenant converges: a measure that no pass increases, faults or not, and that every fault-free pass
    decreases once the platform has caught up. */
module Convergence {
  import opened Options
  import opened Objects
  import opened Tenants
  import opened Machine
  import opened Safety
  import opened Statuses
  import opened Passes
  import opened Outcomes

  // ---------------------------------------------------------------- the measure

  /** A tenant that its user wants to run. */
  ghost predicate Alive(h: Home) {
    Claim in h && h[Claim].ClaimObj? && !h[Claim].cr.deleting && !h[Claim].cr.spec.suspended
  }

  /** Parent and platform namespace are there. */
  ghost predicate Supplied(h: Home) {
    ParentSlot in h && h[ParentSlot].ParentObj? && OpenAt(At(h, Platform))
  }

  /** A deployment with the wanted number of replicas. */
  ghost predicate Sized(h: Home, svc: Svc)
    requires Alive(h)
  {
    var s := Child(TDeploy(svc));
    s in h && h[s].DeploymentObj? && h[s].deployment.replicas == Replicas(h[Claim].cr.spec.preset)
  }

  /** ... all of them ready. */
  ghost predicate Rolled(h: Home, svc: Svc)
    requires Alive(h)
  {
    Sized(h, svc) && var o := h[Child(TDeploy(svc))]; o.ready == o.deployment.replicas
  }

  /** How far the tenant is from being reported ready: the number of rounds still needed before the last one. */
  ghost function Level(h: Home): (n: nat)
    requires Alive(h)
    ensures n <= 4
  {
    if !h[Claim].cr.finalizer then 4
    else if !NamespaceUp(h) then 3
    else if !Prepared(h) then 2
    else if exists svc :: !Rolled(h, svc) then 1
    else 0
  }

  /** The level that the tenant will have once the platform has caught up with what stands now. */
  ghost function Owed(h: Home): (n: nat)
    requires Alive(h)
    ensures n <= 4
  {
    if !h[Claim].cr.finalizer then 4
    else if Child(TNamespace) !in h then 3
    else if Child(TJob) !in h then 2
    else if exists svc :: !Sized(h, svc) then 1
    else 0
  }

  ghost predicate ReportedReady(h: Home)
    requires Alive(h)
  {
    h[Claim].cr.status.phase.Ready? && h[Claim].cr.status.observed == h[Claim].cr.generation
  }

  // ---------------------------------------------------------------- no step sets the tenant back

  /** Everything that the measure looks at is at least as good as before. */
  ghost predicate NoWorse(h: Home, h': Home) {
    && Alive(h) && Alive(h') && h'[Claim].cr.spec == h[Claim].cr.spec
    && (h[Claim].cr.finalizer ==> h'[Claim].cr.finalizer)
    && (NamespaceUp(h) ==> NamespaceUp(h')) && (DatabaseFine(h) ==> DatabaseFine(h')) && (JobDone(h) ==> JobDone(h'))
    && (forall svc :: Rolled(h, svc) ==> Rolled(h', svc)) && (forall svc :: Sized(h, svc) ==> Sized(h', svc))
    && (forall x: Target :: Child(x) in h ==> Child(x) in h')
  }

  lemma NoWorseLevel(h: Home, h': Home)
    requires NoWorse(h, h')
    ensures Level(h') <= Level(h) && Owed(h') <= Owed(h)
  {
  }

  /** A pass that works on the specification that is stored, and suspends only what is to be suspended. */
  ghost predicate Current(h: Home, l: Local) {
    && (Working(l) ==> Claim in h && h[Claim].ClaimObj? && l.cr.spec == h[Claim].cr.spec)
    && (l.Pass? && (l.pc.Quiesce? || l.pc.Unroute?) ==> l.cr.spec.suspended)
  }

  lemma ConcludeCurrent(t: Tenant, h: Home, l: Local, c: Component, v: Verdict)
    requires Current(h, l) && Working(l)
    ensures Current(h, Conclude(t, l, c, v))
  {
  }

  lemma MoveCurrent(h: Home, l: Local, m: Local)
    requires Current(h, l) && Working(l) && m.Pass? && m.cr == l.cr && (m.pc.Ensure? || m.pc.Check?)
    ensures Current(h, m)
  {
  }

  lemma EnsureCurrent(t: Tenant, h: Home, l: Local, r: Resp, luck: Luck)
    requires Current(h, l) && Running(l) && l.pc.Ensure?
    ensures Current(h, Resume(t, l, r, luck))
  {
    var x, m := l.pc.target, Resume(t, l, r, luck);
    ConcludeCurrent(t, h, l, ComponentOf(x), ReconcileFailed);
    if l.pc.act.Look? {
      assert m == AfterLook(t, l, x, r, luck);
      LookMoves(t, l, x, r, luck);
    } else {
      assert m == AfterWrite(t, l, x, r);
    }
    if m != Conclude(t, l, ComponentOf(x), ReconcileFailed) { MoveCurrent(h, l, m); }
  }

  lemma CheckCurrent(t: Tenant, h: Home, l: Local, r: Resp, luck: Luck)
    requires Current(h, l) && Running(l) && l.pc.Check?
    ensures Current(h, Resume(t, l, r, luck))
  {
    var c := ComponentOf(l.pc.target);
    ConcludeCurrent(t, h, l, c, HealthcheckFailed);
    ConcludeCurrent(t, h, l, c, Unhealthy);
    ConcludeCurrent(t, h, l, c, Healthy);
  }

  lemma ReadCurrent(t: Tenant, h: Home, l: Local, r: Resp, luck: Luck)
    requires Current(h, l) && Running(l) && (l.pc.ReadClaim? || l.pc.ReadParent?)
    requires l.pc.ReadClaim? && r.Ok? ==> Claim in h && h[Claim].ClaimObj? && r.obj == h[Claim]
    ensures Current(h, Resume(t, l, r, luck))
  {
  }

  lemma RestCurrent(t: Tenant, h: Home, l: Local, r: Resp, luck: Luck)
    requires Current(h, l) && Running(l) && (l.pc.PutFinalizer? || l.pc.ReportLost? || l.pc.Park? || l.pc.Report?)
    ensures Current(h, Resume(t, l, r, luck))
  {
  }

  lemma CurrentElsewhere(h: Home, h': Home, l: Local)
    requires Current(h, l) && Alive(h) && Alive(h') && h'[Claim].cr.spec == h[Claim].cr.spec
    ensures Current(h', l)
  {
  }

  predicate NotRefused(x: Target, o: Obj) {
    x.TDatabase? ==> o.DatabaseObj? && o.applied != Some(false)
  }

  /** A step of an active pass, as what it writes. */
  ghost predicate Harmless(t: Tenant, h: Home, l: Local, s: Slot, o: Option<Obj>)
    requires l.Pass?
  {
    || o == At(h, s)
    || (s.Child? && s !in h && o.Some? && NotRefused(s.target, o.value))
    || (s.Child? && s in h && o.Some? && Mended(s.target)
        && o.value == Patched(h[s], Mending(t, l.cr.spec, l.parent, ContextFor(t, l), s.target)))
    || (s.Claim? && s in h && h[s].ClaimObj? && o.Some? && o.value.ClaimObj?
        && (o.value.cr == h[s].cr.(status := o.value.cr.status) || o.value.cr == h[s].cr.(finalizer := true)))
  }

  lemma HarmlessNoWorse(t: Tenant, h: Home, l: Local, s: Slot, o: Option<Obj>)
    requires Alive(h) && Typed(h) && l.Pass? && Harmless(t, h, l, s, o)
    requires s.Child? && s in h && o != At(h, s) ==> l.cr.spec == h[Claim].cr.spec
    ensures NoWorse(h, Put(h, s, o))
  {
    PutBack(h, s);
    if o != At(h, s) {
      if s.Claim? { ClaimNoWorse(h, o.value); }
      else if s !in h { AddNoWorse(h, s.target, o.value); }
      else { assert Fits(s, h[s]); MendNoWorse(t, h, l.cr.spec, l.parent, ContextFor(t, l), s.target); }
    }
  }

  lemma ClaimNoWorse(h: Home, o: Obj)
    requires Alive(h) && o.ClaimObj?
    requires o.cr == h[Claim].cr.(status := o.cr.status) || o.cr == h[Claim].cr.(finalizer := true)
    ensures NoWorse(h, h[Claim := o])
  {
  }

  lemma AddNoWorse(h: Home, x: Target, o: Obj)
    requires Alive(h) && Child(x) !in h && NotRefused(x, o)
    ensures NoWorse(h, h[Child(x) := o])
  {
  }

  lemma DesiredReplicas(t: Tenant, spec: Spec, parent: Parent, ctx: Context, svc: Svc)
    ensures var o := Desired(t, spec, parent, ctx, map[], TDeploy(svc));
            o.DeploymentObj? && o.deployment.replicas == Replicas(spec.preset)
  {
  }

  lemma MendedDeployment(t: Tenant, o: Obj, spec: Spec, parent: Parent, ctx: Context, svc: Svc)
    requires o.DeploymentObj?
    ensures var p := Patched(o, Mending(t, spec, parent, ctx, TDeploy(svc)));
            p.DeploymentObj? && p.ready == o.ready && p.deployment.replicas == Replicas(spec.preset)
  {
    DesiredReplicas(t, spec, parent, ctx, svc);
  }

  lemma DeploymentNoWorse(h: Home, svc: Svc, o: Obj)
    requires Alive(h) && Child(TDeploy(svc)) in h && h[Child(TDeploy(svc))].DeploymentObj?
    requires o.DeploymentObj? && o.ready == h[Child(TDeploy(svc))].ready && o.deployment.replicas == Replicas(h[Claim].cr.spec.preset)
    ensures NoWorse(h, h[Child(TDeploy(svc)) := o])
  {
  }

  lemma OtherNoWorse(h: Home, x: Target, o: Obj)
    requires Alive(h) && (x.TService? || x.TRoute?)
    ensures NoWorse(h, h[Child(x) := o])
  {
  }

  lemma MendNoWorse(t: Tenant, h: Home, spec: Spec, parent: Parent, ctx: Context, x: Target)
    requires Alive(h) && Mended(x) && Child(x) in h && Fits(Child(x), h[Child(x)]) && spec == h[Claim].cr.spec
    ensures NoWorse(h, h[Child(x) := Patched(h[Child(x)], Mending(t, spec, parent, ctx, x))])
  {
    if x.TDeploy? {
      MendedDeployment(t, h[Child(x)], spec, parent, ctx, x.svc);
      DeploymentNoWorse(h, x.svc, Patched(h[Child(x)], Mending(t, spec, parent, ctx, x)));
    } else {
      OtherNoWorse(h, x, Patched(h[Child(x)], Mending(t, spec, parent, ctx, x)));
    }
  }

  lemma EnsureHarmless(t: Tenant, h: Home, l: Local, k: Tick)
    requires Sound(t, h, l) && Working(l) && l.pc.Ensure?
    ensures var w := Step(t, h, l, k); w.slot == Child(l.pc.target) && Harmless(t, h, l, w.slot, w.obj)
  {
  }

  lemma ClaimHarmless(t: Tenant, h: Home, l: Local, k: Tick)
    requires Sound(t, h, l) && Alive(h) && Running(l)
    requires l.pc.PutFinalizer? || l.pc.ReportLost? || l.pc.Park? || l.pc.Report? || l.pc.MarkDeleting?
    ensures var w := Step(t, h, l, k); w.slot == Claim && Harmless(t, h, l, w.slot, w.obj)
  {
  }

  lemma ReadHarmless(t: Tenant, h: Home, l: Local, k: Tick)
    requires Running(l) && (l.pc.Check? || l.pc.ReadClaim? || l.pc.ReadParent?)
    ensures var w := Step(t, h, l, k); w.obj == At(h, w.slot)
  {
  }

  /** Over a live tenant no pass is in its ending. */
  lemma AliveNotEnding(t: Tenant, h: Home, l: Local)
    requires Sound(t, h, l) && Alive(h)
    ensures !Ending(l)
  {
  }

  lemma StepHarmless(t: Tenant, h: Home, l: Local, k: Tick)
    requires Sound(t, h, l) && Alive(h) && Current(h, l) && Running(l)
    ensures var w := Step(t, h, l, k);
            Harmless(t, h, l, w.slot, w.obj) && (w.slot.Child? && w.obj != At(h, w.slot) ==> Working(l))
  {
    AliveNotEnding(t, h, l);
    if l.pc.Ensure? { EnsureHarmless(t, h, l, k); }
    else if l.pc.Check? || l.pc.ReadClaim? || l.pc.ReadParent? { ReadHarmless(t, h, l, k); }
    else { ClaimHarmless(t, h, l, k); }
  }

  lemma StepCurrent(t: Tenant, h: Home, l: Local, k: Tick)
    requires Sound(t, h, l) && Alive(h) && Current(h, l) && Running(l)
    ensures Current(h, Step(t, h, l, k).local)
  {
    var op := NextOp(t, l);
    var r := Serve(At(h, op.slot), Open(h, op.slot), op.verb, k.fault).1;
    AliveNotEnding(t, h, l);
    if l.pc.Ensure? { EnsureCurrent(t, h, l, r, k.luck); }
    else if l.pc.Check? { CheckCurrent(t, h, l, r, k.luck); }
    else if l.pc.ReadClaim? || l.pc.ReadParent? { ReadCurrent(t, h, l, r, k.luck); }
    else { RestCurrent(t, h, l, r, k.luck); }
  }

  lemma StepNoWorse(t: Tenant, h: Home, l: Local, k: Tick)
    requires Sound(t, h, l) && Alive(h) && Current(h, l) && Running(l)
    ensures var w := Step(t, h, l, k); var h' := Put(h, w.slot, w.obj);
            NoWorse(h, h') && Around(h, h') && Current(h', w.local)
  {
    var w := Step(t, h, l, k);
    var h' := Put(h, w.slot, w.obj);
    StepHarmless(t, h, l, k);
    HarmlessNoWorse(t, h, l, w.slot, w.obj);
    StepCurrent(t, h, l, k);
    CurrentElsewhere(h, h', w.local);
  }

  lemma {:induction false} BurstNoWorse(t: Tenant, h: Home, l: Local, ks: seq<Tick>)
    requires Sound(t, h, l) && Alive(h) && Current(h, l)
    ensures var h' := Burst(t, h, l, ks).0; NoWorse(h, h') && Around(h, h')
    decreases |ks|
  {
    if |ks| > 0 && Running(l) {
      StepNoWorse(t, h, l, ks[0]);
      StepKeepsSound(t, h, l, ks[0]);
      var w := Step(t, h, l, ks[0]);
      BurstNoWorse(t, Put(h, w.slot, w.obj), w.local, ks[1..]);
    }
  }

  /** Whatever faults a pass over a live tenant meets, and wherever it is cut short, it does not set the
      tenant back. */
  lemma FaultsDoNotSetBack(t: Tenant, h: Home, ks: seq<Tick>)
    requires Sound(t, h, Idle) && Alive(h) && Supplied(h)
    ensures var h' := AfterPass(t, h, ks); Sound(t, h', Idle) && Alive(h') && Supplied(h') && Level(h') <= Level(h) && Owed(h') <= Owed(h)
  {
    BeginKeepsSound(t, h, Idle);
    BurstNoWorse(t, h, Begin(), ks);
    BurstKeepsSound(t, h, Begin(), ks);
    BeginKeepsSound(t, AfterPass(t, h, ks), Burst(t, h, Begin(), ks).1);
    NoWorseLevel(h, AfterPass(t, h, ks));
  }

  // ---------------------------------------------------------------- every calm round makes progress

  /** What the platform makes of an object when it cooperates: namespaces become active, jobs succeed,
      databases are applied, replicas come up. */
  ghost predicate Cooperates(o: Obj, p: Obj) {
    match o
    case NamespaceObj(labels, phase) => p == NamespaceObj(labels, if phase.Terminating? then Terminating else Active)
    case JobObj(labels, job, n) => p.JobObj? && p == o.(succeeded := p.succeeded) && p.succeeded > 0
    case DatabaseObj(labels, name, cluster, _) => p == DatabaseObj(labels, name, cluster, Some(true))
    case DeploymentObj(labels, d, _) => p == DeploymentObj(labels, d, d.replicas)
    case _ => p == o
  }

  ghost predicate Settles(h: Home, h': Home) {
    && (forall s :: s in h <==> s in h')
    && (forall s :: s in h ==> Cooperates(h[s], h'[s]))
  }

  lemma SettlesClaim(h: Home, h': Home)
    requires Settles(h, h') && Claim in h && h[Claim].ClaimObj?
    ensures Claim in h' && h'[Claim] == h[Claim]
  {
    assert Cooperates(h[Claim], h'[Claim]);
  }

  lemma SettlesSupplied(h: Home, h': Home)
    requires Settles(h, h') && Supplied(h)
    ensures Supplied(h')
  {
    assert Cooperates(h[ParentSlot], h'[ParentSlot]) && Cooperates(h[Platform], h'[Platform]);
  }

  lemma SettlesTyped(h: Home, h': Home)
    requires Settles(h, h') && Typed(h)
    ensures Typed(h')
  {
    forall s | s in h' ensures Fits(s, h'[s]) { assert Cooperates(h[s], h'[s]) && Fits(s, h[s]); }
  }

  lemma SettlesGated(h: Home, h': Home)
    requires Settles(h, h') && Gated(h) && Typed(h)
    ensures Gated(h')
  {
    if Child(TNamespace) in h { assert Cooperates(h[Child(TNamespace)], h'[Child(TNamespace)]) && Fits(Child(TNamespace), h[Child(TNamespace)]); }
    if Child(TJob) in h { assert Cooperates(h[Child(TJob)], h'[Child(TJob)]) && Fits(Child(TJob), h[Child(TJob)]); }
  }

  lemma SettlesCarries(t: Tenant, o: Obj, p: Obj, ctx: Context, x: Target)
    requires Cooperates(o, p) && Carries(t, x, o, ctx)
    ensures Carries(t, x, p, ctx)
  {
  }

  lemma SettlesAgreed(t: Tenant, h: Home, h': Home)
    requires Settles(h, h') && Agreed(t, h) && Typed(h)
    ensures Agreed(t, h')
  {
    forall x: Target | IsSecret(x) && Child(x) in h ensures h'[Child(x)] == h[Child(x)] {
      assert Cooperates(h[Child(x)], h'[Child(x)]) && Fits(Child(x), h[Child(x)]);
    }
    assert IsSecret(TJwt) && IsSecret(TCreds);
    if Child(TJwt) in h && Child(TCreds) in h {
      assert Stored(t, h') == Stored(t, h);
      forall x: Target | Child(x) in h' ensures Carries(t, x, h'[Child(x)], Stored(t, h')) {
        SettlesCarries(t, h[Child(x)], h'[Child(x)], Stored(t, h), x);
      }
    }
  }

  lemma SettlesMemory(t: Tenant, h: Home, h': Home, l: Local)
    requires Settles(h, h') && Typed(h) && Memory(t, h, l)
    ensures Memory(t, h', l)
  {
    if Claim in h { assert Fits(Claim, h[Claim]); SettlesClaim(h, h'); }
    if Child(TJwt) in h { assert Cooperates(h[Child(TJwt)], h'[Child(TJwt)]) && Fits(Child(TJwt), h[Child(TJwt)]); }
    if Child(TCreds) in h { assert Cooperates(h[Child(TCreds)], h'[Child(TCreds)]) && Fits(Child(TCreds), h[Child(TCreds)]); }
    if Child(TJob) in h { assert Cooperates(h[Child(TJob)], h'[Child(TJob)]); }
  }

  lemma SettlesSound(t: Tenant, h: Home, h': Home, l: Local)
    requires Settles(h, h') && Sound(t, h, l) && Alive(h) && Supplied(h)
    ensures Sound(t, h', l) && Alive(h') && Supplied(h') && h'[Claim] == h[Claim]
  {
    SettlesClaim(h, h');
    SettlesSupplied(h, h');
    SettlesTyped(h, h');
    assert Live(h, l);
    SettlesGated(h, h');
    SettlesAgreed(t, h, h');
    SettlesMemory(t, h, h', l);
  }

  lemma SettlesNoWorse(h: Home, h': Home)
    requires Settles(h, h') && Typed(h) && Alive(h)
    ensures NoWorse(h, h')
  {
    SettlesClaim(h, h');
    if Child(TNamespace) in h { assert Cooperates(h[Child(TNamespace)], h'[Child(TNamespace)]); }
    if Child(TDatabase) in h { assert Cooperates(h[Child(TDatabase)], h'[Child(TDatabase)]); }
    if Child(TJob) in h { assert Cooperates(h[Child(TJob)], h'[Child(TJob)]); }
    forall svc | Sized(h, svc) ensures Rolled(h', svc) {
      assert Cooperates(h[Child(TDeploy(svc))], h'[Child(TDeploy(svc))]);
    }
  }

  // ---- level 4: the finalizer

  /** A custom resource that nobody has deleted, still without its finalizer. */
  ghost predicate Unmarked(h: Home) {
    Claim in h && h[Claim].ClaimObj? && !h[Claim].cr.deleting && !h[Claim].cr.finalizer
  }

  lemma FinalizerRound(t: Tenant, h: Home, ks: seq<Tick>)
    requires Unmarked(h) && Whole(ks)
    ensures AfterPass(t, h, ks) == h[Claim := ClaimObj(h[Claim].cr.(finalizer := true))]
  {
    var w := Step(t, h, Begin(), ks[0]);
    PutBack(h, Claim);
    assert w.local.pc == PutFinalizer && w.local.cr == h[Claim].cr;
    PuttingFinalizer(t, h, w.local, ks[1..]);
    assert AfterPass(t, h, ks) == Burst(t, h, w.local, ks[1..]).0;
  }

  lemma PuttingFinalizer(t: Tenant, h: Home, l: Local, ks: seq<Tick>)
    requires Unmarked(h) && Calm(ks) && |ks| > 0
    requires l.Pass? && l.pc.PutFinalizer? && l.cr == h[Claim].cr
    ensures Burst(t, h, l, ks).0 == h[Claim := ClaimObj(h[Claim].cr.(finalizer := true))]
  {
    var w := Step(t, h, l, ks[0]);
    assert w.local.pc.Stop?;
    assert Burst(t, h, l, ks) == Burst(t, Put(h, w.slot, w.obj), w.local, ks[1..]);
  }

  // ---- levels 3 and 2: a pass that gives up leaves its prerequisites to the platform

  lemma ParkedPass(h0: Home, h1: Home)
    requires Alive(h0) && h0[Claim].cr.finalizer && Alive(h1) && h1[Claim].cr.finalizer && ParkEnd(h0, h1)
    ensures Owed(h1) <= 2 && (NamespaceUp(h0) ==> Owed(h1) <= 1)
  {
    if NamespaceUp(h0) { assert At(h1, Child(TNamespace)) == At(h0, Child(TNamespace)); }
  }

  // ---- level 1: a full pass leaves every deployment with the wanted replicas

  lemma MadeReplicas(t: Tenant, was: Option<Obj>, now: Option<Obj>, spec: Spec, parent: Parent, ctx: Context, svc: Svc)
    requires was.Some? ==> was.value.DeploymentObj?
    requires !spec.suspended && now == Made(t, spec, parent, ctx, was, TDeploy(svc))
    ensures now.Some? && now.value.DeploymentObj? && now.value.deployment.replicas == Replicas(spec.preset)
            && (was.Some? ==> now.value.ready == was.value.ready)
  {
    if was.Some? {
      MendedDeployment(t, was.value, spec, parent, ctx, svc);
    } else {
      DesiredReplicas(t, spec, parent, ctx, svc);
    }
  }

  lemma FullMade(t: Tenant, h0: Home, h1: Home, x: Target)
    requires FullEnd(t, h0, h1) && !IsSecret(x)
    ensures At(h1, Child(x)) == Made(t, h0[Claim].cr.spec, h0[ParentSlot].parent, Stored(t, h1), At(h0, Child(x)), x)
  {
    assert Dealing(t, At(h0, Child(x)), At(h1, Child(x)), h0[Claim].cr.spec, h0[ParentSlot].parent, Stored(t, h1), x);
  }

  /** A deployment after a full pass: the wanted replicas, and as many of them ready as before. */
  ghost predicate Staffed(was: Option<Obj>, now: Option<Obj>, replicas: int) {
    && now.Some? && now.value.DeploymentObj? && now.value.deployment.replicas == replicas
    && (was.Some? ==> was.value.DeploymentObj? && now.value.ready == was.value.ready)
  }

  lemma MadeStaffed(t: Tenant, h: Home, now: Option<Obj>, spec: Spec, parent: Parent, ctx: Context, svc: Svc)
    requires Typed(h) && !spec.suspended && now == Made(t, spec, parent, ctx, At(h, Child(TDeploy(svc))), TDeploy(svc))
    ensures Staffed(At(h, Child(TDeploy(svc))), now, Replicas(spec.preset))
  {
    var s := Child(TDeploy(svc));
    if s in h { assert Fits(s, h[s]); }
    MadeReplicas(t, At(h, s), now, spec, parent, ctx, svc);
  }

  lemma FullDeployment(t: Tenant, h0: Home, h1: Home, svc: Svc)
    requires Typed(h0) && FullEnd(t, h0, h1) && Alive(h0)
    ensures Staffed(At(h0, Child(TDeploy(svc))), At(h1, Child(TDeploy(svc))), Replicas(h0[Claim].cr.spec.preset))
  {
    FullMade(t, h0, h1, TDeploy(svc));
    MadeStaffed(t, h0, At(h1, Child(TDeploy(svc))), h0[Claim].cr.spec, h0[ParentSlot].parent, Stored(t, h1), svc);
  }

  lemma FullPass(t: Tenant, h0: Home, h1: Home)
    requires Typed(h0) && FullEnd(t, h0, h1) && Alive(h0) && Alive(h1) && h1[Claim].cr.finalizer
    ensures Owed(h1) == 0
  {
    forall svc ensures Sized(h1, svc) { FullDeployment(t, h0, h1, svc); }
  }

  // ---- level 0: the report

  lemma ReadyRound(t: Tenant, h0: Home, h1: Home)
    requires Typed(h0) && FullEnd(t, h0, h1) && Alive(h0) && forall svc :: Rolled(h0, svc)
    ensures Alive(h1) && ReportedReady(h1)
  {
    forall svc ensures Health(h1, CService(svc), false) {
      FullDeployment(t, h0, h1, svc);
      assert Rolled(h0, svc);
      ReplicasPositive(h0[Claim].cr.spec.preset);
    }
  }

  lemma ReplicasPositive(p: Preset)
    ensures Replicas(p) >= 1
  {
  }

  // ---------------------------------------------------------------- rounds

  /** A fault-free pass over a live tenant takes it to within one level less, once the platform catches up, or,
      at the last level, has it reported ready. */
  lemma CalmPassCounts(t: Tenant, h: Home, ks: seq<Tick>)
    requires Sound(t, h, Idle) && Alive(h) && Supplied(h) && Whole(ks)
    ensures var h1 := AfterPass(t, h, ks);
      && Alive(h1) && Owed(h1) <= (if Level(h) > 0 then Level(h) - 1 else 0)
      && (Level(h) == 0 ==> ReportedReady(h1))
  {
    var h1 := AfterPass(t, h, ks);
    FaultsDoNotSetBack(t, h, ks);
    if !h[Claim].cr.finalizer {
      FinalizerRound(t, h, ks);
    } else {
      PassOutcome(t, h, ks);
      if Prepared(h) {
        FullPass(t, h, h1);
        if Level(h) == 0 { ReadyRound(t, h, h1); }
      } else {
        ParkedPass(h, h1);
      }
    }
  }

  /** When the platform has caught up, the tenant is at the level that was owed. */
  lemma CatchingUp(t: Tenant, h: Home, l: Local, h': Home)
    requires Sound(t, h, l) && Alive(h) && Supplied(h) && Settles(h, h')
    ensures Sound(t, h', l) && Alive(h') && Supplied(h') && h'[Claim] == h[Claim]
    ensures Level(h') <= Owed(h) && Level(h') <= Level(h) && Owed(h') <= Owed(h)
  {
    SettlesSound(t, h, h', l);
    SettlesNoWorse(h, h');
    NoWorseLevel(h, h');
    assert Live(h, l);
    SettledPrerequisites(h, h');
    SettledLevel(h, h');
  }

  lemma SettledPrerequisites(h: Home, h': Home)
    requires Typed(h) && !Doomed(h) && Settles(h, h')
    ensures Child(TNamespace) in h ==> NamespaceUp(h')
    ensures Child(TJob) in h ==> JobDone(h')
    ensures DatabaseFine(h')
  {
    if Child(TNamespace) in h { assert Cooperates(h[Child(TNamespace)], h'[Child(TNamespace)]) && Fits(Child(TNamespace), h[Child(TNamespace)]); }
    if Child(TDatabase) in h { assert Cooperates(h[Child(TDatabase)], h'[Child(TDatabase)]) && Fits(Child(TDatabase), h[Child(TDatabase)]); }
    if Child(TJob) in h { assert Cooperates(h[Child(TJob)], h'[Child(TJob)]) && Fits(Child(TJob), h[Child(TJob)]); }
  }

  lemma SettledLevel(h: Home, h': Home)
    requires Settles(h, h') && Alive(h) && Alive(h') && h'[Claim] == h[Claim] && DatabaseFine(h')
    requires Child(TNamespace) in h ==> NamespaceUp(h')
    requires Child(TJob) in h ==> JobDone(h')
    ensures Level(h') <= Owed(h)
  {
    forall svc | Sized(h, svc) ensures Rolled(h', svc) {
      assert Cooperates(h[Child(TDeploy(svc))], h'[Child(TDeploy(svc))]);
    }
  }

  /** A fault-free pass and a cooperating platform take a live tenant one level further, or, at the last
      level, have it reported ready. */
  lemma CalmRound(t: Tenant, h: Home, ks: seq<Tick>, h2: Home)
    requires Sound(t, h, Idle) && Alive(h) && Supplied(h) && Whole(ks) && Settles(AfterPass(t, h, ks), h2)
    ensures Alive(h2) && Level(h2) <= Level(h)
    ensures Level(h) > 0 ==> Level(h2) < Level(h)
    ensures Level(h) == 0 ==> ReportedReady(h2)
  {
    FaultsDoNotSetBack(t, h, ks);
    CalmPassCounts(t, h, ks);
    CatchingUp(t, AfterPass(t, h, ks), Idle, h2);
  }

  // ---------------------------------------------------------------- what else may happen

  /** What does not work against the tenant: calls of its passes with any faults, crashes, and what the platform
      does, except that it refuses the database or takes replicas of a deployment down that is complete. */
  ghost predicate Helpful(h: Home, e: Happening)
    requires Alive(h)
  {
    match e
    case DatabaseApplied(b) => b != Some(false)
    case ReplicasMove(svc, n) => Rolled(h, svc) ==> n == Replicas(h[Claim].cr.spec.preset)
    case UserCreates(_) => false
    case UserEdits(_) => false
    case UserDeletes => false
    case _ => true
  }

  lemma FieldNoWorse(t: Tenant, h: Home, l: Local, e: Happening)
    requires Alive(h) && (e.NamespaceActivates? || e.JobSucceeds? || (e.DatabaseApplied? && Helpful(h, e)))
    ensures var w := Happens(t, h, l, e); NoWorse(h, Put(h, w.slot, w.obj)) && w.slot.Child? && w.local == l
  {
    PutBack(h, Happens(t, h, l, e).slot);
  }

  lemma ReplicasNoWorse(t: Tenant, h: Home, l: Local, e: Happening)
    requires Alive(h) && e.ReplicasMove? && Helpful(h, e)
    ensures var w := Happens(t, h, l, e); NoWorse(h, Put(h, w.slot, w.obj)) && w.slot.Child? && w.local == l
  {
    PutBack(h, Child(TDeploy(e.svc)));
  }

  /** A live tenant's namespace is not on its way out, so that nothing is swept. */
  lemma NothingSwept(t: Tenant, h: Home, l: Local, e: Happening)
    requires Sound(t, h, l) && Alive(h) && (e.Sweep? || e.NamespaceGone? || e.PassStart? || e.Crash?)
    ensures var w := Happens(t, h, l, e); Put(h, w.slot, w.obj) == h && (w.local == l || w.local == Begin() || w.local == Idle)
  {
    assert Live(h, l);
    PutBack(h, Happens(t, h, l, e).slot);
  }

  lemma HelpfulNoWorse(t: Tenant, h: Home, l: Local, e: Happening)
    requires Sound(t, h, l) && Alive(h) && Current(h, l) && Helpful(h, e)
    ensures var w := Happens(t, h, l, e); var h' := Put(h, w.slot, w.obj);
            NoWorse(h, h') && Around(h, h') && Current(h', w.local)
  {
    if e.PassStep? {
      if Running(l) { StepNoWorse(t, h, l, e.tick); } else { PutBack(h, Claim); }
    } else if e.Sweep? || e.NamespaceGone? || e.PassStart? || e.Crash? {
      NothingSwept(t, h, l, e);
    } else {
      if e.ReplicasMove? { ReplicasNoWorse(t, h, l, e); } else { FieldNoWorse(t, h, l, e); }
      var w := Happens(t, h, l, e);
      CurrentElsewhere(h, Put(h, w.slot, w.obj), l);
    }
  }

  /** A live tenant in good order, in the middle of a pass or between passes. */
  ghost predicate Thriving(t: Tenant, at: (Home, Local)) {
    Sound(t, at.0, at.1) && Alive(at.0) && Supplied(at.0) && Current(at.0, at.1)
  }

  lemma HelpfulThrives(t: Tenant, h: Home, l: Local, e: Happening)
    requires Thriving(t, (h, l)) && Helpful(h, e)
    ensures var w := Happens(t, h, l, e); var h' := Put(h, w.slot, w.obj);
            Thriving(t, (h', w.local)) && Level(h') <= Level(h) && Owed(h') <= Owed(h)
  {
    var w := Happens(t, h, l, e);
    HelpfulNoWorse(t, h, l, e);
    NoWorseLevel(h, Put(h, w.slot, w.obj));
    HappeningKeepsSound(t, h, l, e);
  }

  // ---------------------------------------------------------------- histories

  /** A whole fault-free pass with nothing in between; the platform has caught up; anything else that does not
      work against the tenant, such as a call of a failing pass or a move of the platform. */
  datatype Item = CalmPass(ks: seq<Tick>) | CatchUp | Other(e: Happening)

  ghost predicate Moved(t: Tenant, a: (Home, Local), i: Item, b: (Home, Local)) {
    match i
    case CalmPass(ks) => Whole(ks) && b == (AfterPass(t, a.0, ks), Idle)
    case CatchUp => Settles(a.0, b.0) && b.1 == a.1
    case Other(e) =>
      Alive(a.0) && Helpful(a.0, e) && var w := Happens(t, a.0, a.1, e); b == (Put(a.0, w.slot, w.obj), w.local)
  }

  ghost predicate History(t: Tenant, hs: seq<(Home, Local)>, items: seq<Item>) {
    |hs| == |items| + 1 && forall i :: 0 <= i < |items| ==> Moved(t, hs[i], items[i], hs[i + 1])
  }

  /** The rounds of a history: a fault-free pass, and some time later the platform has caught up. The second
      component says that a round has begun. */
  ghost function Rounds(items: seq<Item>): (nat, bool) {
    if |items| == 0 then (0, false) else RoundsWith(Rounds(items[..|items| - 1]), items[|items| - 1])
  }

  function RoundsWith(r: (nat, bool), i: Item): (nat, bool) {
    match i
    case CalmPass(_) => (r.0, true)
    case CatchUp => (if r.1 then r.0 + 1 else r.0, false)
    case Other(_) => r
  }

  function Less(level: nat, n: nat): nat { if n < level then level - n else 0 }

  /** How far a tenant is that was at the given level before the rounds. */
  ghost predicate Advanced(h: Home, level: nat, rounds: (nat, bool))
    requires Alive(h)
  {
    Level(h) <= Less(level, rounds.0) && (rounds.1 ==> Owed(h) <= Less(level, rounds.0 + 1))
  }

  lemma ItemAdvances(t: Tenant, a: (Home, Local), i: Item, b: (Home, Local), level: nat, r: (nat, bool))
    requires Thriving(t, a) && Moved(t, a, i, b) && Advanced(a.0, level, r)
    ensures Thriving(t, b) && Advanced(b.0, level, RoundsWith(r, i))
    ensures i.CalmPass? && r.0 >= level ==> ReportedReady(b.0)
  {
    match i
    case CalmPass(ks) =>
      BeginKeepsSound(t, a.0, a.1);
      FaultsDoNotSetBack(t, a.0, ks);
      CalmPassCounts(t, a.0, ks);
    case CatchUp =>
      CatchingUp(t, a.0, a.1, b.0);
      CurrentElsewhere(a.0, b.0, a.1);
    case Other(e) => HelpfulThrives(t, a.0, a.1, e);
  }

  lemma HistoryBefore(t: Tenant, hs: seq<(Home, Local)>, items: seq<Item>)
    requires History(t, hs, items) && |items| > 0
    ensures var n := |items|; History(t, hs[..n], items[..n - 1]) && Moved(t, hs[n - 1], items[n - 1], hs[n])
  {
    var n := |items|;
    var before, earlier := hs[..n], items[..n - 1];
    forall i | 0 <= i < n - 1 ensures Moved(t, before[i], earlier[i], before[i + 1]) {
      assert Moved(t, hs[i], items[i], hs[i + 1]);
    }
  }

  lemma RoundsLast(items: seq<Item>)
    requires |items| > 0
    ensures Rounds(items) == RoundsWith(Rounds(items[..|items| - 1]), items[|items| - 1])
  {
  }

  /** Convergence. In a history of a live tenant calls of its passes fail, passes are cut short, the operator
      restarts and the platform moves at its own pace, all in any order. However that goes, each round counts:
      after as many of them as the level of the first state - four are always enough, from an empty cluster
      too - every fault-free pass leaves the tenant reported ready. */
  lemma {:induction false} Converges(t: Tenant, hs: seq<(Home, Local)>, items: seq<Item>)
    requires History(t, hs, items) && Thriving(t, hs[0])
    ensures Thriving(t, hs[|items|]) && Advanced(hs[|items|].0, Level(hs[0].0), Rounds(items))
    ensures |items| > 0 && items[|items| - 1].CalmPass? && Rounds(items).0 >= Level(hs[0].0) ==> ReportedReady(hs[|items|].0)
    decreases |items|
  {
    if |items| > 0 {
      var n := |items|;
      HistoryBefore(t, hs, items);
      RoundsLast(items);
      Converges(t, hs[..n], items[..n - 1]);
      ItemAdvances(t, hs[n - 1], items[n - 1], hs[n], Level(hs[0].0), Rounds(items[..n - 1]));
    }
  }
}
