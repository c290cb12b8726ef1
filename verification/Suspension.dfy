/** The phase Suspended is reported whatever became of the workloads: when does it mean that they are silent? */
module Suspension {
  import opened Options
  import opened Objects
  import opened Tenants
  import opened Machine
  import opened Safety
  import opened Orders
  import opened Statuses
  import opened Passes

  /** The service has no deployment, or one without replicas. */
  ghost predicate Silent(h: Home, svc: Svc) {
    var s := Child(TDeploy(svc)); s in h ==> h[s].DeploymentObj? && h[s].deployment.replicas == 0
  }

  ghost predicate AllSilent(h: Home) {
    Child(TRoute) !in h && forall svc :: Silent(h, svc)
  }

  /** The next call, if it is one that suspends something, is answered if it is a read, takes effect if it is
      a write, or has nothing left to do. */
  ghost predicate Suspends(h: Home, l: Local, k: Tick)
    requires Running(l)
  {
    match l.pc
    case Quiesce(svc, act) => (if act.Look? then k.fault.NoFault? else k.fault != Transient(false)) || Silent(h, svc)
    case Unroute(act) => (if act.Look? then k.fault.NoFault? else k.fault != Transient(false)) || Child(TRoute) !in h
    case _ => true
  }

  ghost predicate AllSuspend(t: Tenant, h: Home, l: Local, ks: seq<Tick>)
    decreases |ks|
  {
    |ks| > 0 && Running(l) ==>
      Suspends(h, l, ks[0]) && var w := Step(t, h, l, ks[0]); AllSuspend(t, Put(h, w.slot, w.obj), w.local, ks[1..])
  }

  // ---------------------------------------------------------------- a suspended pass

  /** The pass is at work on a suspended tenant, or has ended. */
  ghost predicate Muted(l: Local) {
    && l.Pass? && (Working(l) || l.pc.Stop?)
    && (Working(l) ==> l.cr.spec.suspended && !((l.pc.Ensure? || l.pc.Check?) && Mended(l.pc.target)))
    && (l.pc.Report? ==> l.status.phase == Suspended)
  }

  /** The turn of a service is over. */
  ghost predicate Behind(pc: PC, svc: Svc) {
    pc.Report? || Concluded(pc) > Place(CService(svc))
  }

  /** Everything whose turn is over is silent. */
  ghost predicate SilentSoFar(h: Home, l: Local)
    requires l.Pass?
  {
    (forall svc :: Behind(l.pc, svc) ==> Silent(h, svc)) && (l.pc.Report? ==> Child(TRoute) !in h)
  }

  lemma ConcludeMuted(t: Tenant, l: Local, c: Component, v: Verdict)
    requires l.Pass? && l.cr.spec.suspended
    ensures Muted(Conclude(t, l, c, v))
  {
  }

  lemma EnsureMuted(t: Tenant, l: Local, r: Resp, luck: Luck)
    requires Running(l) && Muted(l) && l.pc.Ensure?
    ensures var m := Resume(t, l, r, luck); Muted(m) && !m.pc.Report? && forall svc :: !Behind(m.pc, svc)
  {
    var x := l.pc.target;
    ConcludeMuted(t, l, ComponentOf(x), ReconcileFailed);
    if l.pc.act.Look? { LookMoves(t, l, x, r, luck); assert Resume(t, l, r, luck) == AfterLook(t, l, x, r, luck); }
    else { assert Resume(t, l, r, luck) == AfterWrite(t, l, x, r); }
    EarlyTurns(t, l, x, ReconcileFailed);
  }

  /** Among prerequisites no service's turn is over. */
  lemma EarlyTurns(t: Tenant, l: Local, x: Target, v: Verdict)
    requires l.Pass? && l.cr.spec.suspended && !Mended(x)
    ensures var m := Conclude(t, l, ComponentOf(x), v); !m.pc.Report? && forall svc :: !Behind(m.pc, svc)
    ensures forall act, svc :: !Behind(Ensure(x, act), svc)
    ensures forall svc :: !Behind(AfterEnsure(x), svc)
    ensures !((AfterEnsure(x).Ensure? || AfterEnsure(x).Check?) && Mended(AfterEnsure(x).target))
  {
  }

  lemma CheckMuted(t: Tenant, l: Local, r: Resp, luck: Luck)
    requires Running(l) && Muted(l) && l.pc.Check?
    ensures var m := Resume(t, l, r, luck); Muted(m) && !m.pc.Report? && forall svc :: !Behind(m.pc, svc)
  {
    var x := l.pc.target;
    CheckMoves(t, l, x, r);
    assert Resume(t, l, r, luck) == AfterCheck(t, l, x, r);
    ConcludeMuted(t, l, ComponentOf(x), HealthcheckFailed);
    ConcludeMuted(t, l, ComponentOf(x), Unhealthy);
    ConcludeMuted(t, l, ComponentOf(x), Healthy);
    EarlyTurns(t, l, x, HealthcheckFailed);
    EarlyTurns(t, l, x, Unhealthy);
    EarlyTurns(t, l, x, Healthy);
  }

  /** The turn after a service's own. */
  lemma ServiceTurns(t: Tenant, l: Local, svc: Svc, v: Verdict)
    requires l.Pass? && l.cr.spec.suspended
    ensures var m := Conclude(t, l, CService(svc), v);
            !m.pc.Report? && forall other :: Behind(m.pc, other) <==> Place(CService(other)) <= Place(CService(svc))
  {
  }

  // ---------------------------------------------------------------- one call

  ghost predicate SameElsewhere(h: Home, h': Home, l: Local)
    requires l.Pass?
  {
    && (forall svc :: !(l.pc.Quiesce? && l.pc.svc == svc) ==> At(h', Child(TDeploy(svc))) == At(h, Child(TDeploy(svc))))
    && (!l.pc.Unroute? ==> At(h', Child(TRoute)) == At(h, Child(TRoute)))
  }

  lemma StepElsewhere(t: Tenant, h: Home, l: Local, k: Tick)
    requires Orderly(h, l) && Running(l) && Muted(l)
    ensures var w := Step(t, h, l, k); SameElsewhere(h, Put(h, w.slot, w.obj), l)
  {
    if l.pc.Quiesce? { QuiesceStep(t, h, l, k); }
    else if l.pc.Unroute? { UnrouteStep(t, h, l, k); }
    else if !InComponent(l) { StatusOrRead(t, h, l, k); }
  }

  lemma StatusOrRead(t: Tenant, h: Home, l: Local, k: Tick)
    requires Running(l) && (l.pc.ReadParent? || l.pc.ReportLost? || l.pc.Park? || l.pc.Report?)
    ensures var w := Step(t, h, l, k); SameChildren(h, Put(h, w.slot, w.obj))
  {
    if l.pc.ReadParent? { ReadStep(t, h, l, k); } else { StatusStep(t, h, l, k); }
  }

  lemma SilentSame(h: Home, h': Home, svc: Svc)
    requires At(h', Child(TDeploy(svc))) == At(h, Child(TDeploy(svc)))
    ensures Silent(h', svc) == Silent(h, svc)
  {
  }

  /** At a service's turn: going on to scale it, or on to the next; silent then exactly if the call did its work. */
  lemma QuiesceCall(t: Tenant, h: Home, l: Local, k: Tick)
    requires Typed(h) && Running(l) && Muted(l) && l.pc.Quiesce?
    ensures var w, svc := Step(t, h, l, k), l.pc.svc; var h' := Put(h, w.slot, w.obj);
      || (l.pc.act.Look? && h' == h && w.local == l.(pc := Quiesce(svc, Fix)) && Suspends(h, l, k))
      || ((exists v :: w.local == Conclude(t, l, CService(svc), v)) && (Silent(h', svc) <==> Suspends(h, l, k)))
  {
    var svc, s := l.pc.svc, Child(TDeploy(l.pc.svc));
    PutBack(h, s);
    if s in h { assert Fits(s, h[s]); }
    var w := Step(t, h, l, k);
    if !(l.pc.act.Look? && s in h && k.fault.NoFault?) {
      assert w.local == Conclude(t, l, CService(svc), Healthy) || w.local == Conclude(t, l, CService(svc), ReconcileFailed);
    }
  }

  lemma UnrouteCall(t: Tenant, h: Home, l: Local, k: Tick)
    requires Typed(h) && Running(l) && Muted(l) && l.pc.Unroute?
    ensures var w := Step(t, h, l, k); var h' := Put(h, w.slot, w.obj);
      || (l.pc.act.Look? && h' == h && w.local == l.(pc := Unroute(Fix)) && Suspends(h, l, k))
      || ((exists v :: w.local == Conclude(t, l, CRouting, v)) && (Child(TRoute) !in h' <==> Suspends(h, l, k)))
  {
    var s := Child(TRoute);
    PutBack(h, s);
    if s in h { assert Fits(s, h[s]); }
    var w := Step(t, h, l, k);
    if !(l.pc.act.Look? && s in h && k.fault.NoFault?) {
      assert w.local == Conclude(t, l, CRouting, Healthy) || w.local == Conclude(t, l, CRouting, ReconcileFailed);
    }
  }

  lemma RestMuted(t: Tenant, l: Local, r: Resp, luck: Luck)
    requires Running(l) && Muted(l) && (l.pc.ReadParent? || l.pc.ReportLost? || l.pc.Park? || l.pc.Report?)
    ensures var m := Resume(t, l, r, luck); Muted(m) && !m.pc.Report? && (forall svc :: !Behind(m.pc, svc)) && (l.pc.Report? ==> m.pc.Stop?)
  {
  }

  lemma SuspendedMuted(t: Tenant, l: Local, r: Resp, luck: Luck)
    requires Running(l) && Muted(l) && (l.pc.Quiesce? || l.pc.Unroute?)
    ensures Muted(Resume(t, l, r, luck))
  {
    var c := if l.pc.Quiesce? then CService(l.pc.svc) else CRouting;
    ConcludeMuted(t, l, c, Healthy);
    ConcludeMuted(t, l, c, ReconcileFailed);
  }

  lemma StepMuted(t: Tenant, h: Home, l: Local, k: Tick)
    requires Running(l) && Muted(l)
    ensures var m := Step(t, h, l, k).local;
      && Muted(m) && (l.pc.Report? ==> m.pc.Stop?)
      && (!l.pc.Quiesce? && !l.pc.Unroute? ==> !m.pc.Report? && forall svc :: !Behind(m.pc, svc))
  {
    var op := NextOp(t, l);
    var r := Serve(At(h, op.slot), Open(h, op.slot), op.verb, k.fault).1;
    assert Step(t, h, l, k).local == Resume(t, l, r, k.luck);
    if l.pc.Ensure? { EnsureMuted(t, l, r, k.luck); }
    else if l.pc.Check? { CheckMuted(t, l, r, k.luck); }
    else if l.pc.Quiesce? || l.pc.Unroute? { SuspendedMuted(t, l, r, k.luck); }
    else { RestMuted(t, l, r, k.luck); }
  }

  /** Silence, call by call: kept when the call does its work, broken for good when it does not. */
  lemma QuiesceSilence(t: Tenant, h: Home, h': Home, l: Local, m: Local, works: bool)
    requires Running(l) && Muted(l) && l.pc.Quiesce? && m.Pass? && SameElsewhere(h, h', l)
    requires || (h' == h && m == l.(pc := Quiesce(l.pc.svc, Fix)) && works)
             || ((exists v :: m == Conclude(t, l, CService(l.pc.svc), v)) && (Silent(h', l.pc.svc) <==> works))
    ensures SilentSoFar(h', m) <==> SilentSoFar(h, l) && works
  {
    var svc := l.pc.svc;
    forall other | other != svc ensures Silent(h', other) == Silent(h, other) { SilentSame(h, h', other); }
    if !(h' == h && m == l.(pc := Quiesce(svc, Fix)) && works) {
      var v :| m == Conclude(t, l, CService(svc), v);
      ServiceTurns(t, l, svc, v);
      TurnsOf(svc);
      assert Behind(m.pc, svc);
    }
  }

  lemma TurnsOf(svc: Svc)
    ensures forall act, other :: Behind(Quiesce(svc, act), other) <==> Place(CService(other)) < Place(CService(svc))
    ensures forall other :: Place(CService(other)) == Place(CService(svc)) ==> other == svc
  {
  }

  lemma UnrouteSilence(t: Tenant, h: Home, h': Home, l: Local, m: Local, works: bool)
    requires Running(l) && Muted(l) && l.pc.Unroute? && m.Pass? && SameElsewhere(h, h', l)
    requires || (h' == h && m == l.(pc := Unroute(Fix)) && works)
             || ((exists v :: m == Conclude(t, l, CRouting, v)) && (Child(TRoute) !in h' <==> works))
    ensures SilentSoFar(h', m) <==> SilentSoFar(h, l) && works
  {
    forall svc ensures Silent(h', svc) == Silent(h, svc) { SilentSame(h, h', svc); }
    forall svc, act ensures Behind(Unroute(act), svc) {}
  }

  lemma SilenceStep(t: Tenant, h: Home, l: Local, k: Tick)
    requires Orderly(h, l) && Running(l) && Muted(l) && !l.pc.Report?
    ensures var w := Step(t, h, l, k); var h', m := Put(h, w.slot, w.obj), w.local;
            m.pc.Stop? || (SilentSoFar(h', m) <==> SilentSoFar(h, l) && Suspends(h, l, k))
  {
    var w := Step(t, h, l, k);
    var h' := Put(h, w.slot, w.obj);
    StepElsewhere(t, h, l, k);
    StepMuted(t, h, l, k);
    if l.pc.Quiesce? {
      QuiesceCall(t, h, l, k);
      QuiesceSilence(t, h, h', l, w.local, Suspends(h, l, k));
    } else if l.pc.Unroute? {
      UnrouteCall(t, h, l, k);
      UnrouteSilence(t, h, h', l, w.local, Suspends(h, l, k));
    } else {
      NoTurnYet(l);
    }
  }

  lemma NoTurnYet(l: Local)
    requires Muted(l) && Working(l) && !l.pc.Quiesce? && !l.pc.Unroute? && !l.pc.Report?
    ensures forall svc :: !Behind(l.pc, svc)
  {
  }

  lemma {:induction false} SilenceBurst(t: Tenant, h: Home, l: Local, ks: seq<Tick>)
    requires Orderly(h, l) && Muted(l) && Burst(t, h, l, ks).1.Pass? && Burst(t, h, l, ks).1.pc.Report?
    ensures var (h1, l1) := Burst(t, h, l, ks);
            Muted(l1) && (SilentSoFar(h1, l1) <==> SilentSoFar(h, l) && AllSuspend(t, h, l, ks))
    decreases |ks|
  {
    if |ks| > 0 && Running(l) {
      var w := Step(t, h, l, ks[0]);
      StepMuted(t, h, l, ks[0]);
      StepKeepsOrderly(t, h, l, ks[0]);
      if !l.pc.Report? { SilenceStep(t, h, l, ks[0]); }
      SilenceBurst(t, Put(h, w.slot, w.obj), w.local, ks[1..]);
    }
  }

  lemma ReportStored(t: Tenant, h: Home, l: Local, k: Tick)
    requires Orderly(h, l) && Running(l) && l.pc.Report? && k.fault != Transient(false)
    ensures var w := Step(t, h, l, k); var h' := Put(h, w.slot, w.obj);
            SameChildren(h, h') && Claim in h' && h'[Claim].ClaimObj? && h'[Claim].cr.status == l.status
  {
    assert Fits(Claim, h[Claim]);
  }

  lemma SilentStored(h: Home, h': Home, l: Local)
    requires SameChildren(h, h') && l.Pass? && l.pc.Report?
    ensures AllSilent(h') <==> SilentSoFar(h, l)
  {
    SameStands(h, h', TRoute);
    forall svc ensures Silent(h', svc) == Silent(h, svc) && Behind(l.pc, svc) { SilentSame(h, h', svc); }
  }

  /** What a persisted Suspended means. A pass over a suspended tenant, with any faults, gets to its report and
      stores the phase Suspended. Then every deployment is without replicas and the route is gone if and only
      if each of its suspending calls was answered, for a read, or took effect, for a write, unless there was
      nothing to do. */
  lemma SuspendedExactly(t: Tenant, h: Home, l: Local, ks: seq<Tick>, k: Tick)
    requires Orderly(h, l) && l.Pass? && l.pc.ReadParent? && l.cr.spec.suspended
    requires var l1 := Burst(t, h, l, ks).1; l1.Pass? && l1.pc.Report? && k.fault != Transient(false)
    ensures var (h1, l1) := Burst(t, h, l, ks); var w := Step(t, h1, l1, k); var h2 := Put(h1, w.slot, w.obj);
      && Claim in h2 && h2[Claim].ClaimObj? && h2[Claim].cr.status.phase == Suspended
      && (AllSilent(h2) <==> AllSuspend(t, h, l, ks))
  {
    var (h1, l1) := Burst(t, h, l, ks);
    var w := Step(t, h1, l1, k);
    NoTurnYet(l);
    SilenceBurst(t, h, l, ks);
    BurstKeepsOrderly(t, h, l, ks);
    ReportStored(t, h1, l1, k);
    SilentStored(h1, Put(h1, w.slot, w.obj), l1);
  }

  /** A failing read at a service's turn is enough: the deployment keeps its replicas, the service is recorded
      as healthy, and the pass goes on to report Suspended. */
  lemma ReadErrorKeepsRunning(t: Tenant, h: Home, l: Local, k: Tick)
    requires Running(l) && Muted(l) && l.pc.Quiesce? && l.pc.act.Look? && k.fault.Transient?
    ensures var w := Step(t, h, l, k); Put(h, w.slot, w.obj) == h && w.local == Conclude(t, l, CService(l.pc.svc), Healthy)
    ensures !Silent(h, l.pc.svc) ==> !SilentSoFar(h, Step(t, h, l, k).local)
  {
    PutBack(h, Child(TDeploy(l.pc.svc)));
    ServiceTurns(t, l, l.pc.svc, Healthy);
  }
}
