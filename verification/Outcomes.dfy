/** What a fault-free pass over a wanted tenant comes to: everything in place and reported, or, when a
    prerequisite is not up, prerequisites in place and workloads untouched. */
module Outcomes {
  import opened Options
  import opened Objects
  import opened Tenants
  import opened Machine
  import opened Safety
  import opened Statuses
  import opened Passes

  /** One pass from its beginning. */
  ghost function AfterPass(t: Tenant, h: Home, ks: seq<Tick>): Home {
    Burst(t, h, Begin(), ks).0
  }

  /** Enough fault-free ticks for a whole pass. */
  ghost predicate Whole(ks: seq<Tick>) {
    Calm(ks) && |ks| >= 112
  }

  /** A tenant that is to be built: its finalizer is in place and nobody has deleted it. */
  ghost predicate Wanted(h: Home) {
    Ready0(h) && h[Claim].cr.finalizer && !h[Claim].cr.deleting
  }

  ghost predicate DatabaseFine(h: Home) {
    Child(TDatabase) in h ==> DatabaseUp(h)
  }

  /** The prerequisites are up: namespace active, init job done, and the database not refused; a database that
      is missing will be created. */
  ghost predicate Prepared(h: Home) {
    NamespaceUp(h) && DatabaseFine(h) && JobDone(h)
  }

  ghost function Restated(h: Home, st: Status): Obj
    requires Claim in h && h[Claim].ClaimObj?
  {
    ClaimObj(h[Claim].cr.(status := st))
  }

  /** The pass reached its end: every object is dealt with, and the status says what the cluster shows. */
  ghost predicate FullEnd(t: Tenant, h0: Home, h1: Home) {
    && Ready0(h0) && Around(h0, h1)
    && Child(TJwt) in h1 && Child(TCreds) in h1
    && (forall x: Target ::
          Dealing(t, At(h0, Child(x)), At(h1, Child(x)), h0[Claim].cr.spec, h0[ParentSlot].parent, Stored(t, h1), x))
    && At(h1, Claim) == Some(Restated(h0, ExpectedStatus(t, h1, h0[Claim].cr, h0[ParentSlot].parent)))
    && NamespaceUp(h1) && Health(h1, CDatabase, false)
  }

  /** The pass gave up at a prerequisite. */
  ghost predicate ParkEnd(h0: Home, h1: Home) {
    && Ready0(h0) && GaveUp(h0, h1)
    && Claim in h1 && h1[Claim].ClaimObj? && h1[Claim] == Restated(h0, h1[Claim].cr.status)
    && h1[Claim].cr.status.phase.Provisioning?
  }

  // ---------------------------------------------------------------- from the beginning to the end

  /** Before anything is written. */
  ghost predicate Entering(h0: Home, h: Home, l: Local)
    requires Wanted(h0)
  {
    && h == h0 && l.Pass?
    && (l == Begin()
        || (l.pc.ReadParent? && l.cr == h0[Claim].cr && l.status == l.cr.status && l.servicesReady))
  }

  ghost predicate EndedWell(t: Tenant, h0: Home, h: Home, l: Local) {
    l.Pass? && l.pc.Stop? && (FullEnd(t, h0, h) || ParkEnd(h0, h))
  }

  ghost predicate Underway(t: Tenant, h0: Home, h: Home, l: Local) {
    Wanted(h0) && (Entering(h0, h, l) || Steady(t, h0, h, l) || EndedWell(t, h0, h, l))
  }

  lemma ClaimRead(t: Tenant, h0: Home, k: Tick)
    requires Wanted(h0) && CalmTick(k)
    ensures var w := Step(t, h0, Begin(), k); Put(h0, w.slot, w.obj) == h0 && Entering(h0, h0, w.local)
  {
    PutBack(h0, Claim);
  }

  lemma ParentRead(t: Tenant, h0: Home, l: Local, k: Tick)
    requires Wanted(h0) && CalmTick(k) && Entering(h0, h0, l) && l.pc.ReadParent?
    ensures var w := Step(t, h0, l, k);
            Put(h0, w.slot, w.obj) == h0 && w.local == l.(pc := Ensure(TNamespace, Look), parent := h0[ParentSlot].parent)
  {
    PutBack(h0, ParentSlot);
  }

  lemma WorkBegins(t: Tenant, h0: Home, l: Local)
    requires Wanted(h0) && Entering(h0, h0, l) && l.pc.ReadParent?
    ensures Steady(t, h0, h0, l.(pc := Ensure(TNamespace, Look), parent := h0[ParentSlot].parent))
  {
    var m := l.(pc := Ensure(TNamespace, Look), parent := h0[ParentSlot].parent);
    assert Dealt(m.pc) == 0 && Concluded(m.pc) == 0;
    assert OnTrack(t, h0, h0, m);
    assert Recording(t, h0, m);
  }

  lemma ReportStep(t: Tenant, h: Home, l: Local, k: Tick)
    requires Running(l) && CalmTick(k) && (l.pc.Report? || l.pc.Park?) && Claim in h && h[Claim].ClaimObj?
    ensures var w := Step(t, h, l, k);
            Put(h, w.slot, w.obj) == h[Claim := Restated(h, l.status)] && w.local.pc.Stop?
  {
  }

  /** Nothing but the claim's own status looks at the claim. */
  lemma {:induction false} ExpectedWithoutClaim(h: Home, o: Obj, cs: seq<Condition>, generation: int, suspended: bool, n: nat)
    requires n <= 9
    ensures Expected(h[Claim := o], cs, generation, suspended, n) == Expected(h, cs, generation, suspended, n)
  {
    if n > 0 {
      ExpectedWithoutClaim(h, o, cs, generation, suspended, n - 1);
      HealthWithoutClaim(h, o, ComponentAt(n - 1), suspended);
    }
  }

  lemma HealthWithoutClaim(h: Home, o: Obj, c: Component, suspended: bool)
    ensures Health(h[Claim := o], c, suspended) == Health(h, c, suspended)
  {
  }

  lemma ExpectedStatusWithoutClaim(t: Tenant, h: Home, o: Obj, cr: TenantCR, parent: Parent)
    ensures ExpectedStatus(t, h[Claim := o], cr, parent) == ExpectedStatus(t, h, cr, parent)
  {
    ExpectedWithoutClaim(h, o, cr.status.conditions, cr.generation, cr.spec.suspended, 9);
    forall svc ensures Health(h[Claim := o], CService(svc), false) == Health(h, CService(svc), false) {
      HealthWithoutClaim(h, o, CService(svc), false);
    }
  }

  lemma LastTurn(x: Target)
    ensures Turn(x) < 17
  {
  }

  lemma Reporting(t: Tenant, h0: Home, h: Home, l: Local)
    requires OnTrack(t, h0, h, l) && Recording(t, h, l) && l.pc.Report?
    requires Child(TJwt) in h && Child(TCreds) in h && ContextFor(t, l) == Stored(t, h)
    ensures FullEnd(t, h0, h[Claim := Restated(h0, l.status)])
  {
    var o := Restated(h0, l.status);
    var h1 := h[Claim := o];
    assert forall x: Target :: At(h1, Child(x)) == At(h, Child(x));
    forall x: Target
      ensures Dealing(t, At(h0, Child(x)), At(h1, Child(x)), h0[Claim].cr.spec, h0[ParentSlot].parent, Stored(t, h1), x)
    {
      LastTurn(x);
      assert Stored(t, h1) == Stored(t, h);
    }
    ExpectedStatusWithoutClaim(t, h, o, l.cr, l.parent);
    HealthWithoutClaim(h, o, CDatabase, false);
    assert Around(h0, h1);
  }

  lemma Parking(t: Tenant, h0: Home, h: Home, l: Local)
    requires Steady(t, h0, h, l) && l.pc.Park?
    ensures ParkEnd(h0, h[Claim := Restated(h0, l.status)])
  {
    var h1 := h[Claim := Restated(h0, l.status)];
    assert forall x: Target :: At(h1, Child(x)) == At(h, Child(x));
    HealthWithoutClaim(h, Restated(h0, l.status), CDatabase, false);
  }

  lemma ClaimUnchanged(t: Tenant, h0: Home, h: Home, l: Local)
    requires Steady(t, h0, h, l) && (l.pc.Report? || l.pc.Park?)
    ensures Claim in h && h[Claim].ClaimObj? && forall st :: Restated(h, st) == Restated(h0, st)
  {
  }

  lemma FinishingStep(t: Tenant, h0: Home, h: Home, l: Local, k: Tick)
    requires Sound(t, h, l) && Steady(t, h0, h, l) && CalmTick(k) && (l.pc.Report? || l.pc.Park?)
    ensures var w := Step(t, h, l, k); EndedWell(t, h0, Put(h, w.slot, w.obj), w.local)
  {
    ClaimUnchanged(t, h0, h, l);
    ReportStep(t, h, l, k);
    if l.pc.Park? {
      Parking(t, h0, h, l);
    } else {
      ReportFacts(t, h, l);
      Reporting(t, h0, h, l);
    }
  }

  lemma ReportFacts(t: Tenant, h: Home, l: Local)
    requires Sound(t, h, l) && l.Pass? && l.pc.Report?
    ensures Child(TJwt) in h && Child(TCreds) in h && ContextFor(t, l) == Stored(t, h)
  {
    WorkingFacts(t, h, l);
    assert Order(TJwt) < 6 && Order(TCreds) < 6;
  }

  lemma UnderwayStep(t: Tenant, h0: Home, h: Home, l: Local, k: Tick)
    requires Sound(t, h, l) && Underway(t, h0, h, l) && Running(l) && CalmTick(k)
    ensures var w := Step(t, h, l, k); Underway(t, h0, Put(h, w.slot, w.obj), w.local)
  {
    if l == Begin() { ClaimRead(t, h0, k); }
    else if l.pc.ReadParent? { ParentRead(t, h0, l, k); WorkBegins(t, h0, l); }
    else if AtComponent(l) { CalmComponentSteady(t, h0, h, l, k); }
    else { FinishingStep(t, h0, h, l, k); }
  }

  lemma {:induction false} UnderwayBurst(t: Tenant, h0: Home, h: Home, l: Local, ks: seq<Tick>)
    requires Sound(t, h, l) && Underway(t, h0, h, l) && Calm(ks)
    ensures Underway(t, h0, Burst(t, h, l, ks).0, Burst(t, h, l, ks).1)
    decreases |ks|
  {
    if |ks| > 0 && Running(l) {
      UnderwayStep(t, h0, h, l, ks[0]);
      StepKeepsSound(t, h, l, ks[0]);
      var w := Step(t, h, l, ks[0]);
      UnderwayBurst(t, h0, Put(h, w.slot, w.obj), w.local, ks[1..]);
    }
  }

  lemma BeginKeepsSound(t: Tenant, h: Home, l: Local)
    requires Sound(t, h, l)
    ensures Sound(t, h, Begin()) && Sound(t, h, Idle)
  {
  }

  /** A calm pass over a wanted tenant ends in one of the two ways. */
  lemma PassEnds(t: Tenant, h0: Home, ks: seq<Tick>)
    requires Sound(t, h0, Idle) && Wanted(h0) && Whole(ks)
    ensures Sound(t, AfterPass(t, h0, ks), Idle)
    ensures FullEnd(t, h0, AfterPass(t, h0, ks)) || ParkEnd(h0, AfterPass(t, h0, ks))
  {
    BeginKeepsSound(t, h0, Idle);
    BurstKeepsSound(t, h0, Begin(), ks);
    BeginKeepsSound(t, AfterPass(t, h0, ks), Burst(t, h0, Begin(), ks).1);
    BurstEnds(t, h0, Begin(), ks);
    UnderwayBurst(t, h0, h0, Begin(), ks);
  }

  // ---------------------------------------------------------------- which of the two

  /** Prerequisites are create-only: what was there is there unchanged. */
  lemma PrerequisitesStay(t: Tenant, h0: Home, h1: Home, x: Target)
    requires FullEnd(t, h0, h1) || ParkEnd(h0, h1)
    requires Child(x) in h0 && !Mended(x)
    ensures At(h1, Child(x)) == At(h0, Child(x))
  {
    if FullEnd(t, h0, h1) {
      assert Dealing(t, At(h0, Child(x)), At(h1, Child(x)), h0[Claim].cr.spec, h0[ParentSlot].parent, Stored(t, h1), x);
    }
  }

  /** A prerequisite that is up after a full pass was there before it: a new namespace is pending, a new job not done. */
  lemma MadeNew(t: Tenant, was: Option<Obj>, now: Option<Obj>, spec: Spec, parent: Parent, ctx: Context, x: Target)
    requires Dealing(t, was, now, spec, parent, ctx, x) && (x.TNamespace? || x.TJob? || x.TDatabase?)
    ensures was.Some? ==> now == was
    ensures was.None? && x.TNamespace? ==> now.Some? && now.value.NamespaceObj? && now.value.phase.Pending?
    ensures was.None? && x.TJob? ==> now.Some? && now.value.JobObj? && now.value.succeeded == 0
  {
  }

  lemma FullNeedsPrepared(t: Tenant, h0: Home, h1: Home)
    requires FullEnd(t, h0, h1)
    ensures Prepared(h0)
  {
    var spec, parent, ctx := h0[Claim].cr.spec, h0[ParentSlot].parent, Stored(t, h1);
    MadeNew(t, At(h0, Child(TNamespace)), At(h1, Child(TNamespace)), spec, parent, ctx, TNamespace);
    MadeNew(t, At(h0, Child(TJob)), At(h1, Child(TJob)), spec, parent, ctx, TJob);
    MadeNew(t, At(h0, Child(TDatabase)), At(h1, Child(TDatabase)), spec, parent, ctx, TDatabase);
  }

  lemma ParkMeansUnprepared(t: Tenant, h0: Home, h1: Home)
    requires ParkEnd(h0, h1)
    ensures !Prepared(h0)
  {
  }

  /** The way a calm pass ends is decided by the state that it finds: with namespace and init job up, and no
      refused database, it deals with every object and reports; otherwise it gives up before any workload,
      route or deployment is touched, suspended or not. */
  lemma PassOutcome(t: Tenant, h0: Home, ks: seq<Tick>)
    requires Sound(t, h0, Idle) && Wanted(h0) && Whole(ks)
    ensures Sound(t, AfterPass(t, h0, ks), Idle)
    ensures if Prepared(h0) then FullEnd(t, h0, AfterPass(t, h0, ks)) else ParkEnd(h0, AfterPass(t, h0, ks))
  {
    PassEnds(t, h0, ks);
    var h1 := AfterPass(t, h0, ks);
    if FullEnd(t, h0, h1) { FullNeedsPrepared(t, h0, h1); }
    if ParkEnd(h0, h1) { ParkMeansUnprepared(t, h0, h1); }
  }

  /** Suspending a tenant whose prerequisites are not up does not scale it down: its deployments keep their
      replicas, its route stays, and the phase reads Provisioning. */
  lemma UnpreparedNotSuspended(t: Tenant, h0: Home, ks: seq<Tick>)
    requires Sound(t, h0, Idle) && Wanted(h0) && Whole(ks) && h0[Claim].cr.spec.suspended && !Prepared(h0)
    ensures var h1 := AfterPass(t, h0, ks);
            && (forall x: Target :: Mended(x) ==> At(h1, Child(x)) == At(h0, Child(x)))
            && Claim in h1 && h1[Claim].ClaimObj? && h1[Claim].cr.status.phase.Provisioning?
  {
    PassOutcome(t, h0, ks);
  }
}
