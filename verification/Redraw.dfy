/** The second run of a tenant created again too early: its init job outlived the deletion, so that the new
    secrets, and the deployments that carry them, disagree with what the job has set up. */
module Redraw {
  import opened Options
  import opened Objects
  import opened Tenants
  import opened Machine
  import opened Safety
  import opened Orders
  import opened Leftovers
  import opened Endings
  import opened Runs
  import opened Passes
  import opened Outcomes
  import opened Convergence
  import opened Finalization
  import opened Recreation
  import opened Courses
  import opened Draws
  import Contents
  import Credentials

  // ---------------------------------------------------------------- a deletion that skips the job

  const CALM := Tick(NoFault, LUCK)
  const JAMMED := Tick(Transient(false), LUCK)

  lemma Opening(t: Tenant, d: Home, rest: seq<Tick>) returns (h: Home, l: Local)
    requires Partial(d) && Claim in d
    ensures Burst(t, d, Begin(), [CALM] + ([CALM] + ([CALM] + rest))) == Burst(t, h, l, rest)
    ensures Typed(h) && SameChildren(d, h) && Around(d, h)
    ensures l.Pass? && l.pc == Drop(TRoute, Look) && l.cr.deleting && Claim in h && h[Claim] == ClaimObj(l.cr)
  {
    InitiallyOrderly(d);
    ClaimStep(t, d, Begin(), CALM);
    var l1 := Step(t, d, Begin(), CALM).local;
    BurstFirst(t, d, Begin(), CALM, [CALM] + ([CALM] + rest), d, l1);
    StepKeepsOrderly(t, d, Begin(), CALM);
    MarkTidies(t, d, l1, CALM);
    var w := Step(t, d, l1, CALM);
    h := Put(d, w.slot, w.obj);
    StepKeepsOrderly(t, d, l1, CALM);
    Marked(t, d, l1);
    BurstFirst(t, d, l1, CALM, [CALM] + rest, h, w.local);
    ParentStep(t, h, w.local, CALM);
    l := Step(t, h, w.local, CALM).local;
    BurstFirst(t, h, w.local, CALM, rest, h, l);
  }

  lemma Marked(t: Tenant, h: Home, l: Local)
    requires l.Pass? && l.pc.MarkDeleting?
    ensures var w := Step(t, h, l, CALM); SameChildren(h, Put(h, w.slot, w.obj)) && Around(h, Put(h, w.slot, w.obj))
  {
    MarkStep(t, h, l, CALM);
  }

  lemma DropOne(t: Tenant, h: Home, l: Local, x: Target, rest: seq<Tick>)
    requires Typed(h) && l.Pass? && l.pc == Drop(x, Look) && (x.TRoute? || x.TDatabase?) && Child(x) in h
    ensures Burst(t, h, l, [CALM] + ([CALM] + rest)) == Burst(t, h - {Child(x)}, l.(pc := AfterDrop(x)), rest)
  {
    var m := l.(pc := Drop(x, Fix));
    DropLook(t, h, l, CALM);
    BurstFirst(t, h, l, CALM, [CALM] + rest, h, m);
    Removal(t, h, m, x);
    BurstFirst(t, h, m, CALM, rest, h - {Child(x)}, m.(pc := AfterDrop(x)));
  }

  lemma Removal(t: Tenant, h: Home, l: Local, x: Target)
    requires Typed(h) && l.Pass? && l.pc == Drop(x, Fix) && (x.TRoute? || x.TDatabase?) && Child(x) in h
    ensures var w := Step(t, h, l, CALM); Put(h, w.slot, w.obj) == h - {Child(x)} && w.local == l.(pc := AfterDrop(x))
  {
    assert Fits(Child(x), h[Child(x)]);
  }

  lemma SkipJob(t: Tenant, h: Home, l: Local, rest: seq<Tick>)
    requires l.Pass? && l.pc == Drop(TJob, Look)
    ensures Burst(t, h, l, [JAMMED] + rest) == Burst(t, h, l.(pc := Drop(TNamespace, Look), skipped := true), rest)
  {
    PutBack(h, Child(TJob));
    BurstFirst(t, h, l, JAMMED, rest, h, l.(pc := Drop(TNamespace, Look), skipped := true));
  }

  ghost function ClosedHome(h: Home): Home
    requires Child(TNamespace) in h && h[Child(TNamespace)].NamespaceObj?
  {
    h[Child(TNamespace) := h[Child(TNamespace)].(phase := Terminating)]
  }

  lemma CloseNamespace(t: Tenant, h: Home, l: Local, rest: seq<Tick>)
    requires l.Pass? && l.pc == Drop(TNamespace, Look) && Child(TNamespace) in h && h[Child(TNamespace)].NamespaceObj?
    ensures Burst(t, h, l, [CALM] + ([CALM] + rest)) == Burst(t, ClosedHome(h), l.(pc := Release(false)), rest)
  {
    var m := l.(pc := Drop(TNamespace, Fix));
    DropLook(t, h, l, CALM);
    BurstFirst(t, h, l, CALM, [CALM] + rest, h, m);
    Closure(t, h, m);
    BurstFirst(t, h, m, CALM, rest, ClosedHome(h), m.(pc := Release(false)));
  }

  lemma Closure(t: Tenant, h: Home, l: Local)
    requires l.Pass? && l.pc == Drop(TNamespace, Fix) && Child(TNamespace) in h && h[Child(TNamespace)].NamespaceObj?
    ensures var w := Step(t, h, l, CALM); Put(h, w.slot, w.obj) == ClosedHome(h) && w.local == l.(pc := Release(false))
  {
  }

  lemma LetGo(t: Tenant, h: Home, l: Local)
    requires l.Pass? && l.pc == Release(false) && l.cr.deleting && Claim in h && h[Claim] == ClaimObj(l.cr)
    ensures Burst(t, h, l, [CALM] + []).0 == h - {Claim}
  {
    var w := Step(t, h, l, CALM);
    assert Put(h, w.slot, w.obj) == h - {Claim};
    BurstFirst(t, h, l, CALM, [], h - {Claim}, w.local);
  }

  /** What is left: the namespace closing with what stands in it, and the job. */
  ghost function SkippedHome(h: Home): Home
    requires Child(TNamespace) in h && h[Child(TNamespace)].NamespaceObj?
  {
    ClosedHome(h - {Child(TRoute)} - {Child(TDatabase)}) - {Claim}
  }

  ghost function SkippingTicks(): seq<Tick> {
    [CALM] + ([CALM] + ([CALM] + ([CALM] + ([CALM] + ([CALM] + ([CALM] + ([JAMMED] + ([CALM] + ([CALM] + ([CALM] + []))))))))))
  }

  /** A read of the job fails, and the deletion goes on without it. */
  lemma SkippingPass(t: Tenant, d: Home) returns (h: Home)
    requires Partial(d) && Claim in d && Child(TRoute) in d && Child(TDatabase) in d && Child(TNamespace) in d
    ensures Typed(h) && SameChildren(d, h) && Around(d, h) && Child(TNamespace) in h && h[Child(TNamespace)].NamespaceObj?
    ensures AfterPass(t, d, SkippingTicks()) == SkippedHome(h)
  {
    var end := [CALM] + [];
    var close := [CALM] + ([CALM] + end);
    var skip := [JAMMED] + close;
    var base := [CALM] + ([CALM] + skip);
    var route := [CALM] + ([CALM] + base);
    var l;
    h, l := Opening(t, d, route);
    SameStands(d, h, TRoute);
    SameStands(d, h, TDatabase);
    SameStands(d, h, TNamespace);
    assert Fits(Child(TNamespace), h[Child(TNamespace)]);
    SkippingRest(t, h, l);
  }

  lemma SkippingRest(t: Tenant, h: Home, l: Local)
    requires Typed(h) && l.Pass? && l.pc == Drop(TRoute, Look) && l.cr.deleting && Claim in h && h[Claim] == ClaimObj(l.cr)
    requires Child(TRoute) in h && Child(TDatabase) in h && Child(TNamespace) in h && h[Child(TNamespace)].NamespaceObj?
    ensures Burst(t, h, l, [CALM] + ([CALM] + ([CALM] + ([CALM] + ([JAMMED] + ([CALM] + ([CALM] + ([CALM] + [])))))))).0 == SkippedHome(h)
  {
    DropOne(t, h, l, TRoute, [CALM] + ([CALM] + ([JAMMED] + ([CALM] + ([CALM] + ([CALM] + []))))));
    RemoveTyped(h, Child(TRoute));
    SkippingBase(t, h - {Child(TRoute)}, l.(pc := Drop(TDatabase, Look)));
  }

  lemma SkippingBase(t: Tenant, h: Home, l: Local)
    requires Typed(h) && l.Pass? && l.pc == Drop(TDatabase, Look) && l.cr.deleting && Claim in h && h[Claim] == ClaimObj(l.cr)
    requires Child(TDatabase) in h && Child(TNamespace) in h && h[Child(TNamespace)].NamespaceObj?
    ensures Burst(t, h, l, [CALM] + ([CALM] + ([JAMMED] + ([CALM] + ([CALM] + ([CALM] + [])))))).0 == ClosedHome(h - {Child(TDatabase)}) - {Claim}
  {
    DropOne(t, h, l, TDatabase, [JAMMED] + ([CALM] + ([CALM] + ([CALM] + []))));
    SkippingEnd(t, h - {Child(TDatabase)}, l.(pc := Drop(TJob, Look)));
  }

  lemma SkippingEnd(t: Tenant, h: Home, l: Local)
    requires l.Pass? && l.pc == Drop(TJob, Look) && l.cr.deleting && Claim in h && h[Claim] == ClaimObj(l.cr)
    requires Child(TNamespace) in h && h[Child(TNamespace)].NamespaceObj?
    ensures Burst(t, h, l, [JAMMED] + ([CALM] + ([CALM] + ([CALM] + [])))).0 == ClosedHome(h) - {Claim}
  {
    var end := [CALM] + [];
    SkipJob(t, h, l, [CALM] + ([CALM] + end));
    var m := l.(pc := Drop(TNamespace, Look), skipped := true);
    CloseNamespace(t, h, m, end);
    LetGo(t, ClosedHome(h), m.(pc := Release(false)));
  }

  // ---------------------------------------------------------------- the new tenant's first pass

  /** A wanted tenant of which nothing stands but an init job that has succeeded for an earlier one. */
  ghost predicate Barren(h: Home) {
    Typed(h) && Wanted(h) && Alive(h) && JobDone(h) && forall x: Target :: Child(x) in h <==> x == TJob
  }

  lemma BarrenWorkable(h: Home)
    requires Barren(h)
    ensures Workable(h) && OpenAt(At(h, Platform)) && !h[Claim].cr.spec.suspended
    ensures Child(TJwt) !in h && Child(TCreds) !in h && Child(TDatabase) !in h && Child(TDeploy(Auth)) !in h && Child(TJob) in h
  {
    assert Child(TNamespace) !in h;
  }

  /** The gate is open on the strength of the old job, and a deployment carries the new credentials. */
  ghost predicate Disagreeing(t: Tenant, h0: Home, h: Home, luck: Luck) {
    OldJobNewPassword(h0, h, luck) && DeploymentCarries(t, h)
  }

  ghost predicate OldJobNewPassword(h0: Home, h: Home, luck: Luck) {
    && At(h, Claim) == At(h0, Claim) && At(h, Child(TJob)) == At(h0, Child(TJob))
    && Child(TJwt) in h && Child(TCreds) in h && Password(SecretData(h[Child(TCreds)])) == luck.postgres
  }

  ghost predicate DeploymentCarries(t: Tenant, h: Home) {
    && Child(TJwt) in h && Child(TCreds) in h
    && Child(TDeploy(Auth)) in h && Carries(t, TDeploy(Auth), h[Child(TDeploy(Auth))], Stored(t, h))
  }

  /** A new database, and the old job. */
  lemma GoesDatabase(t: Tenant, h0: Home, h: Home, l: Local, luck: Luck) returns (es: seq<Happening>, h': Home, m: Local)
    requires Barren(h0) && luck.drawn && Stage(h0, h, l, luck, Ensure(TDatabase, Look))
    ensures Goes(t, h, l, es, h', m) && Stage(h0, h', m, luck, Check(TDatabase)) && Child(TDatabase) in h'
    ensures Examine(TDatabase, h'[Child(TDatabase)]) == None && JobDone(h')
  {
    BarrenWorkable(h0);
    assert At(h, Child(TDatabase)) == At(h0, Child(TDatabase)) && At(h, Child(TJob)) == At(h0, Child(TJob));
    var a, h1, l1 := GoesEnsure(t, h0, h, l, luck, TDatabase);
    assert At(h1, Child(TJob)) == At(h0, Child(TJob));
    var b, h2, l2 := GoesEnsure(t, h0, h1, l1, luck, TJob);
    GoesThen(t, h, l, a, h1, l1, b, h2, l2);
    es, h', m := a + b, h2, l2;
  }

  lemma GoesChecks(t: Tenant, h0: Home, h: Home, l: Local, luck: Luck, x: Target, y: Target) returns (es: seq<Happening>, m: Local)
    requires Stage(h0, h, l, luck, Check(x)) && luck.drawn && ((x.TJwt? && y.TCreds?) || (x.TDatabase? && y.TJob?))
    requires Child(x) in h && Child(y) in h && Examine(x, h[Child(x)]).None? && Examine(y, h[Child(y)]) == Some(Healthy)
    ensures Goes(t, h, l, es, h, m) && m.Pass? && Stage(h0, h, m, luck, m.pc)
    ensures m.pc == StartOf(NextComponent(ComponentOf(x)), h0[Claim].cr.spec.suspended)
  {
    var a, l1 := GoesOn(t, h0, h, l, luck, x);
    var b, l2 := GoesOn(t, h0, h, l1, luck, y);
    GoesThen(t, h, l, a, h, l1, b, h, l2);
    es, m := a + b, l2;
  }

  lemma GoesDeployment(t: Tenant, h0: Home, h: Home, l: Local, luck: Luck) returns (es: seq<Happening>, h': Home, m: Local)
    requires Barren(h0) && luck.drawn && Stage(h0, h, l, luck, Ensure(TDeploy(Auth), Look))
    ensures Goes(t, h, l, es, h', m) && Disagreeing(t, h0, h', luck)
  {
    BarrenWorkable(h0);
    var x := TDeploy(Auth);
    assert At(h, Child(x)) == At(h0, Child(x));
    HolderUp(h0, h, l, luck, x);
    es, h', m := GoesAdd(t, h0, h, l, luck, x);
    DeploymentAdded(t, h0, h', m, luck);
  }

  lemma DeploymentAdded(t: Tenant, h0: Home, h: Home, m: Local, luck: Luck)
    requires Barren(h0) && Stage(h0, h, m, luck, AfterEnsure(TDeploy(Auth)))
    requires Child(TDeploy(Auth)) in h && h[Child(TDeploy(Auth))] == DesiredBy(t, m, TDeploy(Auth))
    ensures Disagreeing(t, h0, h, luck)
  {
    StageStored(t, h0, h, m, luck);
    DesiredFits(t, m, TDeploy(Auth));
    NewPassword(h0, h, m, luck);
    Deployed(t, h, DesiredBy(t, m, TDeploy(Auth)), Stored(t, h));
  }

  lemma StageStored(t: Tenant, h0: Home, h: Home, m: Local, luck: Luck)
    requires Stage(h0, h, m, luck, AfterEnsure(TDeploy(Auth)))
    ensures Child(TJwt) in h && Child(TCreds) in h && Stored(t, h) == ContextFor(t, m)
  {
    NextTurn(TDeploy(Auth));
    assert Dealt(AfterEnsure(TDeploy(Auth))) >= 4;
    StoredIs(t, h, m);
  }

  lemma NewPassword(h0: Home, h: Home, m: Local, luck: Luck)
    requires Barren(h0) && Stage(h0, h, m, luck, AfterEnsure(TDeploy(Auth)))
    ensures OldJobNewPassword(h0, h, luck)
  {
    BarrenWorkable(h0);
    NextTurn(TDeploy(Auth));
    assert At(h, Child(TJob)) == At(h0, Child(TJob));
  }

  lemma Deployed(t: Tenant, h: Home, o: Obj, ctx: Context)
    requires Child(TDeploy(Auth)) in h && h[Child(TDeploy(Auth))] == o && Carries(t, TDeploy(Auth), o, ctx)
    requires Child(TJwt) in h && Child(TCreds) in h && ctx == Stored(t, h)
    ensures DeploymentCarries(t, h)
  {
  }

  lemma StoredIs(t: Tenant, h: Home, l: Local)
    requires l.Pass? && Holds(h, TJwt, l.jwt) && Holds(h, TCreds, l.creds)
    ensures Stored(t, h) == ContextFor(t, l)
  {
  }

  lemma ToDatabase(t: Tenant, h0: Home, l0: Local, luck: Luck) returns (es: seq<Happening>, h: Home, l: Local)
    requires Barren(h0) && luck.drawn
    ensures Goes(t, h0, l0, es, h, l) && Stage(h0, h, l, luck, Check(TDatabase)) && Child(TDatabase) in h
    ensures Examine(TDatabase, h[Child(TDatabase)]) == None && JobDone(h)
  {
    BarrenWorkable(h0);
    var a, h1, l1 := ToSecrets(t, h0, l0, luck);
    var b, l2 := GoesChecks(t, h0, h1, l1, luck, TJwt, TCreds);
    GoesThen(t, h0, l0, a, h1, l1, b, h1, l2);
    var c, h3, l3 := GoesDatabase(t, h0, h1, l2, luck);
    GoesThen(t, h0, l0, a + b, h1, l2, c, h3, l3);
    es, h, l := a + b + c, h3, l3;
  }

  /** From a barren start to the disagreement, in one pass. */
  lemma ToDisagreement(t: Tenant, h0: Home, l0: Local, luck: Luck) returns (es: seq<Happening>, h: Home)
    requires Barren(h0) && luck.drawn
    ensures Evolve(t, h0, l0, es).0 == h && Disagreeing(t, h0, h, luck)
  {
    var a, h1, l1 := ToDatabase(t, h0, l0, luck);
    var b, l;
    b, h, l := GoesWorkload(t, h0, h1, l1, luck);
    GoesThen(t, h0, l0, a, h1, l1, b, h, l);
    es := a + b;
  }

  lemma GoesWorkload(t: Tenant, h0: Home, h: Home, l: Local, luck: Luck) returns (es: seq<Happening>, h': Home, m: Local)
    requires Barren(h0) && luck.drawn && Stage(h0, h, l, luck, Check(TDatabase)) && Child(TDatabase) in h
    requires Examine(TDatabase, h[Child(TDatabase)]) == None && JobDone(h)
    ensures Goes(t, h, l, es, h', m) && Disagreeing(t, h0, h', luck)
  {
    var a, l1 := GoesChecks(t, h0, h, l, luck, TDatabase, TJob);
    BarrenWorkable(h0);
    assert l1.pc == Ensure(TDeploy(Auth), Look);
    var b;
    b, h', m := GoesDeployment(t, h0, h, l1, luck);
    GoesThen(t, h, l, a, h, l1, b, h', m);
    es := a + b;
  }

  // ---------------------------------------------------------------- the whole run

  /** After the deletion that skipped the job: the namespace closing, the job standing, no custom resource. */
  ghost predicate Skipped(h1: Home, h: Home) {
    && Doomed(h) && Claim !in h && Child(TDatabase) !in h && Child(TRoute) !in h
    && At(h, Child(TJob)) == At(h1, Child(TJob)) && Around(h1, h)
  }

  lemma SkippedIs(d: Home, h: Home)
    requires SameChildren(d, h) && Around(d, h) && Child(TNamespace) in h && h[Child(TNamespace)].NamespaceObj?
    ensures Skipped(d, SkippedHome(h))
  {
    assert At(h, Child(TJob)) == At(d, Child(TJob));
  }

  lemma ToSkipped(t: Tenant, h0: Home, es0: seq<Happening>, h1: Home) returns (es: seq<Happening>, h: Home)
    requires Leads(t, h0, Idle, es0, h1) && Complete(t, h1)
    ensures Leads(t, h0, Idle, es, h) && Skipped(h1, h)
  {
    var d := Deleted(h1);
    es := EventLeads(t, h0, Idle, es0, h1, UserDeletes, d);
    DeletedPartial(t, h1);
    DeletedKeeps(h1);
    var mid := SkippingPass(t, d);
    SkippedIs(d, mid);
    es := PassLeads(t, h0, Idle, es, d, SkippingTicks());
    h := SkippedHome(mid);
  }

  lemma DeletedKeeps(h: Home)
    requires Claim in h && h[Claim].ClaimObj?
    ensures var d := Deleted(h); Around(h, d) && forall x: Target :: At(d, Child(x)) == At(h, Child(x)) && (Child(x) in d <==> Child(x) in h)
  {
  }

  /** The user creates the tenant again on nothing but the old job; a pass adds the finalizer. */
  lemma ToBarren(t: Tenant, h0: Home, es0: seq<Happening>, h1: Home, h2: Home, spec: Spec) returns (es: seq<Happening>, h: Home)
    requires Leads(t, h0, Idle, es0, h2) && Typed(h0) && Skipped(h1, h2) && JobDone(h1) && Supplied(h1) && !spec.suspended
    ensures Leads(t, h0, Idle, es, h) && Barren(h) && At(h, Child(TJob)) == At(h1, Child(TJob))
  {
    var h3;
    es, h3 := NamespaceGoes(t, h0, Idle, es0, h2);
    OnlyJob(h1, h2, h3);
    var h4 := Created(h3, spec);
    es := EventLeads(t, h0, Idle, es, h3, UserCreates(spec), h4);
    CalmTicksWhole();
    FinalizerRound(t, h4, CalmTicks());
    es := PassLeads(t, h0, Idle, es, h4, CalmTicks());
    h := AfterPass(t, h4, CalmTicks());
    InitiallyOrderly(h0);
    EvolveOrderly(t, h0, Idle, es);
    BarrenIs(h1, h3, spec);
  }

  lemma OnlyJob(h1: Home, h2: Home, h3: Home)
    requires Skipped(h1, h2) && JobDone(h1) && Supplied(h1) && Child(TNamespace) !in h3 && Emptied(h3)
    requires forall s: Slot :: !(s.Child? && (Inside(s.target) || s.target.TNamespace?)) ==> At(h3, s) == At(h2, s)
    ensures JobDone(h3) && Supplied(h3) && Claim !in h3 && At(h3, Child(TJob)) == At(h1, Child(TJob))
    ensures forall x: Target :: Child(x) in h3 <==> x == TJob
  {
    assert At(h3, Claim) == At(h2, Claim) && At(h3, ParentSlot) == At(h2, ParentSlot) && At(h3, Platform) == At(h2, Platform);
    assert At(h3, Child(TJob)) == At(h2, Child(TJob)) && At(h3, Child(TDatabase)) == At(h2, Child(TDatabase))
        && At(h3, Child(TRoute)) == At(h2, Child(TRoute));
  }

  lemma BarrenIs(h1: Home, h3: Home, spec: Spec)
    requires JobDone(h3) && Supplied(h3) && Claim !in h3 && !spec.suspended && forall x: Target :: Child(x) in h3 <==> x == TJob
    ensures var h4 := Created(h3, spec); var h5 := h4[Claim := ClaimObj(h4[Claim].cr.(finalizer := true))];
            (Typed(h5) ==> Barren(h5)) && At(h5, Child(TJob)) == At(h3, Child(TJob))
  {
  }

  /** Any material but the old password. */
  ghost function OtherLuck(h: Home): Luck
    requires JobDone(h)
  {
    OtherMaterial(h[Child(TJob)].job)
  }

  lemma ToClash(t: Tenant, h0: Home, spec: Spec) returns (es: seq<Happening>, h5: Home, h: Home)
    requires Sound(t, h0, Idle) && Claim !in h0 && Bare(h0) && Supplied(h0) && !spec.suspended
    ensures Leads(t, h0, Idle, es, h) && Barren(h5) && Disagreeing(t, h5, h, OtherLuck(h5))
  {
    var h1, h2;
    es, h1 := ToComplete(t, h0, spec);
    es, h2 := ToSkipped(t, h0, es, h1);
    es, h5 := ToBarren(t, h0, es, h1, h2, spec);
    var l := Evolve(t, h0, Idle, es).1;
    var more;
    more, h := ToDisagreement(t, h5, l, OtherLuck(h5));
    EvolveConcat(t, h0, Idle, es, more);
    es := es + more;
  }

  /** The second run: a read of the job fails during the deletion, the job stays, and the tenant is created
      again once its namespace is gone. The old job opens the gate; a deployment carries the stored password,
      which the job has never set. No secret was edited or deleted from outside. */
  lemma RecreatedOverJob(t: Tenant, y: System, spec: Spec) returns (es: seq<Event>)
    requires Start(t, y) && !spec.suspended
    ensures var s := Run([t], y, es).store; Wanting(t, s) && PasswordSplit(t, s) && !AgreementKept(t, s)
  {
    StartSound(t, y);
    var hs, h5, h := ToClash(t, HomeOf(t, y.store), spec);
    es := Events(0, hs);
    OneTenant(t, y, hs, h);
    ClashInStore(t, Run([t], y, es).store, h5, h);
  }

  /** A deployment carries the stored credentials, and the init job, which has opened the gate, another password. */
  ghost predicate PasswordSplit(t: Tenant, s: Store) {
    && Stands(t, s, TJwt) && Stands(t, s, TCreds) && Stands(t, s, TJob) && Stands(t, s, TDeploy(Auth))
    && Differs(t, s[KeyOf(t, Child(TJob))], s[KeyOf(t, Child(TDeploy(Auth)))],
               SecretData(s[KeyOf(t, Child(TJwt))]), SecretData(s[KeyOf(t, Child(TCreds))]))
  }

  ghost predicate Differs(t: Tenant, job: Obj, d: Obj, jwt: Credentials.Data, creds: Credentials.Data) {
    && d.DeploymentObj? && Contents.CarriesKeys(t, Auth, d.deployment, jwt, creds)
    && job.JobObj? && job.succeeded > 0 && job.job.password != Password(creds)
  }

  /** What the last state looks like from outside. */
  lemma ClashInStore(t: Tenant, s: Store, h5: Home, h: Home)
    requires HomeOf(t, s) == h && Barren(h5) && Disagreeing(t, h5, h, OtherLuck(h5))
    ensures Wanting(t, s) && PasswordSplit(t, s) && !AgreementKept(t, s)
  {
    HomeAt(t, s, Claim);
    HomeAt(t, s, Child(TJwt));
    HomeAt(t, s, Child(TCreds));
    HomeAt(t, s, Child(TJob));
    HomeAt(t, s, Child(TDeploy(Auth)));
    PasswordsDiffer(t, h5, h);
    SplitSeen(t, h[Child(TJob)], h[Child(TDeploy(Auth))], SecretData(h[Child(TJwt)]), SecretData(h[Child(TCreds)]), Stored(t, h));
    NotKept(t, s, h[Child(TJob)], SecretData(h[Child(TJwt)]), SecretData(h[Child(TCreds)]));
  }

  lemma PasswordsDiffer(t: Tenant, h5: Home, h: Home)
    requires Barren(h5) && Disagreeing(t, h5, h, OtherLuck(h5))
    ensures JobDone(h) && h[Child(TJob)].job.password != Stored(t, h).password
  {
    Longer(h5[Child(TJob)].job.password);
  }

  lemma SplitSeen(t: Tenant, job: Obj, d: Obj, jwt: Credentials.Data, creds: Credentials.Data, ctx: Context)
    requires ctx == ContextOf(t.crypto, jwt, creds) && Carries(t, TDeploy(Auth), d, ctx)
    requires job.JobObj? && job.succeeded > 0 && job.job.password != ctx.password
    ensures Differs(t, job, d, jwt, creds)
  {
    Contents.ContextCarries(t, Auth, d.deployment, jwt, creds, ctx);
  }

  lemma NotKept(t: Tenant, s: Store, job: Obj, jwt: Credentials.Data, creds: Credentials.Data)
    requires Stands(t, s, TJwt) && Stands(t, s, TCreds) && Stands(t, s, TJob) && s[KeyOf(t, Child(TJob))] == job
    requires jwt == SecretData(s[KeyOf(t, Child(TJwt))]) && creds == SecretData(s[KeyOf(t, Child(TCreds))])
    requires job.JobObj? && job.job.password != Password(creds)
    ensures !AgreementKept(t, s)
  {
  }
}
