/** Two runs that a user gets into by creating a tenant again too early, from an empty store on. In the first
    the gate does not hold, in the second the credentials do not agree. */
module Recreation {
  import opened Options
  import opened Objects
  import opened Tenants
  import opened Machine
  import opened Safety
  import opened Orders
  import opened Leftovers
  import opened Endings
  import opened Runs
  import opened Passes
  import opened Outcomes
  import opened Convergence
  import opened Finalization
  import opened Courses
  import Credentials

  // ---------------------------------------------------------------- up to a running tenant

  /** A tenant that is wanted, between passes. */
  ghost predicate Up(t: Tenant, h: Home) {
    Sound(t, h, Idle) && Wanted(h) && Alive(h)
  }

  lemma CreateUp(t: Tenant, h: Home, spec: Spec)
    requires Sound(t, h, Idle) && Claim !in h && Bare(h) && Supplied(h) && !spec.suspended
    ensures var h' := Created(h, spec); Sound(t, h', Idle) && Alive(h') && Supplied(h')
  {
    CreationSecure(t, h, Idle, spec);
  }

  lemma FinalizerUp(t: Tenant, h: Home)
    requires Sound(t, h, Idle) && Alive(h) && Supplied(h) && !h[Claim].cr.finalizer
    ensures Up(t, AfterPass(t, h, CalmTicks()))
  {
    CalmTicksWhole();
    FinalizerRound(t, h, CalmTicks());
    FaultsDoNotSetBack(t, h, CalmTicks());
  }

  lemma PassUp(t: Tenant, h: Home)
    requires Up(t, h)
    ensures Up(t, AfterPass(t, h, CalmTicks()))
    ensures if Prepared(h) then FullEnd(t, h, AfterPass(t, h, CalmTicks())) else ParkEnd(h, AfterPass(t, h, CalmTicks()))
  {
    CalmTicksWhole();
    PassOutcome(t, h, CalmTicks());
  }

  /** An event of the platform that changes a field it owns. */
  lemma FieldUp(t: Tenant, h: Home, e: Happening)
    requires Up(t, h) && (e.NamespaceActivates? || e.JobSucceeds? || e.DatabaseApplied?)
    ensures var w := Happens(t, h, Idle, e); Up(t, Put(h, w.slot, w.obj))
    ensures forall l :: var w, v := Happens(t, h, l, e), Happens(t, h, Idle, e); w.slot == v.slot && w.obj == v.obj
  {
    HappeningKeepsSound(t, h, Idle, e);
    FieldKeepsClaim(t, h, e);
  }

  lemma FieldKeepsClaim(t: Tenant, h: Home, e: Happening)
    requires Wanted(h) && (e.NamespaceActivates? || e.JobSucceeds? || e.DatabaseApplied?)
    ensures var w := Happens(t, h, Idle, e); var h' := Put(h, w.slot, w.obj); At(h', Claim) == At(h, Claim) && Around(h, h') && Wanted(h')
  {
    var w := Happens(t, h, Idle, e);
    assert w.slot.Child?;
  }

  lemma StillUp(t: Tenant, h: Home, x: Target)
    requires Up(t, h)
    ensures Child(x) in h ==> Fits(Child(x), h[Child(x)])
    ensures !Doomed(h)
  {
    assert Live(h, Idle);
  }

  /** The namespace of a wanted tenant, once there, can become active. */
  lemma Activation(t: Tenant, h: Home)
    requires Up(t, h) && Child(TNamespace) in h
    ensures var w := Happens(t, h, Idle, NamespaceActivates); NamespaceUp(Put(h, w.slot, w.obj))
  {
    StillUp(t, h, TNamespace);
    PutBack(h, Child(TNamespace));
  }

  lemma Completion(t: Tenant, h: Home)
    requires Up(t, h) && NamespaceUp(h) && Child(TDatabase) in h && Child(TJob) in h
    ensures var w := Happens(t, h, Idle, DatabaseApplied(Some(true))); var h' := Put(h, w.slot, w.obj);
            NamespaceUp(h') && DatabaseUp(h') && Child(TJob) in h'
    ensures DatabaseUp(h) ==> var w := Happens(t, h, Idle, JobSucceeds); Prepared(Put(h, w.slot, w.obj))
  {
    StillUp(t, h, TDatabase);
    StillUp(t, h, TJob);
  }

  /** After a pass over an active namespace either everything is prepared, or database and job are there. */
  lemma SecondPass(t: Tenant, h: Home)
    requires Up(t, h) && NamespaceUp(h) && !Prepared(h)
    ensures var h' := AfterPass(t, h, CalmTicks()); Up(t, h') && NamespaceUp(h') && Child(TDatabase) in h' && Child(TJob) in h'
  {
    PassUp(t, h);
  }

  /** From an empty store to a tenant whose prerequisites are up. */
  lemma ToPrepared(t: Tenant, h0: Home, spec: Spec) returns (es: seq<Happening>, h: Home)
    requires Sound(t, h0, Idle) && Claim !in h0 && Bare(h0) && Supplied(h0) && !spec.suspended
    ensures Leads(t, h0, Idle, es, h) && Up(t, h) && Prepared(h)
  {
    es, h := ToNamespace(t, h0, spec);
    es := EventLeads(t, h0, Idle, es, h, NamespaceActivates, Happened(t, h, NamespaceActivates));
    Activation(t, h);
    FieldUp(t, h, NamespaceActivates);
    h := Happened(t, h, NamespaceActivates);
    if !Prepared(h) {
      SecondPass(t, h);
      es := PassLeads(t, h0, Idle, es, h, CalmTicks());
      h := AfterPass(t, h, CalmTicks());
      es, h := ToDone(t, h0, es, h);
    }
  }

  ghost function Happened(t: Tenant, h: Home, e: Happening): Home {
    var w := Happens(t, h, Idle, e); Put(h, w.slot, w.obj)
  }

  lemma ToNamespace(t: Tenant, h0: Home, spec: Spec) returns (es: seq<Happening>, h: Home)
    requires Sound(t, h0, Idle) && Claim !in h0 && Bare(h0) && Supplied(h0) && !spec.suspended
    ensures Leads(t, h0, Idle, es, h) && Up(t, h) && Child(TNamespace) in h
  {
    h := Created(h0, spec);
    es := EventLeads(t, h0, Idle, [], h0, UserCreates(spec), h);
    CreateUp(t, h0, spec);
    FinalizerUp(t, h);
    CalmTicksWhole();
    FinalizerRound(t, h, CalmTicks());
    es := PassLeads(t, h0, Idle, es, h, CalmTicks());
    h := AfterPass(t, h, CalmTicks());
    assert Child(TNamespace) !in h0;
    assert Child(TNamespace) !in h;
    PassUp(t, h);
    es := PassLeads(t, h0, Idle, es, h, CalmTicks());
    h := AfterPass(t, h, CalmTicks());
  }

  lemma ToDone(t: Tenant, h0: Home, es0: seq<Happening>, h1: Home) returns (es: seq<Happening>, h: Home)
    requires Leads(t, h0, Idle, es0, h1) && Up(t, h1) && NamespaceUp(h1) && Child(TDatabase) in h1 && Child(TJob) in h1
    ensures Leads(t, h0, Idle, es, h) && Up(t, h) && Prepared(h)
  {
    var e := DatabaseApplied(Some(true));
    Completion(t, h1);
    FieldUp(t, h1, e);
    es := EventLeads(t, h0, Idle, es0, h1, e, Happened(t, h1, e));
    h := Happened(t, h1, e);
    Completion(t, h);
    FieldUp(t, h, JobSucceeds);
    es := EventLeads(t, h0, Idle, es, h, JobSucceeds, Happened(t, h, JobSucceeds));
    h := Happened(t, h, JobSucceeds);
  }

  /** Everything is in place. */
  ghost predicate Complete(t: Tenant, h: Home) {
    Up(t, h) && JobDone(h) && Child(TDeploy(Auth)) in h && Child(TDatabase) in h && Child(TRoute) in h && Child(TNamespace) in h
  }

  lemma ToComplete(t: Tenant, h0: Home, spec: Spec) returns (es: seq<Happening>, h: Home)
    requires Sound(t, h0, Idle) && Claim !in h0 && Bare(h0) && Supplied(h0) && !spec.suspended
    ensures Leads(t, h0, Idle, es, h) && Complete(t, h)
  {
    es, h := ToPrepared(t, h0, spec);
    PassUp(t, h);
    FullComplete(t, h, AfterPass(t, h, CalmTicks()));
    es := PassLeads(t, h0, Idle, es, h, CalmTicks());
    h := AfterPass(t, h, CalmTicks());
  }

  lemma FullComplete(t: Tenant, h: Home, h1: Home)
    requires Up(t, h) && Prepared(h) && FullEnd(t, h, h1)
    ensures JobDone(h1) && Child(TDeploy(Auth)) in h1 && Child(TDatabase) in h1 && Child(TRoute) in h1 && Child(TNamespace) in h1
  {
    FullDeployment(t, h, h1, Auth);
    FullMade(t, h, h1, TRoute);
    MadeThere(t, h[Claim].cr.spec, h[ParentSlot].parent, Stored(t, h1), At(h, Child(TRoute)), TRoute);
  }

  lemma MadeThere(t: Tenant, spec: Spec, parent: Parent, ctx: Context, was: Option<Obj>, x: Target)
    requires !spec.suspended
    ensures Made(t, spec, parent, ctx, was, x).Some?
  {
  }

  // ---------------------------------------------------------------- the first run: the gate

  ghost function Deleted(h: Home): Home
    requires Claim in h && h[Claim].ClaimObj?
  {
    h[Claim := ClaimObj(h[Claim].cr.(deleting := true))]
  }

  lemma DeletedPartial(t: Tenant, h: Home)
    requires Up(t, h)
    ensures Partial(Deleted(h)) && SameChildren(h, Deleted(h))
  {
  }

  /** A finished deletion: the resource is gone, and what stands in the closing namespace still stands. */
  lemma ToDeleted(t: Tenant, h0: Home, es0: seq<Happening>, h1: Home) returns (es: seq<Happening>, h: Home)
    requires Leads(t, h0, Idle, es0, h1) && Complete(t, h1)
    ensures Leads(t, h0, Idle, es, h) && Claim !in h && Child(TJob) !in h && Child(TDeploy(Auth)) in h
  {
    var d := Deleted(h1);
    es := EventLeads(t, h0, Idle, es0, h1, UserDeletes, d);
    DeletedPartial(t, h1);
    CalmTicksWhole();
    FinalizationCompletes(t, d, CalmTicks());
    SparedDeployment(t, h1, d);
    es := PassLeads(t, h0, Idle, es, d, CalmTicks());
    h := AfterPass(t, d, CalmTicks());
  }

  lemma SparedDeployment(t: Tenant, h: Home, d: Home)
    requires Partial(d) && SameChildren(h, d) && Child(TDeploy(Auth)) in h
    ensures Child(TDeploy(Auth)) in AfterPass(t, d, CalmTicks())
  {
    CalmTicksWhole();
    SameStands(h, d, TDeploy(Auth));
    InitiallyOrderly(d);
    CalmReadsAnswered(t, d, Begin(), CalmTicks());
    FinalizationSpares(t, d, Begin(), CalmTicks(), TDeploy(Auth));
  }

  /** A store without the tenant, with its parent and the platform namespace. */
  ghost predicate Start(t: Tenant, y: System) {
    && Fresh([t], y) && NamespaceName(t) != t.platform && Supplied(HomeOf(t, y.store))
  }

  lemma StartSound(t: Tenant, y: System)
    requires Start(t, y)
    ensures var h := HomeOf(t, y.store); Sound(t, h, Idle) && Claim !in h && Bare(h) && Supplied(h) && y.locals[0] == Idle
  {
    assert [t][0] == t;
    InitiallySound(t, HomeOf(t, y.store));
  }

  /** The first run, without any fault: create, run, delete, and create again while the old namespace is still
      closing. A deployment then stands for a live tenant without any init job. */
  lemma RecreatedWhileClosing(t: Tenant, y: System, spec: Spec) returns (es: seq<Event>)
    requires Start(t, y) && !spec.suspended
    ensures var s := Run([t], y, es).store;
      && KeyOf(t, Claim) in s && s[KeyOf(t, Claim)].ClaimObj? && !s[KeyOf(t, Claim)].cr.deleting
      && Stands(t, s, TDeploy(Auth)) && !Stands(t, s, TJob)
  {
    StartSound(t, y);
    var hs, h := ToRecreated(t, HomeOf(t, y.store), spec);
    es := Events(0, hs);
    OneTenant(t, y, hs, h);
    GateInStore(t, Run([t], y, es).store, h);
  }

  lemma ToRecreated(t: Tenant, h0: Home, spec: Spec) returns (es: seq<Happening>, h: Home)
    requires Sound(t, h0, Idle) && Claim !in h0 && Bare(h0) && Supplied(h0) && !spec.suspended
    ensures Leads(t, h0, Idle, es, h) && Claim in h && h[Claim].ClaimObj? && !h[Claim].cr.deleting
    ensures Child(TDeploy(Auth)) in h && Child(TJob) !in h
  {
    es, h := ToComplete(t, h0, spec);
    es, h := ToDeleted(t, h0, es, h);
    es := EventLeads(t, h0, Idle, es, h, UserCreates(spec), Created(h, spec));
    h := Created(h, spec);
  }

  lemma GateInStore(t: Tenant, s: Store, h: Home)
    requires HomeOf(t, s) == h && Claim in h && h[Claim].ClaimObj? && Child(TDeploy(Auth)) in h && Child(TJob) !in h
    ensures KeyOf(t, Claim) in s && s[KeyOf(t, Claim)] == h[Claim] && Stands(t, s, TDeploy(Auth)) && !Stands(t, s, TJob)
  {
    HomeAt(t, s, Claim);
    HomeAt(t, s, Child(TDeploy(Auth)));
    HomeAt(t, s, Child(TJob));
  }
}
