/** What every step of a run keeps, for one tenant: gating, credential agreement, finalizer first.

    A run interleaves the steps of the tenant's passes with faults, crashes, and everything that others may
    do to the tenant's slots; `Happening` lists them. */
module Safety {
  import opened Options
  import opened Objects
  import opened Tenants
  import opened Machine
  import Credentials

  // ---------------------------------------------------------------- what can happen to a tenant

  datatype Happening =
    | PassStep(tick: Tick)
    | PassStart
    | Crash                                 // the operator restarts and forgets the pass
    | NamespaceActivates
    | JobSucceeds
    | DatabaseApplied(applied: Option<bool>)
    | ReplicasMove(svc: Svc, ready: int)
    | UserCreates(spec: Spec)
    | UserEdits(spec: Spec)
    | UserDeletes
    | Sweep(target: Target)                 // an object goes because its namespace is terminating
    | NamespaceGone

  ghost predicate Bare(h: Home) {
    forall x: Target :: Child(x) !in h
  }

  ghost predicate Emptied(h: Home) {
    forall x: Target :: Inside(x) ==> Child(x) !in h
  }

  ghost predicate Doomed(h: Home) {
    At(h, Child(TNamespace)).Some? && h[Child(TNamespace)].NamespaceObj? && h[Child(TNamespace)].phase.Terminating?
  }

  /** The new contents of a slot, when it holds an object of the given shape; otherwise it stays as it is. */
  ghost function Outside(t: Tenant, h: Home, l: Local, e: Happening): (w: Write)
    requires !e.PassStep?
  {
    match e
    case PassStart => Write(Claim, At(h, Claim), Begin())
    case Crash => Write(Claim, At(h, Claim), Idle)
    case NamespaceActivates =>
      var s := Child(TNamespace);
      Write(s, if s in h && h[s].NamespaceObj? && h[s].phase.Pending? then Some(h[s].(phase := Active)) else At(h, s), l)
    case JobSucceeds =>
      var s := Child(TJob);
      Write(s, if s in h && h[s].JobObj? then Some(h[s].(succeeded := h[s].succeeded + 1)) else At(h, s), l)
    case DatabaseApplied(b) =>
      var s := Child(TDatabase);
      Write(s, if s in h && h[s].DatabaseObj? then Some(h[s].(applied := b)) else At(h, s), l)
    case ReplicasMove(svc, n) =>
      var s := Child(TDeploy(svc));
      Write(s, if s in h && h[s].DeploymentObj? then Some(h[s].(ready := n)) else At(h, s), l)
    case UserCreates(spec) =>
      // whatever is left of an earlier tenant of this name
      Write(Claim, if Claim !in h then Some(ClaimObj(TenantCR(spec, 1, false, false, BLANK_STATUS))) else At(h, Claim), l)
    case UserEdits(spec) =>
      Write(Claim, if Claim in h && h[Claim].ClaimObj?
                   then Some(ClaimObj(h[Claim].cr.(spec := spec, generation := h[Claim].cr.generation + 1))) else At(h, Claim), l)
    case UserDeletes =>
      Write(Claim, if Claim in h && h[Claim].ClaimObj? && h[Claim].cr.finalizer
                   then Some(ClaimObj(h[Claim].cr.(deleting := true))) else None, l)
    case Sweep(x) =>
      Write(Child(x), if Inside(x) && Doomed(h) then None else At(h, Child(x)), l)
    case NamespaceGone =>
      Write(Child(TNamespace), if Emptied(h) && Doomed(h) then None else At(h, Child(TNamespace)), l)
  }

  ghost function Happens(t: Tenant, h: Home, l: Local, e: Happening): Write {
    match e
    case PassStep(k) => if Running(l) then Step(t, h, l, k) else Write(Claim, At(h, Claim), l)
    case _ => Outside(t, h, l, e)
  }

  // ---------------------------------------------------------------- the invariant

  /** Every slot holds an object of its own kind. */
  ghost predicate Fits(s: Slot, o: Obj) {
    match s
    case Claim => o.ClaimObj?
    case ParentSlot => o.ParentObj?
    case Platform => o.NamespaceObj?
    case Child(TNamespace) => o.NamespaceObj?
    case Child(TPolicy) => o.PolicyObj?
    case Child(TJwt) => o.SecretObj?
    case Child(TCreds) => o.SecretObj?
    case Child(TDatabase) => o.DatabaseObj?
    case Child(TJob) => o.JobObj?
    case Child(TDeploy(_)) => o.DeploymentObj?
    case Child(TService(_)) => o.ServiceObj?
    case Child(TRoute) => o.RouteObj?
  }

  ghost predicate Typed(h: Home) {
    forall s :: s in h ==> Fits(s, h[s])
  }

  /** The order in which a pass puts objects in place; workloads and the route come last. */
  function Order(x: Target): nat {
    match x
    case TNamespace => 0
    case TPolicy => 1
    case TJwt => 2
    case TCreds => 3
    case TDatabase => 4
    case TJob => 5
    case _ => 6
  }

  ghost predicate JobDone(h: Home) {
    Child(TJob) in h && h[Child(TJob)].JobObj? && h[Child(TJob)].succeeded > 0
  }

  /** What an object must not stand without: a workload or the route needs everything before it, the init job
      needs both secrets. */
  predicate Needs(x: Target, y: Target) {
    Order(y) < Order(x) && (Order(x) == 6 || (x.TJob? && (y.TJwt? || y.TCreds?)))
  }

  /** The gate: nothing stands without what it needs, and no workload without a finished init job. */
  ghost predicate Gated(h: Home) {
    && (forall x: Target, y: Target :: Child(x) in h && Needs(x, y) ==> Child(y) in h)
    && (forall x: Target :: Child(x) in h && Order(x) == 6 ==> JobDone(h))
    && !Doomed(h)
  }

  /** Parts of a pass that work towards the wanted state, and parts that take it down. */
  ghost predicate Working(l: Local) {
    l.Pass? && (l.pc.ReadParent? || l.pc.ReportLost? || l.pc.Ensure? || l.pc.Check? || l.pc.Quiesce? || l.pc.Unroute?
                || l.pc.Park? || l.pc.Report?)
  }

  ghost predicate Ending(l: Local) {
    l.Pass? && (l.pc.MarkDeleting? || l.pc.ReadParentToo? || l.pc.Drop? || l.pc.Release?)
  }

  /** The tenant is wanted, or a pass that still takes it to be wanted is under way. */
  ghost predicate Live(h: Home, l: Local) {
    Claim in h && h[Claim].ClaimObj? && (!h[Claim].cr.deleting || Working(l))
  }

  /** How many of the ordered objects a pass has put in place when it stands at a point. */
  function Reach(pc: PC): nat {
    match pc
    case Ensure(x, _) => Order(x)
    case Check(x) =>
      (match x
       case TNamespace => 2
       case TJwt => 4
       case TCreds => 4
       case TPolicy => 2
       case _ => 6)
    case Quiesce(_, _) => 6
    case Unroute(_) => 6
    case Report => 6
    case _ => 0
  }

  /** Points that lie beyond a successful check of the init job. */
  predicate BeyondGate(pc: PC) {
    match pc
    case Ensure(x, _) => Order(x) == 6
    case Check(x) => Order(x) == 6
    case Quiesce(_, _) => true
    case Unroute(_) => true
    case Report => true
    case _ => false
  }

  /** Signed by the key that is stored next to it. */
  ghost predicate SignedBy(c: Crypto, data: Credentials.Data) {
    && "jwt-secret" in data && "anon-key" in data && "service-role-key" in data
    && (exists at :: data["anon-key"] == c.sign(data["jwt-secret"], "anon", at))
    && (exists at :: data["service-role-key"] == c.sign(data["jwt-secret"], "service_role", at))
  }

  /** What a pass remembers is what the cluster holds. */
  ghost predicate Memory(t: Tenant, h: Home, l: Local) {
    && (Working(l) ==>
          && Claim in h && h[Claim].ClaimObj? && h[Claim].cr.finalizer && l.cr.finalizer && !l.cr.deleting
          && (forall x: Target :: Order(x) < Reach(l.pc) ==> Child(x) in h)
          && (BeyondGate(l.pc) ==> JobDone(h))
          && (Reach(l.pc) > 2 ==> l.jwt == SecretData(h[Child(TJwt)]))
          && (Reach(l.pc) > 3 ==> l.creds == SecretData(h[Child(TCreds)]))
          && (l.pc == Ensure(TJwt, Add) ==> SignedBy(t.crypto, l.jwt))
          && (forall x :: l.pc == Ensure(x, Fix) ==> Mended(x)))
    && (Ending(l) ==>
          && Claim in h && h[Claim].ClaimObj? && h[Claim].cr.finalizer && h[Claim].cr.deleting
          && l.cr.finalizer && l.cr.deleting)
    && (l.Pass? && l.pc.PutFinalizer? ==> !l.cr.finalizer && !l.cr.deleting)
  }

  ghost function Stored(t: Tenant, h: Home): Context
    requires Child(TJwt) in h && Child(TCreds) in h
  {
    ContextOf(t.crypto, SecretData(h[Child(TJwt)]), SecretData(h[Child(TCreds)]))
  }

  ghost predicate JobAgrees(t: Tenant, j: JobSpec, ctx: Context) {
    j.password == ctx.password && j.sql == InitParams(t.id, ctx.jwt, ctx.password, ctx.password, ctx.password)
  }

  ghost predicate DeploymentAgrees(t: Tenant, svc: Svc, d: DeploymentSpec, ctx: Context) {
    d.env == CredentialEnv(t, ctx, svc) && d.secretHash == ctx.hash
  }

  /** An object that carries credentials carries those of the given context. */
  ghost predicate Carries(t: Tenant, x: Target, o: Obj, ctx: Context) {
    match x
    case TJob => o.JobObj? && JobAgrees(t, o.job, ctx)
    case TDeploy(svc) => o.DeploymentObj? && DeploymentAgrees(t, svc, o.deployment, ctx)
    case _ => true
  }

  /** One set of credentials everywhere: secrets, init job and every deployment that carries them. */
  ghost predicate Agreed(t: Tenant, h: Home) {
    && (Child(TJwt) in h ==> SignedBy(t.crypto, SecretData(h[Child(TJwt)])))
    && (Child(TJwt) in h && Child(TCreds) in h ==>
          forall x: Target :: Child(x) in h ==> Carries(t, x, h[Child(x)], Stored(t, h)))
  }

  ghost predicate Sound(t: Tenant, h: Home, l: Local) {
    && Typed(h)
    && (Live(h, l) ==> Gated(h))
    && Memory(t, h, l)
    && Agreed(t, h)
  }

  lemma InitiallySound(t: Tenant, h: Home)
    requires Typed(h) && Claim !in h && Bare(h)
    ensures Sound(t, h, Idle)
  {
  }

  // ---------------------------------------------------------------- the same children

  ghost predicate SameChildren(h: Home, h': Home) {
    forall x: Target :: At(h', Child(x)) == At(h, Child(x))
  }

  lemma SameStands(h: Home, h': Home, x: Target)
    requires SameChildren(h, h')
    ensures Child(x) in h' <==> Child(x) in h
    ensures Child(x) in h ==> h'[Child(x)] == h[Child(x)]
  {
    assert At(h', Child(x)) == At(h, Child(x));
  }

  lemma SameAgreed(t: Tenant, h: Home, h': Home)
    requires SameChildren(h, h') && Agreed(t, h)
    ensures Agreed(t, h')
  {
    SameStands(h, h', TJwt);
    SameStands(h, h', TCreds);
    if Child(TJwt) in h && Child(TCreds) in h {
      forall x: Target | Child(x) in h' ensures Carries(t, x, h'[Child(x)], Stored(t, h')) { SameStands(h, h', x); }
    }
  }

  lemma SameGated(h: Home, h': Home)
    requires SameChildren(h, h')
    ensures Gated(h') == Gated(h) && Bare(h') == Bare(h) && Doomed(h') == Doomed(h) && JobDone(h') == JobDone(h)
  {
    forall x: Target ensures Child(x) in h' <==> Child(x) in h { SameStands(h, h', x); }
    SameStands(h, h', TNamespace);
    SameStands(h, h', TJob);
  }

  // ---------------------------------------------------------------- how a pass moves

  /** Going on after a component keeps everything that the pass knows. */
  lemma ConcludeRemembers(t: Tenant, h: Home, l: Local, c: Component, v: Verdict)
    requires Working(l) && Memory(t, h, l)
    requires match c
      case CNamespace => v.Healthy? ==> Reach(l.pc) >= 2
      case CSecrets => v.Healthy? ==> Reach(l.pc) >= 4
      case CDatabase => v.Healthy? ==> Reach(l.pc) >= 6 && JobDone(h)
      case _ => BeyondGate(l.pc)
    ensures Working(Conclude(t, l, c, v)) && Memory(t, h, Conclude(t, l, c, v))
  {
  }

  lemma PutBack(h: Home, s: Slot)
    ensures Put(h, s, At(h, s)) == h
  {
  }

  /** The three ways in which a look goes on. */
  lemma LookMoves(t: Tenant, l: Local, x: Target, r: Resp, luck: Luck)
    requires l.Pass?
    ensures var m := AfterLook(t, l, x, r, luck);
      || m == Conclude(t, l, ComponentOf(x), ReconcileFailed)
      || (r.NotFound? && m == Drawn(t, l, x, luck).(pc := Ensure(x, Add)))
      || (r.Ok? && Mended(x) && m == l.(pc := Ensure(x, Fix)))
      || (r.Ok? && !Mended(x) && m == Learn(l, x, r.obj).(pc := AfterEnsure(x)))
  {
  }

  lemma MissingRemembers(t: Tenant, h: Home, l: Local, x: Target, luck: Luck)
    requires l.Pass? && Working(l) && l.pc == Ensure(x, Look) && Memory(t, h, l)
    ensures var d := Drawn(t, l, x, luck); d.Pass? && var m := d.(pc := Ensure(x, Add)); Working(m) && Memory(t, h, m)
  {
  }

  lemma FoundRemembers(t: Tenant, h: Home, l: Local, x: Target)
    requires l.Pass? && Working(l) && l.pc == Ensure(x, Look) && Memory(t, h, l) && Child(x) in h && !Mended(x)
    ensures var d := Learn(l, x, h[Child(x)]); d.Pass? && var m := d.(pc := AfterEnsure(x)); Working(m) && Memory(t, h, m)
  {
  }

  lemma LookRemembers(t: Tenant, h: Home, l: Local, r: Resp, luck: Luck)
    requires Working(l) && l.pc.Ensure? && l.pc.act.Look? && Memory(t, h, l) && Typed(h)
    requires var s := Child(l.pc.target); (r.Ok? ==> s in h && r.obj == h[s])
    ensures Working(Resume(t, l, r, luck)) && Memory(t, h, Resume(t, l, r, luck))
  {
    var x := l.pc.target;
    assert Resume(t, l, r, luck) == AfterLook(t, l, x, r, luck);
    LookMoves(t, l, x, r, luck);
    ConcludeRemembers(t, h, l, ComponentOf(x), ReconcileFailed);
    MissingRemembers(t, h, l, x, luck);
    if r.Ok? && !Mended(x) { FoundRemembers(t, h, l, x); }
  }

  lemma WriteRemembers(t: Tenant, h: Home, l: Local, r: Resp, luck: Luck)
    requires Working(l) && l.pc.Ensure? && !l.pc.act.Look? && Memory(t, h, l)
    requires var x := l.pc.target;
      && (r.Ok? ==> Child(x) in h)
      && (r.Ok? && x.TJwt? ==> l.jwt == SecretData(h[Child(x)]))
      && (r.Ok? && x.TCreds? ==> l.creds == SecretData(h[Child(x)]))
    ensures Working(Resume(t, l, r, luck)) && Memory(t, h, Resume(t, l, r, luck))
  {
    var x := l.pc.target;
    ConcludeRemembers(t, h, l, ComponentOf(x), ReconcileFailed);
  }

  lemma CheckRemembers(t: Tenant, h: Home, l: Local, r: Resp, luck: Luck)
    requires Working(l) && l.pc.Check? && Memory(t, h, l)
    requires var s := Child(l.pc.target); (r.Ok? ==> s in h && r.obj == h[s])
    ensures Working(Resume(t, l, r, luck)) && Memory(t, h, Resume(t, l, r, luck))
  {
    var x := l.pc.target;
    ConcludeRemembers(t, h, l, ComponentOf(x), HealthcheckFailed);
    ConcludeRemembers(t, h, l, ComponentOf(x), Unhealthy);
    if r.Ok? && Examine(x, r.obj).Some? {
      ConcludeRemembers(t, h, l, ComponentOf(x), Examine(x, r.obj).value);
    }
  }

  lemma SuspendedRemembers(t: Tenant, h: Home, l: Local, r: Resp, luck: Luck)
    requires Working(l) && (l.pc.Quiesce? || l.pc.Unroute?) && Memory(t, h, l)
    ensures Working(Resume(t, l, r, luck)) && Memory(t, h, Resume(t, l, r, luck))
  {
    var c := if l.pc.Quiesce? then CService(l.pc.svc) else CRouting;
    ConcludeRemembers(t, h, l, c, Healthy);
    ConcludeRemembers(t, h, l, c, ReconcileFailed);
  }

  // ---------------------------------------------------------------- what a pass writes

  lemma DesiredFits(t: Tenant, l: Local, x: Target)
    requires l.Pass?
    ensures Fits(Child(x), DesiredBy(t, l, x))
    ensures Carries(t, x, DesiredBy(t, l, x), ContextFor(t, l))
    ensures x.TJwt? ==> SecretData(DesiredBy(t, l, x)) == l.jwt
    ensures x.TCreds? ==> SecretData(DesiredBy(t, l, x)) == l.creds
    ensures x.TNamespace? ==> DesiredBy(t, l, x).phase == Pending
  {
  }

  lemma MendingFits(t: Tenant, l: Local, x: Target, o: Obj)
    requires l.Pass? && Mended(x) && Fits(Child(x), o)
    ensures var p := Patched(o, Mending(t, l.cr.spec, l.parent, ContextFor(t, l), x));
            Fits(Child(x), p) && Carries(t, x, p, ContextFor(t, l))
  {
  }

  lemma TypedPut(h: Home, s: Slot, o: Obj)
    requires Typed(h) && Fits(s, o)
    ensures Typed(h[s := o])
  {
  }

  lemma GatedAdd(h: Home, x: Target, o: Obj)
    requires Gated(h) && Child(x) !in h
    requires forall y: Target :: Order(y) < Order(x) ==> Child(y) in h
    requires Order(x) == 6 ==> JobDone(h)
    requires x.TNamespace? ==> o.NamespaceObj? && o.phase == Pending
    ensures Gated(h[Child(x) := o])
  {
    var h' := h[Child(x) := o];
    forall y: Target, z: Target | Child(y) in h' && Needs(y, z) ensures Child(z) in h' {
      if y != x { assert Child(y) in h; }
    }
    forall y: Target | Child(y) in h' && Order(y) == 6 ensures JobDone(h') {
      if y != x { assert Child(y) in h; }
    }
  }

  lemma GatedPut(h: Home, x: Target, o: Obj)
    requires Gated(h) && Child(x) in h
    requires x.TNamespace? ==> o.NamespaceObj? && !o.phase.Terminating?
    requires x.TJob? ==> o.JobObj? && (JobDone(h) ==> o.succeeded > 0)
    ensures Gated(h[Child(x) := o])
  {
    var h' := h[Child(x) := o];
    assert forall y: Target :: Child(y) in h' <==> Child(y) in h;
    assert JobDone(h) ==> JobDone(h');
  }

  /** Adding or changing anything but the secrets keeps the agreement when the object carries the stored credentials. */
  lemma AgreedPut(t: Tenant, h: Home, x: Target, o: Obj)
    requires Agreed(t, h) && !x.TJwt? && !x.TCreds?
    requires Child(TJwt) in h && Child(TCreds) in h ==> Carries(t, x, o, Stored(t, h))
    ensures Agreed(t, h[Child(x) := o])
  {
    var h' := h[Child(x) := o];
    if Child(TJwt) in h && Child(TCreds) in h {
      assert Stored(t, h') == Stored(t, h);
      forall y: Target | Child(y) in h' ensures Carries(t, y, h'[Child(y)], Stored(t, h')) {
        if y != x { assert h'[Child(y)] == h[Child(y)]; }
      }
    }
  }

  /** A new secret agrees because nothing that carries credentials exists yet. */
  lemma AgreedSecret(t: Tenant, h: Home, x: Target, o: Obj)
    requires Agreed(t, h) && (x.TJwt? || x.TCreds?)
    requires x.TJwt? ==> SignedBy(t.crypto, SecretData(o))
    requires Child(TJob) !in h && forall svc :: Child(TDeploy(svc)) !in h
    ensures Agreed(t, h[Child(x) := o])
  {
  }

  ghost predicate Persisted(h: Home) {
    Claim in h && h[Claim].ClaimObj? && h[Claim].cr.finalizer
  }

  /** What a working pass can count on. */
  lemma WorkingFacts(t: Tenant, h: Home, l: Local)
    requires Sound(t, h, l) && Working(l)
    ensures Typed(h) && Gated(h) && Agreed(t, h) && Persisted(h)
    ensures forall x: Target :: Order(x) < Reach(l.pc) ==> Child(x) in h
    ensures BeyondGate(l.pc) ==> JobDone(h)
    ensures Reach(l.pc) > 3 && Child(TJwt) in h && Child(TCreds) in h ==> Stored(t, h) == ContextFor(t, l)
  {
    assert Live(h, l);
  }

  lemma CreateKeeps(t: Tenant, h: Home, x: Target, o: Obj)
    requires Typed(h) && Gated(h) && Agreed(t, h) && Persisted(h) && Child(x) !in h
    requires forall y: Target :: Order(y) < Order(x) ==> Child(y) in h
    requires Order(x) == 6 ==> JobDone(h)
    requires Fits(Child(x), o)
    requires x.TNamespace? ==> o.phase == Pending
    requires x.TJwt? ==> SignedBy(t.crypto, SecretData(o))
    requires Order(x) > 3 && Child(TJwt) in h && Child(TCreds) in h ==> Carries(t, x, o, Stored(t, h))
    ensures var h' := h[Child(x) := o];
            Typed(h') && Gated(h') && Agreed(t, h')
  {
    TypedPut(h, Child(x), o);
    GatedAdd(h, x, o);
    if x.TJwt? || x.TCreds? {
      NothingCarries(h, x);
      AgreedSecret(t, h, x, o);
    } else {
      AgreedPut(t, h, x, o);
    }
  }

  lemma NothingCarries(h: Home, x: Target)
    requires Gated(h) && Child(x) !in h && (x.TJwt? || x.TCreds?)
    ensures Child(TJob) !in h && forall svc :: Child(TDeploy(svc)) !in h
  {
    assert Needs(TJob, x) && forall svc :: Needs(TDeploy(svc), x);
  }

  /** Changing a workload, a service or the route keeps everything when credentials stay those that are stored. */
  lemma ChangeKeeps(t: Tenant, h: Home, x: Target, o: Obj)
    requires Typed(h) && Gated(h) && Agreed(t, h) && Persisted(h) && Child(x) in h && Mended(x)
    requires Fits(Child(x), o)
    requires Child(TJwt) in h && Child(TCreds) in h ==> Carries(t, x, o, Stored(t, h))
    ensures var h' := h[Child(x) := o];
            Typed(h') && Gated(h') && Agreed(t, h')
  {
    TypedPut(h, Child(x), o);
    GatedPut(h, x, o);
    AgreedPut(t, h, x, o);
  }

  lemma ChangeRemembered(t: Tenant, h: Home, l: Local, x: Target, o: Obj)
    requires Memory(t, h, l) && Working(l) && Mended(x) && Child(x) in h
    ensures Memory(t, h[Child(x) := o], l)
  {
  }

  lemma AddRemembered(t: Tenant, h: Home, l: Local, x: Target, o: Obj)
    requires Memory(t, h, l) && Working(l) && l.pc == Ensure(x, Add) && Child(x) !in h
    ensures Memory(t, h[Child(x) := o], l)
  {
  }

  lemma RouteGone(h: Home)
    requires Gated(h)
    ensures Gated(h - {Child(TRoute)})
  {
    var h' := h - {Child(TRoute)};
    assert forall y: Target :: y != TRoute ==> (Child(y) in h' <==> Child(y) in h);
  }

  lemma AgreedRemove(t: Tenant, h: Home, x: Target)
    requires Agreed(t, h)
    ensures Agreed(t, h - {Child(x)})
  {
    var h' := h - {Child(x)};
    assert forall s :: s in h' ==> s in h && h'[s] == h[s];
    if Child(TJwt) in h' && Child(TCreds) in h' {
      assert Stored(t, h') == Stored(t, h);
      assert forall y: Target :: Child(y) in h' ==> Child(y) in h && Carries(t, y, h[Child(y)], Stored(t, h));
    }
  }

  /** Removing an object keeps types and agreement. */
  lemma RemoveKeeps(t: Tenant, h: Home, x: Target)
    requires Typed(h) && Agreed(t, h)
    ensures Typed(h - {Child(x)}) && Agreed(t, h - {Child(x)})
  {
    AgreedRemove(t, h, x);
    assert forall s :: s in h - {Child(x)} ==> s in h;
  }

  /** A new status leaves everything that the invariant speaks of as it was. */
  lemma StatusKeeps(t: Tenant, h: Home, st: Status)
    requires Typed(h) && Agreed(t, h) && Claim in h
    ensures var h' := h[Claim := ClaimObj(h[Claim].cr.(status := st))];
            Typed(h') && Agreed(t, h') && (Gated(h) ==> Gated(h'))
  {
    var h' := h[Claim := ClaimObj(h[Claim].cr.(status := st))];
    assert forall x: Target :: Child(x) in h' <==> Child(x) in h;
  }

  // ---------------------------------------------------------------- one step, point by point

  ghost predicate Kept(t: Tenant, h: Home, w: Write) {
    Sound(t, Put(h, w.slot, w.obj), w.local)
  }

  lemma EnsureLookKept(t: Tenant, h: Home, l: Local, k: Tick)
    requires Sound(t, h, l) && Working(l) && l.pc.Ensure? && l.pc.act.Look?
    ensures Kept(t, h, Step(t, h, l, k)) && Working(Step(t, h, l, k).local)
  {
    var s := Child(l.pc.target);
    var (o, r) := Serve(At(h, s), Open(h, s), Get, k.fault);
    PutBack(h, s);
    LookRemembers(t, h, l, r, k.luck);
    assert Live(h, l);
  }

  /** A creation leaves the cluster as it was, or adds the object; when it reports success the object is there. */
  lemma AddStep(t: Tenant, h: Home, l: Local, k: Tick)
    requires Working(l) && l.pc.Ensure? && l.pc.act.Add?
    ensures var x, w := l.pc.target, Step(t, h, l, k); var h' := Put(h, w.slot, w.obj); var d := DesiredBy(t, l, x);
            && (h' == h || (Child(x) !in h && h' == h[Child(x) := d]))
            && (w.local == AfterWrite(t, l, x, Failed) || (w.local == AfterWrite(t, l, x, Ok(d)) && Child(x) !in h && h' == h[Child(x) := d]))
  {
    PutBack(h, Child(l.pc.target));
  }

  lemma AddKeeps(t: Tenant, h: Home, l: Local, x: Target, h': Home)
    requires Sound(t, h, l) && Working(l) && l.pc == Ensure(x, Add)
    requires h' == h || (Child(x) !in h && h' == h[Child(x) := DesiredBy(t, l, x)])
    ensures Typed(h') && Gated(h') && Agreed(t, h') && Memory(t, h', l)
  {
    WorkingFacts(t, h, l);
    if h' != h {
      DesiredFits(t, l, x);
      CreateKeeps(t, h, x, DesiredBy(t, l, x));
      AddRemembered(t, h, l, x, DesiredBy(t, l, x));
    }
  }

  lemma AddRemembers(t: Tenant, h': Home, l: Local, x: Target, r: Resp)
    requires Working(l) && l.pc == Ensure(x, Add) && Memory(t, h', l) && !r.NotFound?
    requires r.Ok? ==> Child(x) in h' && h'[Child(x)] == DesiredBy(t, l, x)
    ensures Working(AfterWrite(t, l, x, r)) && Memory(t, h', AfterWrite(t, l, x, r))
  {
    DesiredFits(t, l, x);
    WriteRemembers(t, h', l, r, Luck(false, "", 0, 0, "", "", "", ""));
  }

  lemma EnsureAddKept(t: Tenant, h: Home, l: Local, k: Tick)
    requires Sound(t, h, l) && Working(l) && l.pc.Ensure? && l.pc.act.Add?
    ensures Kept(t, h, Step(t, h, l, k)) && Working(Step(t, h, l, k).local)
  {
    var x, w := l.pc.target, Step(t, h, l, k);
    var h' := Put(h, w.slot, w.obj);
    AddStep(t, h, l, k);
    AddKeeps(t, h, l, x, h');
    AddRemembers(t, h', l, x, Failed);
    if w.local != AfterWrite(t, l, x, Failed) { AddRemembers(t, h', l, x, Ok(DesiredBy(t, l, x))); }
  }

  /** The patch that brings an object up to date, applied to whatever is there. */
  lemma FixKeeps(t: Tenant, h: Home, l: Local, x: Target, h': Home)
    requires Sound(t, h, l) && Working(l) && l.pc == Ensure(x, Fix) && Mended(x)
    requires h' == h || (Child(x) in h
      && h' == h[Child(x) := Patched(h[Child(x)], Mending(t, l.cr.spec, l.parent, ContextFor(t, l), x))])
    ensures Typed(h') && Gated(h') && Agreed(t, h') && Memory(t, h', l)
  {
    WorkingFacts(t, h, l);
    if h' != h {
      MendingFits(t, l, x, h[Child(x)]);
      var o := h'[Child(x)];
      assert h' == h[Child(x) := o];
      ChangeKeeps(t, h, x, o);
      ChangeRemembered(t, h, l, x, o);
    }
  }

  /** A patch leaves the cluster as it was, or with the patched object; on success the object is there. */
  lemma FixStep(t: Tenant, h: Home, l: Local, k: Tick)
    requires Working(l) && l.pc.Ensure? && l.pc.act.Fix? && Mended(l.pc.target)
    ensures var x, w := l.pc.target, Step(t, h, l, k); var h' := Put(h, w.slot, w.obj);
            && (h' == h || (Child(x) in h
                && h' == h[Child(x) := Patched(h[Child(x)], Mending(t, l.cr.spec, l.parent, ContextFor(t, l), x))]))
            && (w.local == AfterWrite(t, l, x, Failed) || (Child(x) in h' && w.local == AfterWrite(t, l, x, Ok(h'[Child(x)]))))
  {
    PutBack(h, Child(l.pc.target));
  }

  lemma FixRemembers(t: Tenant, h': Home, l: Local, x: Target, r: Resp)
    requires Working(l) && l.pc == Ensure(x, Fix) && Mended(x) && Memory(t, h', l) && !r.NotFound?
    requires r.Ok? ==> Child(x) in h'
    ensures Working(AfterWrite(t, l, x, r)) && Memory(t, h', AfterWrite(t, l, x, r))
  {
    WriteRemembers(t, h', l, r, Luck(false, "", 0, 0, "", "", "", ""));
  }

  lemma EnsureFixKept(t: Tenant, h: Home, l: Local, k: Tick)
    requires Sound(t, h, l) && Working(l) && l.pc.Ensure? && l.pc.act.Fix?
    ensures Kept(t, h, Step(t, h, l, k)) && Working(Step(t, h, l, k).local)
  {
    var x, w := l.pc.target, Step(t, h, l, k);
    var h' := Put(h, w.slot, w.obj);
    assert Mended(x);
    FixStep(t, h, l, k);
    FixKeeps(t, h, l, x, h');
    FixRemembers(t, h', l, x, Failed);
    if w.local != AfterWrite(t, l, x, Failed) { FixRemembers(t, h', l, x, Ok(h'[Child(x)])); }
  }

  lemma CheckKept(t: Tenant, h: Home, l: Local, k: Tick)
    requires Sound(t, h, l) && Working(l) && l.pc.Check?
    ensures Kept(t, h, Step(t, h, l, k)) && Working(Step(t, h, l, k).local)
  {
    var s := Child(l.pc.target);
    var (o, r) := Serve(At(h, s), Open(h, s), Get, k.fault);
    PutBack(h, s);
    CheckRemembers(t, h, l, r, k.luck);
    assert Live(h, l);
  }

  lemma ScaledCarries(t: Tenant, svc: Svc, o: Obj, ctx: Context)
    requires Fits(Child(TDeploy(svc)), o)
    ensures Fits(Child(TDeploy(svc)), Patched(o, Scale(0)))
    ensures Carries(t, TDeploy(svc), o, ctx) ==> Carries(t, TDeploy(svc), Patched(o, Scale(0)), ctx)
  {
  }

  lemma QuiesceStep(t: Tenant, h: Home, l: Local, k: Tick)
    requires Running(l) && l.pc.Quiesce?
    ensures var w, s := Step(t, h, l, k), Child(TDeploy(l.pc.svc)); var h' := Put(h, w.slot, w.obj);
            && (h' == h || (s in h && h' == h[s := Patched(h[s], Scale(0))]))
            && exists r :: w.local == Resume(t, l, r, k.luck)
  {
    var s := Child(TDeploy(l.pc.svc));
    PutBack(h, s);
    var verb := if l.pc.act.Look? then Get else Verb.Patch(Scale(0));
    var (o, r) := Serve(At(h, s), Open(h, s), verb, k.fault);
    assert Step(t, h, l, k).local == Resume(t, l, r, k.luck);
  }

  lemma ScaledKeeps(t: Tenant, h: Home, l: Local, svc: Svc, h': Home)
    requires Sound(t, h, l) && Working(l)
    requires var s := Child(TDeploy(svc)); h' == h || (s in h && h' == h[s := Patched(h[s], Scale(0))])
    ensures Typed(h') && Gated(h') && Agreed(t, h') && Memory(t, h', l)
  {
    WorkingFacts(t, h, l);
    var x, s := TDeploy(svc), Child(TDeploy(svc));
    if h' != h {
      var d := Patched(h[s], Scale(0));
      assert Fits(s, h[s]);
      ScaledCarries(t, svc, h[s], if Child(TJwt) in h && Child(TCreds) in h then Stored(t, h) else ContextFor(t, l));
      ChangeKeeps(t, h, x, d);
      ChangeRemembered(t, h, l, x, d);
    }
  }

  lemma QuiesceKept(t: Tenant, h: Home, l: Local, k: Tick)
    requires Sound(t, h, l) && Working(l) && l.pc.Quiesce?
    ensures Kept(t, h, Step(t, h, l, k)) && Working(Step(t, h, l, k).local)
  {
    var w := Step(t, h, l, k);
    var h' := Put(h, w.slot, w.obj);
    QuiesceStep(t, h, l, k);
    ScaledKeeps(t, h, l, l.pc.svc, h');
    var r :| w.local == Resume(t, l, r, k.luck);
    SuspendedRemembers(t, h', l, r, k.luck);
  }

  lemma RouteForgotten(t: Tenant, h: Home, l: Local)
    requires Memory(t, h, l) && Working(l)
    ensures Memory(t, h - {Child(TRoute)}, l)
  {
  }

  lemma UnrouteKept(t: Tenant, h: Home, l: Local, k: Tick)
    requires Sound(t, h, l) && Working(l) && l.pc.Unroute?
    ensures Kept(t, h, Step(t, h, l, k)) && Working(Step(t, h, l, k).local)
  {
    var s := Child(TRoute);
    var verb := if l.pc.act.Look? then Get else Delete;
    var (o, r) := Serve(At(h, s), Open(h, s), verb, k.fault);
    var h' := Put(h, s, o);
    PutBack(h, s);
    WorkingFacts(t, h, l);
    if h' != h {
      assert Fits(s, h[s]);
      assert h' == h - {s};
      RouteGone(h);
      RemoveKeeps(t, h, TRoute);
      RouteForgotten(t, h, l);
    }
    SuspendedRemembers(t, h', l, r, k.luck);
  }

  /** A status write leaves the store as it was, or with the new status. */
  ghost predicate StatusWritten(h: Home, h': Home, st: Status) {
    h' == h || (Claim in h && h[Claim].ClaimObj? && h' == h[Claim := ClaimObj(h[Claim].cr.(status := st))])
  }

  lemma StatusStep(t: Tenant, h: Home, l: Local, k: Tick)
    requires Running(l) && (l.pc.ReportLost? || l.pc.Park? || l.pc.Report?)
    ensures var w := Step(t, h, l, k);
            StatusWritten(h, Put(h, w.slot, w.obj), l.status) && w.local.Pass? && w.local.pc.Stop?
  {
    PutBack(h, Claim);
  }

  lemma WrittenKeeps(t: Tenant, h: Home, h': Home, st: Status)
    requires Typed(h) && Agreed(t, h) && StatusWritten(h, h', st)
    ensures Typed(h') && Agreed(t, h') && (Gated(h) ==> Gated(h'))
  {
    if h' != h { StatusKeeps(t, h, st); }
  }

  lemma StoppedRemembers(t: Tenant, h: Home, m: Local)
    requires m.Pass? && m.pc.Stop?
    ensures Memory(t, h, m) && !Working(m)
  {
  }

  /** Status writes: the parent could not be read, a prerequisite is missing, or the pass is complete. */
  lemma StatusKept(t: Tenant, h: Home, l: Local, k: Tick)
    requires Sound(t, h, l) && Working(l) && (l.pc.ReportLost? || l.pc.Park? || l.pc.Report?)
    ensures Kept(t, h, Step(t, h, l, k)) && Step(t, h, l, k).local.pc.Stop?
  {
    var w := Step(t, h, l, k);
    WorkingFacts(t, h, l);
    StatusStep(t, h, l, k);
    WrittenKeeps(t, h, Put(h, w.slot, w.obj), l.status);
    StoppedRemembers(t, Put(h, w.slot, w.obj), w.local);
  }

  /** Reads change nothing, and answer with what is there. */
  lemma ReadStep(t: Tenant, h: Home, l: Local, k: Tick)
    requires Running(l) && (l.pc.ReadClaim? || l.pc.ReadParent?)
    ensures var w := Step(t, h, l, k); Put(h, w.slot, w.obj) == h
    ensures l.pc.ReadParent? ==> exists r :: Step(t, h, l, k).local == Resume(t, l, r, k.luck)
    ensures l.pc.ReadClaim? ==>
      var m := Step(t, h, l, k).local;
      m == AfterClaim(l, NotFound) || m == AfterClaim(l, Failed) || (Claim in h && m == AfterClaim(l, Ok(h[Claim])))
  {
    PutBack(h, NextOp(t, l).slot);
  }

  lemma ClaimKeeps(t: Tenant, h: Home, l: Local, r: Resp)
    requires Sound(t, h, l) && l.Pass? && l.pc.ReadClaim? && (r.Ok? ==> Claim in h && r.obj == h[Claim])
    ensures Sound(t, h, AfterClaim(l, r))
  {
    if r.Ok? { assert Fits(Claim, h[Claim]); }
  }

  lemma ParentKeeps(t: Tenant, h: Home, l: Local, r: Resp, luck: Luck)
    requires Sound(t, h, l) && l.Pass? && l.pc.ReadParent?
    ensures Sound(t, h, Resume(t, l, r, luck))
  {
    assert Live(h, l);
  }

  lemma ReadsKept(t: Tenant, h: Home, l: Local, k: Tick)
    requires Sound(t, h, l) && Running(l) && (l.pc.ReadClaim? || l.pc.ReadParent?)
    ensures Kept(t, h, Step(t, h, l, k))
  {
    ReadStep(t, h, l, k);
    if l.pc.ReadClaim? {
      ClaimKeeps(t, h, l, NotFound);
      ClaimKeeps(t, h, l, Failed);
      if Claim in h { ClaimKeeps(t, h, l, Ok(h[Claim])); }
    } else {
      var r :| Step(t, h, l, k).local == Resume(t, l, r, k.luck);
      ParentKeeps(t, h, l, r, k.luck);
    }
  }

  lemma PutFinalizerKept(t: Tenant, h: Home, l: Local, k: Tick)
    requires Sound(t, h, l) && Running(l) && l.pc.PutFinalizer?
    ensures Kept(t, h, Step(t, h, l, k))
  {
    var (o, r) := Serve(At(h, Claim), Open(h, Claim), Update(l.cr, true), k.fault);
    var h' := Put(h, Claim, o);
    PutBack(h, Claim);
    assert forall x: Target :: Child(x) in h' <==> Child(x) in h;
    FinalizerKeeps(t, h, h', l.cr);
  }

  lemma FinalizerKeeps(t: Tenant, h: Home, h': Home, cr: TenantCR)
    requires Typed(h) && Agreed(t, h)
    requires h' == h || (Claim in h && h[Claim].ClaimObj? && h[Claim].cr == cr && h' == h[Claim := ClaimObj(cr.(finalizer := true))])
    ensures Typed(h') && Agreed(t, h') && (Gated(h) ==> Gated(h'))
  {
    if h' != h { ClaimChanged(t, h, cr.(finalizer := true)); }
  }

  /** Writes of a finalizing pass; the gate no longer binds, since the tenant is being deleted. */
  lemma DropKeeps(t: Tenant, h: Home, x: Target, h': Home)
    requires Typed(h) && Agreed(t, h)
    requires h' == h || h' == h - {Child(x)}
          || (x.TNamespace? && Child(x) in h && h' == h[Child(x) := h[Child(x)].(phase := Terminating)])
    ensures Typed(h') && Agreed(t, h')
  {
    if h' == h - {Child(x)} {
      RemoveKeeps(t, h, x);
    } else if h' != h {
      var o := h[Child(x)].(phase := Terminating);
      assert Fits(Child(x), h[Child(x)]);
      TypedPut(h, Child(x), o);
      AgreedPut(t, h, x, o);
      assert forall y: Target :: Child(y) in h' <==> Child(y) in h;
    }
  }

  lemma DropStep(t: Tenant, h: Home, l: Local, k: Tick)
    requires Running(l) && l.pc.Drop? && Typed(h)
    ensures var w, x := Step(t, h, l, k), l.pc.target;
            var h' := Put(h, w.slot, w.obj);
            && (h' == h || h' == h - {Child(x)}
                || (x.TNamespace? && Child(x) in h && h' == h[Child(x) := h[Child(x)].(phase := Terminating)]))
            && w.local.Pass? && w.local.cr == l.cr
            && (w.local.pc.Drop? || w.local.pc == Release(false) || w.local.pc.Stop?)
  {
    var s := Child(l.pc.target);
    PutBack(h, s);
    if s in h { assert Fits(s, h[s]); }
  }

  lemma EndingRemembers(t: Tenant, h: Home, h': Home, l: Local, m: Local)
    requires Ending(l) && Memory(t, h, l) && At(h', Claim) == At(h, Claim)
    requires m.Pass? && m.cr == l.cr && (Ending(m) || m.pc.Stop?)
    ensures Memory(t, h', m) && !Live(h', m)
  {
  }

  lemma DropKept(t: Tenant, h: Home, l: Local, k: Tick)
    requires Sound(t, h, l) && Ending(l) && l.pc.Drop?
    ensures Kept(t, h, Step(t, h, l, k))
  {
    var w := Step(t, h, l, k);
    DropStep(t, h, l, k);
    DropKeeps(t, h, l.pc.target, Put(h, w.slot, w.obj));
    EndingRemembers(t, h, Put(h, w.slot, w.obj), l, w.local);
  }

  lemma MarkStep(t: Tenant, h: Home, l: Local, k: Tick)
    requires Running(l) && l.pc.MarkDeleting?
    ensures var w := Step(t, h, l, k); var h' := Put(h, w.slot, w.obj);
            && StatusWritten(h, h', l.status) && w.local.Pass? && w.local.pc == ReadParentToo
            && (w.local.cr == l.cr || (Claim in h' && h'[Claim] == ClaimObj(w.local.cr)))
  {
    PutBack(h, Claim);
  }

  lemma MarkKept(t: Tenant, h: Home, l: Local, k: Tick)
    requires Sound(t, h, l) && l.Pass? && l.pc.MarkDeleting?
    ensures Kept(t, h, Step(t, h, l, k))
  {
    var w := Step(t, h, l, k);
    var h' := Put(h, w.slot, w.obj);
    MarkStep(t, h, l, k);
    WrittenKeeps(t, h, h', l.status);
    assert Memory(t, h', w.local) && !Live(h', w.local);
  }

  lemma ReadParentTooKept(t: Tenant, h: Home, l: Local, k: Tick)
    requires Sound(t, h, l) && l.Pass? && l.pc.ReadParentToo?
    ensures Kept(t, h, Step(t, h, l, k))
  {
    PutBack(h, ParentSlot);
    EndingRemembers(t, h, h, l, Step(t, h, l, k).local);
  }

  lemma ReleaseStep(t: Tenant, h: Home, l: Local, k: Tick)
    requires Running(l) && l.pc.Release? && l.cr.deleting
    ensures var w := Step(t, h, l, k); var h' := Put(h, w.slot, w.obj);
            && (h' == h || h' == h - {Claim}) && w.local.Pass? && w.local.pc.Stop?
  {
    PutBack(h, Claim);
  }

  lemma ReleaseKept(t: Tenant, h: Home, l: Local, k: Tick)
    requires Sound(t, h, l) && l.Pass? && l.pc.Release?
    ensures Kept(t, h, Step(t, h, l, k))
  {
    var w := Step(t, h, l, k);
    ReleaseStep(t, h, l, k);
    ClaimRemoved(t, h);
    StoppedRemembers(t, Put(h, w.slot, w.obj), w.local);
  }

  lemma ClaimRemoved(t: Tenant, h: Home)
    requires Typed(h) && Agreed(t, h)
    ensures Typed(h - {Claim}) && Agreed(t, h - {Claim})
  {
    var h' := h - {Claim};
    assert forall x: Target :: (Child(x) in h' <==> Child(x) in h) && (Child(x) in h ==> h'[Child(x)] == h[Child(x)]);
    if Child(TJwt) in h && Child(TCreds) in h { assert Stored(t, h') == Stored(t, h); }
  }

  /** Every API call of a pass keeps the invariant, whatever fault it meets. */
  lemma StepKeepsSound(t: Tenant, h: Home, l: Local, k: Tick)
    requires Sound(t, h, l) && Running(l)
    ensures Kept(t, h, Step(t, h, l, k))
  {
    if l.pc.Ensure? {
      if l.pc.act.Look? { EnsureLookKept(t, h, l, k); }
      else if l.pc.act.Add? { EnsureAddKept(t, h, l, k); }
      else { EnsureFixKept(t, h, l, k); }
    } else if l.pc.Check? {
      CheckKept(t, h, l, k);
    } else if l.pc.Quiesce? {
      QuiesceKept(t, h, l, k);
    } else if l.pc.Unroute? {
      UnrouteKept(t, h, l, k);
    } else if l.pc.ReportLost? || l.pc.Park? || l.pc.Report? {
      StatusKept(t, h, l, k);
    } else if l.pc.ReadClaim? || l.pc.ReadParent? {
      ReadsKept(t, h, l, k);
    } else if l.pc.PutFinalizer? {
      PutFinalizerKept(t, h, l, k);
    } else if l.pc.Drop? {
      DropKept(t, h, l, k);
    } else if l.pc.MarkDeleting? {
      MarkKept(t, h, l, k);
    } else if l.pc.ReadParentToo? {
      ReadParentTooKept(t, h, l, k);
    } else {
      ReleaseKept(t, h, l, k);
    }
  }

  // ---------------------------------------------------------------- what others do

  lemma OwnedFieldAgrees(t: Tenant, h: Home, x: Target, o: Obj)
    requires Typed(h) && Agreed(t, h) && Child(x) in h && Fits(Child(x), o) && !x.TJwt? && !x.TCreds?
    requires x.TJob? ==> o.job == h[Child(x)].job
    requires x.TDeploy? ==> o.deployment == h[Child(x)].deployment
    ensures Agreed(t, h[Child(x) := o])
  {
    assert Fits(Child(x), h[Child(x)]);
    if Child(TJwt) in h && Child(TCreds) in h {
      assert Carries(t, x, h[Child(x)], Stored(t, h));
    }
    AgreedPut(t, h, x, o);
  }

  /** Changing a child does not touch the custom resource. */
  lemma SameClaim(h: Home, x: Target, o: Obj, l: Local)
    ensures Live(h[Child(x) := o], l) == Live(h, l)
  {
  }

  /** A change by others to the fields they own: kinds and credentials stay. */
  lemma OwnedFieldKeeps(t: Tenant, h: Home, l: Local, x: Target, o: Obj)
    requires Sound(t, h, l) && Child(x) in h && Fits(Child(x), o)
    requires !x.TJwt? && !x.TCreds?
    requires x.TNamespace? ==> !o.phase.Terminating?
    requires x.TJob? ==> o.job == h[Child(x)].job && o.succeeded >= h[Child(x)].succeeded
    requires x.TDeploy? ==> o.deployment == h[Child(x)].deployment
    ensures Sound(t, h[Child(x) := o], l)
  {
    var h' := h[Child(x) := o];
    TypedPut(h, Child(x), o);
    OwnedFieldAgrees(t, h, x, o);
    SameClaim(h, x, o, l);
    if Gated(h) { assert Fits(Child(x), h[Child(x)]); GatedPut(h, x, o); }
    OwnedFieldRemembered(t, h, l, x, o);
  }

  lemma OwnedFieldRemembered(t: Tenant, h: Home, l: Local, x: Target, o: Obj)
    requires Memory(t, h, l) && Child(x) in h && !x.TJwt? && !x.TCreds?
    requires x.TJob? && JobDone(h) ==> o.JobObj? && o.succeeded > 0
    ensures Memory(t, h[Child(x) := o], l)
  {
  }

  lemma FieldHappens(t: Tenant, h: Home, l: Local, e: Happening)
    requires Sound(t, h, l)
    requires e.NamespaceActivates? || e.JobSucceeds? || e.DatabaseApplied? || e.ReplicasMove?
    ensures Kept(t, h, Outside(t, h, l, e))
  {
    var w := Outside(t, h, l, e);
    PutBack(h, w.slot);
    if w.slot in h && Put(h, w.slot, w.obj) != h {
      assert Fits(w.slot, h[w.slot]);
      OwnedFieldKeeps(t, h, l, w.slot.target, w.obj.value);
    }
  }

  lemma TerminationHappens(t: Tenant, h: Home, l: Local, e: Happening)
    requires Sound(t, h, l) && (e.Sweep? || e.NamespaceGone?)
    ensures Kept(t, h, Outside(t, h, l, e))
  {
    var w := Outside(t, h, l, e);
    PutBack(h, w.slot);
    if Put(h, w.slot, w.obj) != h {
      assert !Live(h, l);
      RemoveKeeps(t, h, w.slot.target);
    }
  }

  lemma ScheduleHappens(t: Tenant, h: Home, l: Local, e: Happening)
    requires Sound(t, h, l) && (e.PassStart? || e.Crash?)
    ensures Kept(t, h, Outside(t, h, l, e))
  {
    PutBack(h, Claim);
  }

  /** The user changes the custom resource; children are untouched. */
  lemma ClaimChanged(t: Tenant, h: Home, cr: TenantCR)
    requires Typed(h) && Agreed(t, h)
    ensures var h' := h[Claim := ClaimObj(cr)];
            Typed(h') && Agreed(t, h') && (Gated(h) ==> Gated(h'))
  {
    var h' := h[Claim := ClaimObj(cr)];
    assert forall x: Target :: (Child(x) in h' <==> Child(x) in h) && (Child(x) in h ==> h'[Child(x)] == h[Child(x)]);
    if Child(TJwt) in h && Child(TCreds) in h { assert Stored(t, h') == Stored(t, h); }
  }

  lemma ClaimRemembered(t: Tenant, h: Home, l: Local, cr: TenantCR)
    requires Memory(t, h, l) && Typed(h)
    requires Claim in h && cr.finalizer == h[Claim].cr.finalizer && (h[Claim].cr.deleting ==> cr.deleting)
    ensures Memory(t, h[Claim := ClaimObj(cr)], l)
  {
  }

  lemma UserEditsHappens(t: Tenant, h: Home, l: Local, e: Happening)
    requires Sound(t, h, l) && e.UserEdits?
    ensures Kept(t, h, Outside(t, h, l, e))
  {
    PutBack(h, Claim);
    if Claim in h {
      assert Fits(Claim, h[Claim]);
      var cr := h[Claim].cr.(spec := e.spec, generation := h[Claim].cr.generation + 1);
      ClaimChanged(t, h, cr);
      ClaimRemembered(t, h, l, cr);
    }
  }

  lemma UserDeletesHappens(t: Tenant, h: Home, l: Local, e: Happening)
    requires Sound(t, h, l) && e.UserDeletes?
    ensures Kept(t, h, Outside(t, h, l, e))
  {
    if Claim in h {
      assert Fits(Claim, h[Claim]);
      if h[Claim].cr.finalizer {
        var cr := h[Claim].cr.(deleting := true);
        ClaimChanged(t, h, cr);
        ClaimRemembered(t, h, l, cr);
      } else {
        ClaimRemoved(t, h);
        assert !Working(l) && !Ending(l);
      }
    } else {
      assert h - {Claim} == h;
    }
  }

  lemma UserCreatesHappens(t: Tenant, h: Home, l: Local, e: Happening)
    requires Sound(t, h, l) && e.UserCreates? && (Claim !in h ==> Gated(h))
    ensures Kept(t, h, Outside(t, h, l, e))
  {
    PutBack(h, Claim);
    if Claim !in h {
      var cr := TenantCR(e.spec, 1, false, false, BLANK_STATUS);
      ClaimChanged(t, h, cr);
    }
  }

  /** Whatever happens to a tenant next, the invariant survives it, as long as a tenant is created again only
      over leftovers that are in order: nothing without what it needs, no workload without a finished job, and
      no namespace on its way out. */
  lemma HappeningKeepsSound(t: Tenant, h: Home, l: Local, e: Happening)
    requires Sound(t, h, l) && (e.UserCreates? && Claim !in h ==> Gated(h))
    ensures Kept(t, h, Happens(t, h, l, e))
  {
    match e
    case PassStep(k) =>
      if Running(l) { StepKeepsSound(t, h, l, k); } else { PutBack(h, Claim); }
    case PassStart => ScheduleHappens(t, h, l, e);
    case Crash => ScheduleHappens(t, h, l, e);
    case UserCreates(_) => UserCreatesHappens(t, h, l, e);
    case UserEdits(_) => UserEditsHappens(t, h, l, e);
    case UserDeletes => UserDeletesHappens(t, h, l, e);
    case Sweep(_) => TerminationHappens(t, h, l, e);
    case NamespaceGone => TerminationHappens(t, h, l, e);
    case _ => FieldHappens(t, h, l, e);
  }
}
