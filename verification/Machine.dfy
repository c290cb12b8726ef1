/** One reconcile pass over a tenant, as a state machine that makes one API call per step.

    `NextOp` says which call a pass makes at each point and `Resume` how it goes on after the answer.
    A pass sees the cluster through its slots only (`Home`); `Names` relates slots to object names. */
module Machine {
  import opened Options
  import opened Objects
  import opened Tenants
  import Credentials

  type Home = map<Slot, Obj>

  ghost function At(h: Home, s: Slot): Option<Obj> {
    if s in h then Some(h[s]) else None
  }

  ghost function Put(h: Home, s: Slot, o: Option<Obj>): Home {
    if o.Some? then h[s := o.value] else h - {s}
  }

  /** Whether the namespace that is to hold an object exists and is not on its way out. */
  ghost predicate OpenAt(holder: Option<Obj>) {
    holder.Some? && holder.value.NamespaceObj? && holder.value.phase != Terminating
  }

  ghost predicate Open(h: Home, s: Slot) {
    HolderOf(s).None? || OpenAt(At(h, HolderOf(s).value))
  }

  // ---------------------------------------------------------------- points of a pass

  datatype Act = Look | Add | Fix

  /** How a pass ends: the delay before the next one (0 for none), an immediate requeue, or an error. */
  datatype Outcome = Outcome(after: nat, again: bool, failed: bool)

  datatype PC =
    | ReadClaim                      // read the custom resource
    | PutFinalizer
    | ReadParent
    | ReportLost                     // the parent could not be read
    | Ensure(target: Target, act: Act)
    | Check(target: Target)          // healthcheck read
    | Quiesce(svc: Svc, act: Act)    // suspended: scale to zero
    | Unroute(act: Act)              // suspended: delete the route
    | Park                           // a prerequisite is not ready: write status and leave
    | Report                         // final status
    | MarkDeleting
    | ReadParentToo                  // the parent, during finalization
    | Drop(target: Target, act: Act)
    | Release(forced: bool)          // remove the finalizer
    | Stop(outcome: Outcome)

  /** The memory of a pass. `skipped` records that finalization passed over an object it could not read. */
  datatype Local =
    | Idle
    | Pass(pc: PC, cr: TenantCR, parent: Parent, jwt: Credentials.Data, creds: Credentials.Data,
           status: Status, servicesReady: bool, skipped: bool)

  const BLANK_STATUS := Status(NoPhase, [], "", "", 0)
  const BLANK_CR := TenantCR(Spec(false, Small, ""), 0, false, false, BLANK_STATUS)

  ghost function Begin(): Local {
    Pass(ReadClaim, BLANK_CR, Parent("", ""), map[], map[], BLANK_STATUS, true, false)
  }

  ghost predicate Running(l: Local) {
    l.Pass? && !l.pc.Stop?
  }

  ghost function ContextFor(t: Tenant, l: Local): Context
    requires l.Pass?
  {
    ContextOf(t.crypto, l.jwt, l.creds)
  }

  ghost function DataFor(l: Local, x: Target): Credentials.Data
    requires l.Pass?
  {
    if x.TJwt? then l.jwt else if x.TCreds? then l.creds else map[]
  }

  ghost function DesiredBy(t: Tenant, l: Local, x: Target): Obj
    requires l.Pass?
  {
    Desired(t, l.cr.spec, l.parent, ContextFor(t, l), DataFor(l, x), x)
  }

  // ---------------------------------------------------------------- the call at each point

  ghost function NextOp(t: Tenant, l: Local): Op
    requires Running(l)
  {
    match l.pc
    case ReadClaim => Op(Claim, Get)
    case PutFinalizer => Op(Claim, Update(l.cr, true))
    case ReadParent => Op(ParentSlot, Get)
    case ReportLost => Op(Claim, PatchStatus(l.status))
    case Ensure(x, Look) => Op(Child(x), Get)
    case Ensure(x, Add) => Op(Child(x), Create(DesiredBy(t, l, x)))
    case Ensure(x, Fix) =>
      if Mended(x) then Op(Child(x), Verb.Patch(Mending(t, l.cr.spec, l.parent, ContextFor(t, l), x)))
      else Op(Child(x), Get)
    case Check(x) => Op(Child(x), Get)
    case Quiesce(svc, act) => if act.Look? then Op(Child(TDeploy(svc)), Get) else Op(Child(TDeploy(svc)), Verb.Patch(Scale(0)))
    case Unroute(act) => if act.Look? then Op(Child(TRoute), Get) else Op(Child(TRoute), Delete)
    case Park => Op(Claim, PatchStatus(l.status))
    case Report => Op(Claim, PatchStatus(l.status))
    case MarkDeleting => Op(Claim, PatchStatus(l.status))
    case ReadParentToo => Op(ParentSlot, Get)
    case Drop(x, act) => if act.Look? then Op(Child(x), Get) else Op(Child(x), Delete)
    case Release(_) => Op(Claim, Update(l.cr, false))
  }

  // ---------------------------------------------------------------- conditions

  datatype Verdict = Healthy | Unhealthy | ReconcileFailed | HealthcheckFailed

  function ReasonOf(v: Verdict): Reason {
    match v
    case Healthy => IsReady
    case Unhealthy => NotReady
    case ReconcileFailed => ReconcileError
    case HealthcheckFailed => HealthcheckError
  }

  /** Replaces the condition of the same kind where it stands, or appends a new one. */
  function SetCondition(cs: seq<Condition>, c: Condition): seq<Condition> {
    if |cs| == 0 then [c]
    else if cs[0].kind == c.kind then [c] + cs[1..]
    else [cs[0]] + SetCondition(cs[1..], c)
  }

  // ---------------------------------------------------------------- moving on

  function After(n: nat): PC { Stop(Outcome(n, false, false)) }
  function Error(): PC { Stop(Outcome(0, false, true)) }
  function Nothing(): PC { Stop(Outcome(0, false, false)) }

  function ComponentOf(x: Target): Component {
    match x
    case TNamespace => CNamespace
    case TPolicy => CNamespace
    case TJwt => CSecrets
    case TCreds => CSecrets
    case TDatabase => CDatabase
    case TJob => CDatabase
    case TDeploy(svc) => CService(svc)
    case TService(svc) => CService(svc)
    case TRoute => CRouting
  }

  /** Where the reconciliation of a component begins. */
  function StartOf(c: Component, suspended: bool): PC {
    match c
    case CNamespace => Ensure(TNamespace, Look)
    case CSecrets => Ensure(TJwt, Look)
    case CDatabase => Ensure(TDatabase, Look)
    case CService(svc) => if suspended then Quiesce(svc, Look) else Ensure(TDeploy(svc), Look)
    case CRouting => if suspended then Unroute(Look) else Ensure(TRoute, Look)
  }

  function NextComponent(c: Component): Component {
    match c
    case CNamespace => CSecrets
    case CSecrets => CDatabase
    case CDatabase => CService(Auth)
    case CService(Auth) => CService(Rest)
    case CService(Rest) => CService(Realtime)
    case CService(Realtime) => CService(Storage)
    case CService(Storage) => CService(Functions)
    case CService(Functions) => CRouting
    case CRouting => CRouting
  }

  function Recorded(l: Local, c: Component, v: Verdict): (m: Local)
    requires l.Pass?
    ensures m.Pass?
  {
    l.(status := l.status.(conditions :=
      SetCondition(l.status.conditions, Condition(Of(c), v.Healthy?, ReasonOf(v), l.cr.generation))))
  }

  function Parked(l: Local): (m: Local)
    requires l.Pass?
    ensures m.Pass?
  {
    l.(pc := Park, status := l.status.(phase := Provisioning, observed := l.cr.generation))
  }

  function Reported(t: Tenant, l: Local, routed: bool): (m: Local)
    requires l.Pass?
    ensures m.Pass?
  {
    var phase := if l.cr.spec.suspended then Suspended else if l.servicesReady && routed then Ready else Provisioning;
    l.(pc := Report, status := l.status.(phase := phase, namespace := NamespaceName(t),
                                         endpoint := Endpoint(t, l.parent), observed := l.cr.generation))
  }

  /** A component is done: record its condition, then go on to the next one, or give up the pass when a
      prerequisite is not ready. Services do not stop each other. */
  function Conclude(t: Tenant, l: Local, c: Component, v: Verdict): (m: Local)
    requires l.Pass?
    ensures m.Pass?
  {
    var r := Recorded(l, c, v);
    match c
    case CRouting => Reported(t, r, v.Healthy?)
    case CService(_) => r.(servicesReady := l.servicesReady && v.Healthy?, pc := StartOf(NextComponent(c), l.cr.spec.suspended))
    case _ => if v.Healthy? then r.(pc := StartOf(NextComponent(c), l.cr.spec.suspended)) else Parked(r)
  }

  /** The point after an object is in place. */
  function AfterEnsure(x: Target): PC {
    match x
    case TNamespace => Ensure(TPolicy, Look)
    case TPolicy => Check(TNamespace)
    case TJwt => Ensure(TCreds, Look)
    case TCreds => Check(TJwt)
    case TDatabase => Ensure(TJob, Look)
    case TJob => Check(TDatabase)
    case TDeploy(svc) => Ensure(TService(svc), Look)
    case TService(svc) => Check(TDeploy(svc))
    case TRoute => Check(TRoute)
  }

  function SecretData(o: Obj): Credentials.Data { if o.SecretObj? then o.data else map[] }

  /** Takes the contents of a secret that exists, or has just been created, into the pass. */
  function Learn(l: Local, x: Target, o: Obj): (m: Local)
    requires l.Pass?
    ensures m.Pass?
  {
    if x.TJwt? then l.(jwt := SecretData(o)) else if x.TCreds? then l.(creds := SecretData(o)) else l
  }

  /** Draws the contents of a secret that does not exist yet. */
  function Drawn(t: Tenant, l: Local, x: Target, luck: Luck): (m: Local)
    requires l.Pass?
    ensures m.Pass?
  {
    if x.TJwt? then l.(jwt := JwtData(t.crypto, luck)) else if x.TCreds? then l.(creds := CredsData(luck)) else l
  }

  function AfterLook(t: Tenant, l: Local, x: Target, r: Resp, luck: Luck): (m: Local)
    requires l.Pass?
    ensures m.Pass?
  {
    match r
    case Failed => Conclude(t, l, ComponentOf(x), ReconcileFailed)
    case NotFound =>
      if (x.TJwt? || x.TCreds?) && !luck.drawn then Conclude(t, l, ComponentOf(x), ReconcileFailed)
      else var d := Drawn(t, l, x, luck); d.(pc := Ensure(x, Add))
    case Ok(o) => if Mended(x) then l.(pc := Ensure(x, Fix)) else Learn(l, x, o).(pc := AfterEnsure(x))
  }

  function AfterWrite(t: Tenant, l: Local, x: Target, r: Resp): (m: Local)
    requires l.Pass?
    ensures m.Pass?
  {
    if r.Ok? then l.(pc := AfterEnsure(x)) else Conclude(t, l, ComponentOf(x), ReconcileFailed)
  }

  predicate ReplicasReady(o: Obj) {
    o.DeploymentObj? && o.ready >= 1 && o.ready == o.deployment.replicas
  }

  /** A healthcheck read came back with the object. `None` means that the check goes on to another object. */
  function Examine(x: Target, o: Obj): Option<Verdict> {
    match x
    case TNamespace => Some(if o.NamespaceObj? && o.phase.Active? then Healthy else Unhealthy)
    case TJwt => None
    case TDatabase => if o.DatabaseObj? && o.applied == Some(false) then Some(Unhealthy) else None
    case TJob => Some(if o.JobObj? && o.succeeded > 0 then Healthy else Unhealthy)
    case TDeploy(_) => Some(if ReplicasReady(o) then Healthy else Unhealthy)
    case _ => Some(Healthy)
  }

  function AfterCheck(t: Tenant, l: Local, x: Target, r: Resp): (m: Local)
    requires l.Pass?
    ensures m.Pass?
  {
    match r
    case Failed => Conclude(t, l, ComponentOf(x), HealthcheckFailed)
    case NotFound => Conclude(t, l, ComponentOf(x), Unhealthy)
    case Ok(o) =>
      match Examine(x, o)
      case Some(v) => Conclude(t, l, ComponentOf(x), v)
      case None => l.(pc := Check(if x.TJwt? then TCreds else TJob))
  }

  /** The four ways in which a check goes on. */
  lemma CheckMoves(t: Tenant, l: Local, x: Target, r: Resp)
    requires l.Pass?
    ensures var m, c := AfterCheck(t, l, x, r), ComponentOf(x);
      || m == Conclude(t, l, c, HealthcheckFailed) || m == Conclude(t, l, c, Unhealthy)
      || (m == Conclude(t, l, c, Healthy) && r.Ok?)
      || (r.Ok? && x.TJwt? && m == l.(pc := Check(TCreds))) || (r.Ok? && x.TDatabase? && m == l.(pc := Check(TJob)))
  {
  }

  /** Finalization order: route, database, init job, namespace, then the finalizer. */
  function AfterDrop(x: Target): PC {
    match x
    case TRoute => Drop(TDatabase, Look)
    case TDatabase => Drop(TJob, Look)
    case TJob => Drop(TNamespace, Look)
    case _ => Release(false)
  }

  /** A read error on the database or its job counts as "nothing to delete". */
  predicate ErrorMeansGone(x: Target) {
    x.TDatabase? || x.TJob?
  }

  function AfterClaim(l: Local, r: Resp): (m: Local)
    requires l.Pass?
    ensures m.Pass?
  {
    match r
    case NotFound => l.(pc := Nothing())
    case Failed => l.(pc := Error())
    case Ok(o) =>
      var cr := if o.ClaimObj? then o.cr else BLANK_CR;
      var m := l.(cr := cr, status := cr.status);
      if cr.deleting then
        if cr.finalizer then m.(pc := MarkDeleting, status := cr.status.(phase := Deleting)) else m.(pc := Nothing())
      else m.(pc := if cr.finalizer then ReadParent else PutFinalizer)
  }

  function Lost(l: Local): (m: Local)
    requires l.Pass?
    ensures m.Pass?
  {
    l.(pc := ReportLost, status := l.status.(phase := ErrorPhase,
       conditions := SetCondition(l.status.conditions, Condition(Overall, false, SupabaseRefNotFound, l.cr.generation))))
  }

  ghost function Resume(t: Tenant, l: Local, r: Resp, luck: Luck): (m: Local)
    requires Running(l)
    ensures m.Pass?
  {
    match l.pc
    case ReadClaim => AfterClaim(l, r)
    case PutFinalizer => l.(pc := if r.Ok? then Stop(Outcome(0, true, false)) else Error())
    case ReadParent =>
      if r.Ok? then l.(pc := StartOf(CNamespace, l.cr.spec.suspended), parent := if r.obj.ParentObj? then r.obj.parent else l.parent)
      else Lost(l)
    case ReportLost => l.(pc := After(15))
    case Ensure(x, Look) => AfterLook(t, l, x, r, luck)
    case Ensure(x, _) => AfterWrite(t, l, x, r)
    case Check(x) => AfterCheck(t, l, x, r)
    case Quiesce(svc, act) =>
      if act.Look? then
        if r.Ok? then l.(pc := Quiesce(svc, Fix)) else Conclude(t, l, CService(svc), Healthy)
      else Conclude(t, l, CService(svc), if r.Ok? then Healthy else ReconcileFailed)
    case Unroute(act) =>
      if act.Look? then
        match r {
          case Ok(_) => l.(pc := Unroute(Fix))
          case NotFound => Conclude(t, l, CRouting, Healthy)
          case Failed => Conclude(t, l, CRouting, ReconcileFailed)
        }
      else Conclude(t, l, CRouting, if r.Ok? then Healthy else ReconcileFailed)
    case Park => l.(pc := After(10))
    case Report => l.(pc := if !r.Ok? then Error() else if l.status.phase.Ready? then After(300) else After(15))
    case MarkDeleting =>
      l.(pc := ReadParentToo, cr := if r.Ok? && r.obj.ClaimObj? then r.obj.cr else l.cr)
    case ReadParentToo => l.(pc := if r.Ok? then Drop(TRoute, Look) else Release(true))
    case Drop(x, act) =>
      if act.Look? then
        match r {
          case Ok(_) => l.(pc := Drop(x, Fix))
          case NotFound => l.(pc := AfterDrop(x))
          case Failed => if ErrorMeansGone(x) then l.(pc := AfterDrop(x), skipped := true) else l.(pc := After(10))
        }
      else l.(pc := if r.Ok? then AfterDrop(x) else After(10))
    case Release(_) => l.(pc := if r.Ok? then Nothing() else Error())
  }

  // ---------------------------------------------------------------- one step

  datatype Tick = Tick(fault: Fault, luck: Luck)

  /** A step, as the slot it writes, what it leaves there, and how the pass goes on. */
  datatype Write = Write(slot: Slot, obj: Option<Obj>, local: Local)

  ghost function Step(t: Tenant, h: Home, l: Local, k: Tick): Write
    requires Running(l)
  {
    var op := NextOp(t, l);
    var (o, r) := Serve(At(h, op.slot), Open(h, op.slot), op.verb, k.fault);
    Write(op.slot, o, Resume(t, l, r, k.luck))
  }

  // ---------------------------------------------------------------- every pass ends

  function Base(c: Component): nat {
    match c
    case CNamespace => 100
    case CSecrets => 90
    case CDatabase => 80
    case CService(Auth) => 70
    case CService(Rest) => 60
    case CService(Realtime) => 50
    case CService(Storage) => 40
    case CService(Functions) => 30
    case CRouting => 20
  }

  function Within(x: Target): nat {
    if x.TNamespace? || x.TJwt? || x.TDatabase? || x.TDeploy? then 3 else 1
  }

  /** How many calls a pass can still make, at most. */
  function Rank(pc: PC): nat {
    match pc
    case ReadClaim => 112
    case PutFinalizer => 1
    case ReadParent => 111
    case ReportLost => 1
    case Ensure(x, act) => Base(ComponentOf(x)) + 3 + Within(x) + (if act.Look? then 1 else 0)
    case Check(x) => Base(ComponentOf(x)) + (if x.TJwt? || x.TDatabase? then 2 else 1)
    case Quiesce(svc, act) => Base(CService(svc)) + (if act.Look? then 2 else 1)
    case Unroute(act) => Base(CRouting) + (if act.Look? then 2 else 1)
    case Park => 1
    case Report => 1
    case MarkDeleting => 11
    case ReadParentToo => 10
    case Drop(x, act) =>
      (if x.TRoute? then 8 else if x.TDatabase? then 6 else if x.TJob? then 4 else 2) + (if act.Look? then 1 else 0)
    case Release(_) => 1
    case Stop(_) => 0
  }

  lemma ConcludeDescends(t: Tenant, l: Local, c: Component, v: Verdict)
    requires l.Pass?
    ensures Rank(Conclude(t, l, c, v).pc) <= Base(c)
  {
  }

  lemma AfterLookDescends(t: Tenant, l: Local, x: Target, r: Resp, luck: Luck)
    requires l.Pass?
    ensures Rank(AfterLook(t, l, x, r, luck).pc) < Rank(Ensure(x, Look))
  {
    ConcludeDescends(t, l, ComponentOf(x), ReconcileFailed);
  }

  lemma AfterCheckDescends(t: Tenant, l: Local, x: Target, r: Resp)
    requires l.Pass?
    ensures Rank(AfterCheck(t, l, x, r).pc) < Rank(Check(x))
  {
    ConcludeDescends(t, l, ComponentOf(x), HealthcheckFailed);
    ConcludeDescends(t, l, ComponentOf(x), Unhealthy);
    if r.Ok? && Examine(x, r.obj).Some? {
      ConcludeDescends(t, l, ComponentOf(x), Examine(x, r.obj).value);
    }
  }

  lemma AfterWriteDescends(t: Tenant, l: Local, x: Target, act: Act, r: Resp)
    requires l.Pass? && !act.Look?
    ensures Rank(AfterWrite(t, l, x, r).pc) < Rank(Ensure(x, act))
  {
    ConcludeDescends(t, l, ComponentOf(x), ReconcileFailed);
  }

  lemma SuspendedDescends(t: Tenant, l: Local, r: Resp, luck: Luck)
    requires Running(l) && (l.pc.Quiesce? || l.pc.Unroute?)
    ensures Rank(Resume(t, l, r, luck).pc) < Rank(l.pc)
  {
    var c := if l.pc.Quiesce? then CService(l.pc.svc) else CRouting;
    ConcludeDescends(t, l, c, Healthy);
    ConcludeDescends(t, l, c, ReconcileFailed);
  }

  lemma DropDescends(t: Tenant, l: Local, r: Resp, luck: Luck)
    requires Running(l) && l.pc.Drop?
    ensures Rank(Resume(t, l, r, luck).pc) < Rank(l.pc)
  {
    var x := l.pc.target;
    assert Rank(AfterDrop(x)) < Rank(Drop(x, Fix)) < Rank(Drop(x, Look));
  }

  lemma EndingDescends(t: Tenant, l: Local, r: Resp, luck: Luck)
    requires Running(l) && (l.pc.MarkDeleting? || l.pc.ReadParentToo? || l.pc.Release?)
    ensures Rank(Resume(t, l, r, luck).pc) < Rank(l.pc)
  {
  }

  lemma ResumeDescends(t: Tenant, l: Local, r: Resp, luck: Luck)
    requires Running(l)
    ensures Rank(Resume(t, l, r, luck).pc) < Rank(l.pc)
  {
    if l.pc.Ensure? {
      if l.pc.act.Look? { AfterLookDescends(t, l, l.pc.target, r, luck); }
      else { AfterWriteDescends(t, l, l.pc.target, l.pc.act, r); }
    } else if l.pc.Check? {
      AfterCheckDescends(t, l, l.pc.target, r);
    } else if l.pc.Quiesce? || l.pc.Unroute? {
      SuspendedDescends(t, l, r, luck);
    } else if l.pc.Drop? {
      DropDescends(t, l, r, luck);
    } else if l.pc.MarkDeleting? || l.pc.ReadParentToo? || l.pc.Release? {
      EndingDescends(t, l, r, luck);
    }
  }

  lemma RankBound(pc: PC)
    ensures Rank(pc) <= 112
  {
  }

  /** Every step brings a pass closer to its end, whatever the answers; a pass makes at most 112 calls. */
  lemma StepDescends(t: Tenant, h: Home, l: Local, k: Tick)
    requires Running(l)
    ensures Rank(Step(t, h, l, k).local.pc) < Rank(l.pc) <= 112
  {
    var op := NextOp(t, l);
    RankBound(l.pc);
    ResumeDescends(t, l, Serve(At(h, op.slot), Open(h, op.slot), op.verb, k.fault).1, k.luck);
  }
}
