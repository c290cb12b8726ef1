/** The API calls of a pass, one method for each use, with what each answer means for the way on. */
module Calls {
  import opened Options
  import opened Objects
  import opened Tenants
  import opened Machine
  import opened Runs
  import opened Sessions

  /** The same pass at another point. */
  ghost function To(l: Local, pc: PC): (m: Local)
    requires l.Pass?
    ensures m.Pass?
  {
    l.(pc := pc)
  }

  ghost predicate StandsAt(s: Session, pc: PC)
    reads s
  {
    s.Valid() && s.local.pc == pc && !pc.Stop?
  }

  ghost function Gone(t: Tenant, l: Local, x: Target): (m: Local)
    requires l.Pass?
    ensures m.Pass?
  {
    Conclude(t, l, ComponentOf(x), ReconcileFailed)
  }

  // ---------------------------------------------------------------- objects

  /** Objects that are created once and left alone. */
  predicate Plain(x: Target) { x.TNamespace? || x.TPolicy? || x.TDatabase? || x.TJob? }

  ghost function MendingBy(t: Tenant, l: Local, x: Target): Objects.Patch
    requires l.Pass? && Mended(x)
  {
    Mending(t, l.cr.spec, l.parent, ContextFor(t, l), x)
  }

  method LookUpPlain(s: Session, x: Target) returns (r: Resp)
    requires StandsAt(s, Ensure(x, Look)) && Plain(x)
    modifies s
    ensures s.Valid()
    ensures r.Failed? ==> s.local == Gone(s.t, old(s.local), x)
    ensures r.NotFound? ==> s.local == To(old(s.local), Ensure(x, Add))
    ensures r.Ok? ==> s.local == To(old(s.local), AfterEnsure(x))
  {
    r := s.Call(Op(Child(x), Get));
  }

  method LookUpMended(s: Session, x: Target) returns (r: Resp)
    requires StandsAt(s, Ensure(x, Look)) && Mended(x)
    modifies s
    ensures s.Valid()
    ensures r.Failed? ==> s.local == Gone(s.t, old(s.local), x)
    ensures r.NotFound? ==> s.local == To(old(s.local), Ensure(x, Add))
    ensures r.Ok? ==> s.local == To(old(s.local), Ensure(x, Fix))
  {
    r := s.Call(Op(Child(x), Get));
  }

  method CreateObject(s: Session, x: Target, o: Obj) returns (ok: bool)
    requires StandsAt(s, Ensure(x, Add)) && o == DesiredBy(s.t, s.local, x)
    modifies s
    ensures s.Valid()
    ensures s.local == if ok then To(old(s.local), AfterEnsure(x)) else Gone(s.t, old(s.local), x)
    ensures ok ==> Lookup(s.store, KeyOf(s.t, Child(x))) == Some(o)
  {
    var r := s.Call(Op(Child(x), Verb.Create(o)));
    ok := r.Ok?;
  }

  method PatchObject(s: Session, x: Target, p: Objects.Patch) returns (ok: bool)
    requires StandsAt(s, Ensure(x, Fix)) && Mended(x)
    requires p == MendingBy(s.t, s.local, x)
    modifies s
    ensures s.Valid()
    ensures s.local == if ok then To(old(s.local), AfterEnsure(x)) else Gone(s.t, old(s.local), x)
    ensures ok ==> exists cur :: Lookup(s.store, KeyOf(s.t, Child(x))) == Some(Patched(cur, p))
  {
    var r := s.Call(Op(Child(x), Verb.Patch(p)));
    ok := r.Ok?;
  }

  /** Whether a secret exists, with its contents; and what has been drawn in case it does not. */
  method LookUpSecret(s: Session, x: Target) returns (r: Resp, luck: Luck)
    requires StandsAt(s, Ensure(x, Look)) && (x.TJwt? || x.TCreds?)
    modifies s
    ensures s.Valid()
    ensures r.Failed? || (r.NotFound? && !luck.drawn) ==> s.local == Gone(s.t, old(s.local), x)
    ensures r.NotFound? && luck.drawn ==> s.local == To(Drawn(s.t, old(s.local), x, luck), Ensure(x, Add))
    ensures r.Ok? ==> s.local == To(Learn(old(s.local), x, r.obj), AfterEnsure(x))
  {
    luck := s.world.lucks(s.calls);
    r := s.Call(Op(Child(x), Get));
  }

  /** A read of a healthcheck. */
  method Inspect(s: Session, x: Target) returns (r: Resp)
    requires StandsAt(s, Check(x))
    modifies s
    ensures s.Valid()
    ensures r.Failed? ==> s.local == Conclude(s.t, old(s.local), ComponentOf(x), HealthcheckFailed)
    ensures r.NotFound? ==> s.local == Conclude(s.t, old(s.local), ComponentOf(x), Unhealthy)
    ensures r.Ok? && Examine(x, r.obj).Some? ==> s.local == Conclude(s.t, old(s.local), ComponentOf(x), Examine(x, r.obj).value)
    ensures r.Ok? && Examine(x, r.obj).None? ==> s.local == To(old(s.local), Check(if x.TJwt? then TCreds else TJob))
    ensures !r.Failed? ==> Lookup(s.store, KeyOf(s.t, Child(x))) == if r.Ok? then Some(r.obj) else None
  {
    r := s.Call(Op(Child(x), Get));
  }

  // ---------------------------------------------------------------- suspended

  method LookUpRunning(s: Session, svc: Svc) returns (found: bool)
    requires StandsAt(s, Quiesce(svc, Look))
    modifies s
    ensures s.Valid()
    ensures s.local == if found then To(old(s.local), Quiesce(svc, Fix)) else Conclude(s.t, old(s.local), CService(svc), Healthy)
  {
    var r := s.Call(Op(Child(TDeploy(svc)), Get));
    found := r.Ok?;
  }

  method ScaleToZero(s: Session, svc: Svc) returns (ok: bool)
    requires StandsAt(s, Quiesce(svc, Fix))
    modifies s
    ensures s.Valid()
    ensures s.local == Conclude(s.t, old(s.local), CService(svc), if ok then Healthy else ReconcileFailed)
  {
    var r := s.Call(Op(Child(TDeploy(svc)), Verb.Patch(Scale(0))));
    ok := r.Ok?;
  }

  method LookUpRoute(s: Session) returns (r: Resp)
    requires StandsAt(s, Unroute(Look))
    modifies s
    ensures s.Valid()
    ensures s.local == if r.Ok? then To(old(s.local), Unroute(Fix))
                       else Conclude(s.t, old(s.local), CRouting, if r.NotFound? then Healthy else ReconcileFailed)
  {
    r := s.Call(Op(Child(TRoute), Get));
  }

  method DeleteRoute(s: Session) returns (ok: bool)
    requires StandsAt(s, Unroute(Fix))
    modifies s
    ensures s.Valid()
    ensures s.local == Conclude(s.t, old(s.local), CRouting, if ok then Healthy else ReconcileFailed)
  {
    var r := s.Call(Op(Child(TRoute), Verb.Delete));
    ok := r.Ok?;
  }

  // ---------------------------------------------------------------- finalization

  method LookUpLeft(s: Session, x: Target) returns (r: Resp)
    requires StandsAt(s, Drop(x, Look))
    modifies s
    ensures s.Valid()
    ensures r.Ok? ==> s.local == To(old(s.local), Drop(x, Fix))
    ensures r.NotFound? ==> s.local == To(old(s.local), AfterDrop(x))
    ensures r.Failed? ==> s.local == if ErrorMeansGone(x) then To(old(s.local).(skipped := true), AfterDrop(x)) else To(old(s.local), After(10))
  {
    r := s.Call(Op(Child(x), Get));
  }

  method Remove(s: Session, x: Target) returns (ok: bool)
    requires StandsAt(s, Drop(x, Fix))
    modifies s
    ensures s.Valid()
    ensures s.local == To(old(s.local), if ok then AfterDrop(x) else After(10))
  {
    var r := s.Call(Op(Child(x), Verb.Delete));
    ok := r.Ok?;
  }

  // ---------------------------------------------------------------- the custom resource and its parent

  method ReadTenant(s: Session) returns (r: Resp)
    requires StandsAt(s, PC.ReadClaim)
    modifies s
    ensures s.Valid() && s.local == AfterClaim(old(s.local), r)
  {
    r := s.Call(Op(Claim, Get));
  }

  method AddFinalizer(s: Session, cr: TenantCR) returns (ok: bool)
    requires StandsAt(s, PutFinalizer) && cr == s.local.cr
    modifies s
    ensures s.Valid() && s.local == To(old(s.local), if ok then Stop(Outcome(0, true, false)) else Error())
  {
    var r := s.Call(Op(Claim, Update(cr, true)));
    ok := r.Ok?;
  }

  method RemoveFinalizer(s: Session, cr: TenantCR, forced: bool) returns (ok: bool)
    requires StandsAt(s, Release(forced)) && cr == s.local.cr
    modifies s
    ensures s.Valid() && s.local == To(old(s.local), if ok then Nothing() else Error())
  {
    var r := s.Call(Op(Claim, Update(cr, false)));
    ok := r.Ok?;
  }

  method ReadSupabase(s: Session) returns (r: Resp)
    requires StandsAt(s, ReadParent)
    modifies s
    ensures s.Valid()
    ensures s.local == if r.Ok? then To(old(s.local).(parent := if r.obj.ParentObj? then r.obj.parent else old(s.local).parent), Ensure(TNamespace, Look))
                       else Lost(old(s.local))
  {
    r := s.Call(Op(ParentSlot, Get));
  }

  method ReadSupabaseAgain(s: Session) returns (ok: bool)
    requires StandsAt(s, ReadParentToo)
    modifies s
    ensures s.Valid() && s.local == To(old(s.local), if ok then Drop(TRoute, Look) else Release(true))
  {
    var r := s.Call(Op(ParentSlot, Get));
    ok := r.Ok?;
  }

  /** A final status, of which only the last kind has its failure noticed. */
  method WriteStatus(s: Session, st: Status) returns (ok: bool)
    requires s.Valid() && (s.local.pc.ReportLost? || s.local.pc.Park? || s.local.pc.Report?) && st == s.local.status
    modifies s
    ensures s.Valid()
    ensures s.local == To(old(s.local), if old(s.local).pc.ReportLost? then After(15) else if old(s.local).pc.Park? then After(10)
                                        else if !ok then Error() else if st.phase.Ready? then After(300) else After(15))
  {
    var r := s.Call(Op(Claim, Verb.PatchStatus(st)));
    ok := r.Ok?;
  }

  /** The status of a tenant that is on its way out; the answer refreshes the resource in memory. */
  method WriteDeleting(s: Session, cr: TenantCR, st: Status) returns (current: TenantCR)
    requires StandsAt(s, MarkDeleting) && st == s.local.status && cr == s.local.cr
    modifies s
    ensures s.Valid() && s.local == To(old(s.local).(cr := current), ReadParentToo)
  {
    var r := s.Call(Op(Claim, Verb.PatchStatus(st)));
    current := if r.Ok? && r.obj.ClaimObj? then r.obj.cr else cr;
  }
}
