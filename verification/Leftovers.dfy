/** A tenant created again while something of an earlier one of the same name is left: which leftovers are
    harmless, and what holds until the old namespace is gone. */
module Leftovers {
  import opened Options
  import opened Objects
  import opened Tenants
  import opened Machine
  import opened Safety
  import opened Orders

  /** Neither the init job nor the route, which outlive the namespace, is left. */
  ghost predicate NoneOutside(h: Home) {
    Child(TJob) !in h && Child(TRoute) !in h
  }

  /** The old namespace is on its way out, and takes every workload with it that is left. */
  ghost predicate Closing(h: Home) {
    Doomed(h) && NoneOutside(h)
  }

  /** What a user can check before creating the tenant again: the leftovers are in order - a workload or the
      route only with everything it needs, an init job only with both secrets, and no namespace on its way
      out - or a terminating namespace takes all of that with it. A database may be left in any case. */
  ghost predicate Recreatable(h: Home) {
    Gated(h) || Closing(h)
  }

  /** No deployment, service or route stands. */
  ghost predicate Vacant(h: Home) {
    forall x: Target :: Mended(x) ==> Child(x) !in h
  }

  /** Points at which a pass has not yet seen an active namespace. */
  predicate Early(pc: PC) {
    match pc
    case Ensure(x, _) => x.TNamespace? || x.TPolicy?
    case Check(x) => x.TNamespace?
    case ReadParent => true
    case ReportLost => true
    case Park => true
    case _ => false
  }

  /** The old namespace is closing, or gone with everything in it, and no pass has got past it. */
  ghost predicate Waning(t: Tenant, h: Home, l: Local) {
    && Orderly(h, l) && Agreed(t, h) && NoneOutside(h)
    && (if Child(TNamespace) in h then Doomed(h) else Emptied(h))
    && (Working(l) ==> Early(l.pc))
  }

  ghost predicate Secure(t: Tenant, h: Home, l: Local) {
    Sound(t, h, l) || Waning(t, h, l)
  }

  // ---------------------------------------------------------------- a pass over a closing namespace

  /** A move of the pass that leaves the children alone and does not get past the namespace. */
  lemma WaningMove(t: Tenant, h: Home, h': Home, l: Local, m: Local)
    requires Waning(t, h, l) && SameChildren(h, h') && Orderly(h', m) && (Working(m) ==> Early(m.pc))
    ensures Waning(t, h', m)
  {
    SameAgreed(t, h, h');
    SameGated(h, h');
    forall x: Target ensures Child(x) in h' <==> Child(x) in h { SameStands(h, h', x); }
  }

  /** A look at namespace or policy, or a failed creation, leads to an early point. */
  lemma EarlyGoesOn(t: Tenant, l: Local, x: Target, r: Resp, luck: Luck)
    requires l.Pass? && (x.TNamespace? || x.TPolicy?)
    ensures Early(AfterLook(t, l, x, r, luck).pc) && Early(AfterWrite(t, l, x, r).pc)
  {
  }

  lemma EarlyLook(t: Tenant, h: Home, l: Local, k: Tick)
    requires Waning(t, h, l) && Working(l) && l.pc.Ensure? && l.pc.act.Look?
    ensures var w := Step(t, h, l, k); Put(h, w.slot, w.obj) == h && Early(w.local.pc)
  {
    LookStep(t, h, l, k);
    var s := Child(l.pc.target);
    EarlyGoesOn(t, l, l.pc.target, Serve(At(h, s), Open(h, s), Get, k.fault).1, k.luck);
  }

  /** A closing namespace is never found active. */
  lemma EarlyCheck(t: Tenant, h: Home, l: Local, k: Tick)
    requires Waning(t, h, l) && Working(l) && l.pc.Check?
    ensures var w := Step(t, h, l, k); Put(h, w.slot, w.obj) == h && Early(w.local.pc)
  {
    LookStep(t, h, l, k);
    NotActive(t, l, At(h, Child(TNamespace)), k);
    if Child(TNamespace) in h { assert Fits(Child(TNamespace), h[Child(TNamespace)]); }
  }

  lemma NotActive(t: Tenant, l: Local, cur: Option<Obj>, k: Tick)
    requires l.Pass? && (cur.Some? ==> cur.value.NamespaceObj? && !cur.value.phase.Active?)
    ensures forall open :: Early(AfterCheck(t, l, TNamespace, Serve(cur, open, Get, k.fault).1).pc)
  {
  }

  /** A namespace is created anew only where nothing is left; from then on the whole invariant holds. */
  lemma AnewSound(t: Tenant, h: Home, l: Local, r: Resp)
    requires Waning(t, h, l) && l.Pass? && l.pc == Ensure(TNamespace, Add) && Child(TNamespace) !in h && !r.NotFound?
    ensures var h' := h[Child(TNamespace) := DesiredBy(t, l, TNamespace)]; Sound(t, h', AfterWrite(t, l, TNamespace, r))
  {
    var d := DesiredBy(t, l, TNamespace);
    var h' := h[Child(TNamespace) := d];
    DesiredFits(t, l, TNamespace);
    TypedPut(h, Child(TNamespace), d);
    AgreedPut(t, h, TNamespace, d);
    EmptiedGated(h);
    GatedAdd(h, TNamespace, d);
    AnewMemory(t, h', l, r);
  }

  lemma EmptiedGated(h: Home)
    requires Emptied(h) && NoneOutside(h) && Child(TNamespace) !in h
    ensures Gated(h)
  {
    assert forall x: Target :: Inside(x) || x.TNamespace? || x.TDatabase? || x.TJob? || x.TRoute?;
  }

  lemma AnewMemory(t: Tenant, h: Home, l: Local, r: Resp)
    requires l.Pass? && l.pc == Ensure(TNamespace, Add) && Registered(h, l) && Child(TNamespace) in h
    ensures Memory(t, h, AfterWrite(t, l, TNamespace, r))
  {
  }

  lemma EarlyAdd(t: Tenant, h: Home, l: Local, k: Tick)
    requires Waning(t, h, l) && Working(l) && l.pc.Ensure? && l.pc.act.Add?
    ensures var w := Step(t, h, l, k); Secure(t, Put(h, w.slot, w.obj), w.local)
  {
    var x, w := l.pc.target, Step(t, h, l, k);
    var h' := Put(h, w.slot, w.obj);
    AddStep(t, h, l, k);
    StepKeepsOrderly(t, h, l, k);
    EarlyGoesOn(t, l, x, Failed, k.luck);
    EarlyGoesOn(t, l, x, Ok(DesiredBy(t, l, x)), k.luck);
    if h' == h {
      WaningMove(t, h, h', l, w.local);
    } else {
      ClosedToPolicy(t, h, l, k);
      AnewSound(t, h, l, Failed);
      AnewSound(t, h, l, Ok(DesiredBy(t, l, x)));
    }
  }

  lemma ClosedToPolicy(t: Tenant, h: Home, l: Local, k: Tick)
    requires Waning(t, h, l) && Working(l) && l.pc.Ensure? && l.pc.act.Add?
    requires var w := Step(t, h, l, k); Put(h, w.slot, w.obj) != h
    ensures l.pc.target == TNamespace
  {
    PutBack(h, Child(l.pc.target));
  }

  lemma EarlyRest(t: Tenant, h: Home, l: Local, k: Tick)
    requires Waning(t, h, l) && Running(l) && (l.pc.ReadParent? || l.pc.ReportLost? || l.pc.Park?)
    ensures var w := Step(t, h, l, k); SameChildren(h, Put(h, w.slot, w.obj)) && (Working(w.local) ==> Early(w.local.pc))
  {
    if l.pc.ReadParent? { ReadStep(t, h, l, k); } else { StatusStep(t, h, l, k); }
  }

  lemma WorkingWaning(t: Tenant, h: Home, l: Local, k: Tick)
    requires Waning(t, h, l) && Working(l)
    ensures var w := Step(t, h, l, k); Secure(t, Put(h, w.slot, w.obj), w.local)
  {
    var w := Step(t, h, l, k);
    if l.pc.Ensure? && l.pc.act.Add? {
      EarlyAdd(t, h, l, k);
    } else {
      if l.pc.Ensure? { NoFixEarly(h, l); EarlyLook(t, h, l, k); }
      else if l.pc.Check? { EarlyCheck(t, h, l, k); }
      else { EarlyRest(t, h, l, k); }
      StepKeepsOrderly(t, h, l, k);
      WaningMove(t, h, Put(h, w.slot, w.obj), l, w.local);
    }
  }

  lemma NoFixEarly(h: Home, l: Local)
    requires Registered(h, l) && Working(l) && l.pc.Ensure? && Early(l.pc)
    ensures !l.pc.act.Fix?
  {
    assert l.pc == Ensure(l.pc.target, l.pc.act);
  }

  // ---------------------------------------------------------------- passes that do not build

  lemma DropWaning(t: Tenant, h: Home, l: Local, k: Tick)
    requires Waning(t, h, l) && Running(l) && l.pc.Drop?
    ensures var w := Step(t, h, l, k); Waning(t, Put(h, w.slot, w.obj), w.local)
  {
    var x, w := l.pc.target, Step(t, h, l, k);
    var h' := Put(h, w.slot, w.obj);
    DropStep(t, h, l, k);
    StepKeepsOrderly(t, h, l, k);
    DropKeeps(t, h, x, h');
    if x.TNamespace? { NamespaceStays(t, h, l, k); }
  }

  lemma NamespaceStays(t: Tenant, h: Home, l: Local, k: Tick)
    requires Typed(h) && Running(l) && l.pc.Drop? && l.pc.target.TNamespace? && (Child(TNamespace) in h ==> Doomed(h))
    ensures var w := Step(t, h, l, k); Put(h, w.slot, w.obj) == h
  {
    PutBack(h, Child(TNamespace));
    if Child(TNamespace) in h { assert Fits(Child(TNamespace), h[Child(TNamespace)]); }
  }

  lemma ClaimCalls(t: Tenant, h: Home, l: Local, k: Tick)
    requires Orderly(h, l) && Running(l)
    requires l.pc.ReadClaim? || l.pc.PutFinalizer? || l.pc.MarkDeleting? || l.pc.ReadParentToo? || l.pc.Release?
    ensures var w := Step(t, h, l, k); SameChildren(h, Put(h, w.slot, w.obj)) && (Working(w.local) ==> Early(w.local.pc))
  {
    if l.pc.ReadClaim? { ReadStep(t, h, l, k); }
    else if l.pc.PutFinalizer? { FinalizerStep(t, h, l, k); }
    else if l.pc.MarkDeleting? { MarkStep(t, h, l, k); }
    else if l.pc.Release? { ReleaseStep(t, h, l, k); }
    else { PutBack(h, ParentSlot); }
  }

  lemma StepKeepsWaning(t: Tenant, h: Home, l: Local, k: Tick)
    requires Waning(t, h, l) && Running(l)
    ensures var w := Step(t, h, l, k); Secure(t, Put(h, w.slot, w.obj), w.local)
  {
    var w := Step(t, h, l, k);
    if Working(l) { WorkingWaning(t, h, l, k); }
    else if l.pc.Drop? { DropWaning(t, h, l, k); }
    else {
      ClaimCalls(t, h, l, k);
      StepKeepsOrderly(t, h, l, k);
      WaningMove(t, h, Put(h, w.slot, w.obj), l, w.local);
    }
  }

  // ---------------------------------------------------------------- what others do

  lemma OutsideWaning(t: Tenant, h: Home, l: Local, e: Happening)
    requires Waning(t, h, l) && !e.PassStep?
    ensures var w := Outside(t, h, l, e); Waning(t, Put(h, w.slot, w.obj), w.local)
  {
    var w := Outside(t, h, l, e);
    var h' := Put(h, w.slot, w.obj);
    PutBack(h, w.slot);
    HappeningKeepsOrderly(t, h, l, e);
    if w.slot.Child? && h' != h { ShrinkWaning(t, h, l, e); }
    else {
      assert SameChildren(h, h');
      WaningMove(t, h, h', l, w.local);
    }
  }

  lemma ShrinkWaning(t: Tenant, h: Home, l: Local, e: Happening)
    requires Waning(t, h, l) && !e.PassStep?
    requires var w := Outside(t, h, l, e); w.slot.Child? && Put(h, w.slot, w.obj) != h && Orderly(Put(h, w.slot, w.obj), w.local)
    ensures var w := Outside(t, h, l, e); Waning(t, Put(h, w.slot, w.obj), w.local)
  {
    ChildEvents(t, h, l, e);
    if e.ReplicasMove? || e.DatabaseApplied? { FieldWaning(t, h, l, e); } else { RemovalWaning(t, h, l, e); }
  }

  /** What can change in a closing namespace: fields of what is left, and what goes. */
  lemma ChildEvents(t: Tenant, h: Home, l: Local, e: Happening)
    requires Waning(t, h, l) && !e.PassStep?
    requires var w := Outside(t, h, l, e); w.slot.Child? && Put(h, w.slot, w.obj) != h
    ensures e.ReplicasMove? || e.DatabaseApplied? || e.Sweep? || e.NamespaceGone?
  {
    PutBack(h, Child(TNamespace));
    PutBack(h, Child(TJob));
  }

  lemma FieldWaning(t: Tenant, h: Home, l: Local, e: Happening)
    requires Waning(t, h, l) && (e.ReplicasMove? || e.DatabaseApplied?)
    requires var w := Outside(t, h, l, e); Put(h, w.slot, w.obj) != h && Orderly(Put(h, w.slot, w.obj), w.local)
    ensures var w := Outside(t, h, l, e); Waning(t, Put(h, w.slot, w.obj), w.local)
  {
    var w := Outside(t, h, l, e);
    PutBack(h, w.slot);
    assert w.slot in h && Fits(w.slot, h[w.slot]);
    OwnedFieldAgrees(t, h, w.slot.target, w.obj.value);
    StaffedWaning(h, w.slot.target, w.obj.value);
  }

  lemma StaffedWaning(h: Home, x: Target, o: Obj)
    requires NoneOutside(h) && Child(x) in h && (x.TDeploy? || x.TDatabase?) && (if Child(TNamespace) in h then Doomed(h) else Emptied(h))
    ensures var h' := h[Child(x) := o]; NoneOutside(h') && (if Child(TNamespace) in h' then Doomed(h') else Emptied(h'))
  {
  }

  lemma RemovalWaning(t: Tenant, h: Home, l: Local, e: Happening)
    requires Waning(t, h, l) && (e.Sweep? || e.NamespaceGone?)
    requires var w := Outside(t, h, l, e); Put(h, w.slot, w.obj) != h && Orderly(Put(h, w.slot, w.obj), w.local)
    ensures var w := Outside(t, h, l, e); Waning(t, Put(h, w.slot, w.obj), w.local)
  {
    var w := Outside(t, h, l, e);
    PutBack(h, w.slot);
    RemoveKeeps(t, h, w.slot.target);
    GoneWaning(h, w.slot.target);
  }

  lemma GoneWaning(h: Home, x: Target)
    requires NoneOutside(h) && Doomed(h) && (x.TNamespace? ==> Emptied(h))
    ensures var h' := h - {Child(x)}; NoneOutside(h') && (if Child(TNamespace) in h' then Doomed(h') else Emptied(h'))
  {
  }

  // ---------------------------------------------------------------- creation

  ghost function Created(h: Home, spec: Spec): Home {
    h[Claim := ClaimObj(TenantCR(spec, 1, false, false, BLANK_STATUS))]
  }

  lemma CreatedSame(h: Home, spec: Spec)
    ensures SameChildren(h, Created(h, spec))
  {
  }

  /** Creation over leftovers that pass the check is safe. */
  lemma CreationSecure(t: Tenant, h: Home, l: Local, spec: Spec)
    requires Secure(t, h, l) && Claim !in h && Recreatable(h)
    ensures Secure(t, Created(h, spec), l) && (Gated(h) ==> Sound(t, Created(h, spec), l))
  {
    var h' := Created(h, spec);
    CreatedSame(h, spec);
    SameGated(h, h');
    forall x: Target ensures Child(x) in h' <==> Child(x) in h { SameStands(h, h', x); }
    SecureIsOrderly(t, h, l);
    CreatedBasics(t, h, l, spec);
  }

  lemma SecureIsOrderly(t: Tenant, h: Home, l: Local)
    requires Secure(t, h, l)
    ensures Orderly(h, l) && Agreed(t, h)
  {
    if Sound(t, h, l) { SoundIsOrderly(t, h, l); }
  }

  lemma CreatedBasics(t: Tenant, h: Home, l: Local, spec: Spec)
    requires Orderly(h, l) && Agreed(t, h) && Claim !in h
    ensures var h' := Created(h, spec); Orderly(h', l) && Agreed(t, h') && Memory(t, h', l) && !Working(l)
  {
    CreatedSame(h, spec);
    SameAgreed(t, h, Created(h, spec));
  }

  /** In order means for credentials: a leftover job or deployment carries what both stored secrets hold. */
  lemma RecreatableCarries(t: Tenant, h: Home, l: Local, x: Target)
    requires Secure(t, h, l) && Recreatable(h) && Child(x) in h && (x.TJob? || x.TDeploy?)
    ensures Doomed(h) || (Child(TJwt) in h && Child(TCreds) in h && Carries(t, x, h[Child(x)], Stored(t, h)))
  {
    SecureIsOrderly(t, h, l);
    if !Doomed(h) { assert Needs(x, TJwt) && Needs(x, TCreds); }
  }

  /** Whatever happens to a tenant next, it stays secure, as long as it is created again only over
      leftovers that the user has found in order or going. */
  lemma HappeningKeepsSecure(t: Tenant, h: Home, l: Local, e: Happening)
    requires Secure(t, h, l) && (e.UserCreates? && Claim !in h ==> Recreatable(h))
    ensures var w := Happens(t, h, l, e); Secure(t, Put(h, w.slot, w.obj), w.local)
  {
    if e.UserCreates? && Claim !in h { CreationSecure(t, h, l, e.spec); }
    else if Sound(t, h, l) { HappeningKeepsSound(t, h, l, e); }
    else if e.PassStep? {
      if Running(l) { StepKeepsWaning(t, h, l, e.tick); } else { PutBack(h, Claim); }
    } else { OutsideWaning(t, h, l, e); }
  }

  /** Until the old namespace is gone no workload and no route is added. */
  lemma WaningAddsNone(t: Tenant, h: Home, l: Local, e: Happening, x: Target)
    requires Waning(t, h, l) && Mended(x) && Child(x) !in h
    ensures var w := Happens(t, h, l, e); Child(x) !in Put(h, w.slot, w.obj)
  {
    if e.PassStep? {
      if Running(l) { EarlyAddsNone(t, h, l, e.tick, x); } else { PutBack(h, Claim); }
    }
  }

  lemma EarlyAddsNone(t: Tenant, h: Home, l: Local, k: Tick, x: Target)
    requires Running(l) && (Working(l) ==> Early(l.pc)) && Mended(x) && Child(x) !in h
    ensures var w := Step(t, h, l, k); Child(x) !in Put(h, w.slot, w.obj)
  {
    var op := NextOp(t, l);
    assert op.verb.Create? ==> op.slot != Child(x);
    if op.slot != Child(x) { assert At(Put(h, op.slot, Step(t, h, l, k).obj), Child(x)) == At(h, Child(x)); }
  }

  /** The gate without the exception for a closing namespace: nothing stands that would need it. */
  ghost predicate Strict(t: Tenant, h: Home, l: Local) {
    Sound(t, h, l) || (Waning(t, h, l) && Vacant(h))
  }

  /** A stricter check, which leaves no workload standing in a closing namespace either. */
  ghost predicate StrictlyRecreatable(h: Home) {
    Gated(h) || (Closing(h) && Vacant(h))
  }

  lemma HappeningKeepsStrict(t: Tenant, h: Home, l: Local, e: Happening)
    requires Strict(t, h, l) && (e.UserCreates? && Claim !in h ==> StrictlyRecreatable(h))
    ensures var w := Happens(t, h, l, e); Strict(t, Put(h, w.slot, w.obj), w.local)
  {
    var w := Happens(t, h, l, e);
    HappeningKeepsSecure(t, h, l, e);
    if e.UserCreates? && Claim !in h {
      CreationSecure(t, h, l, e.spec);
      if Vacant(h) { CreatedVacant(h, e.spec); }
    } else if Sound(t, h, l) { HappeningKeepsSound(t, h, l, e); }
    else {
      forall x: Target | Mended(x) ensures Child(x) !in Put(h, w.slot, w.obj) { WaningAddsNone(t, h, l, e, x); }
    }
  }

  lemma CreatedVacant(h: Home, spec: Spec)
    requires Vacant(h)
    ensures Vacant(Created(h, spec))
  {
  }

  // ---------------------------------------------------------------- what a finished deletion leaves behind

  /** Nothing stands inside a namespace that is not there. */
  ghost predicate Housed(h: Home) {
    Child(TNamespace) !in h ==> Emptied(h)
  }

  lemma HousedPut(h: Home, x: Target, o: Obj)
    requires Housed(h) && (Inside(x) && Child(TNamespace) !in h ==> Child(x) in h)
    ensures Housed(h[Child(x) := o])
  {
  }

  lemma AddHoused(t: Tenant, h: Home, l: Local, k: Tick)
    requires Housed(h) && Working(l) && l.pc.Ensure? && l.pc.act.Add?
    ensures var w := Step(t, h, l, k); Housed(Put(h, w.slot, w.obj))
  {
    var x := l.pc.target;
    AddStep(t, h, l, k);
    if Inside(x) && Child(TNamespace) !in h { AddNeedsHouse(t, h, l, k); }
    else { HousedPut(h, x, DesiredBy(t, l, x)); }
  }

  lemma AddNeedsHouse(t: Tenant, h: Home, l: Local, k: Tick)
    requires Working(l) && l.pc.Ensure? && l.pc.act.Add? && Inside(l.pc.target) && Child(TNamespace) !in h
    ensures var w := Step(t, h, l, k); Put(h, w.slot, w.obj) == h
  {
    PutBack(h, Child(l.pc.target));
  }

  lemma DropHoused(t: Tenant, h: Home, l: Local, k: Tick)
    requires Typed(h) && Housed(h) && Running(l) && l.pc.Drop?
    ensures var w := Step(t, h, l, k); Housed(Put(h, w.slot, w.obj))
  {
    DropStep(t, h, l, k);
    if l.pc.target.TNamespace? { NamespaceRemains(t, h, l, k); }
  }

  lemma NamespaceRemains(t: Tenant, h: Home, l: Local, k: Tick)
    requires Typed(h) && Running(l) && l.pc.Drop? && l.pc.target.TNamespace?
    ensures var w := Step(t, h, l, k); Child(TNamespace) in Put(h, w.slot, w.obj) <==> Child(TNamespace) in h
  {
    PutBack(h, Child(TNamespace));
    if Child(TNamespace) in h { assert Fits(Child(TNamespace), h[Child(TNamespace)]); }
  }

  lemma StepKeepsHoused(t: Tenant, h: Home, l: Local, k: Tick)
    requires Orderly(h, l) && Housed(h) && Running(l)
    ensures var w := Step(t, h, l, k); Housed(Put(h, w.slot, w.obj))
  {
    if l.pc.Ensure? && l.pc.act.Add? { AddHoused(t, h, l, k); }
    else if l.pc.Drop? { DropHoused(t, h, l, k); }
    else { SameSet(t, h, l, k); }
  }

  /** All other calls leave the set of children as it is, but for the route. */
  lemma SameSet(t: Tenant, h: Home, l: Local, k: Tick)
    requires Orderly(h, l) && Running(l) && !l.pc.Drop? && !(l.pc.Ensure? && l.pc.act.Add?)
    ensures var w := Step(t, h, l, k); forall x: Target :: x != TRoute ==> (Child(x) in Put(h, w.slot, w.obj) <==> Child(x) in h)
  {
    if l.pc.Ensure? {
      assert l.pc == Ensure(l.pc.target, l.pc.act);
      if l.pc.act.Fix? { FixStep(t, h, l, k); } else { LookStep(t, h, l, k); }
    } else if l.pc.Check? { LookStep(t, h, l, k); }
    else if l.pc.Quiesce? { QuiesceStep(t, h, l, k); }
    else if l.pc.Unroute? { UnrouteStep(t, h, l, k); }
    else { ClaimSet(t, h, l, k); }
  }

  lemma ClaimSet(t: Tenant, h: Home, l: Local, k: Tick)
    requires Orderly(h, l) && Running(l) && !InComponent(l) && !l.pc.Drop?
    ensures var w := Step(t, h, l, k); SameChildren(h, Put(h, w.slot, w.obj))
  {
    if l.pc.ReadParent? { ReadStep(t, h, l, k); }
    else if l.pc.ReportLost? || l.pc.Park? || l.pc.Report? { StatusStep(t, h, l, k); }
    else { ClaimCalls(t, h, l, k); }
  }

  lemma HappeningKeepsHoused(t: Tenant, h: Home, l: Local, e: Happening)
    requires Orderly(h, l) && Housed(h)
    ensures var w := Happens(t, h, l, e); Housed(Put(h, w.slot, w.obj))
  {
    if e.PassStep? {
      if Running(l) { StepKeepsHoused(t, h, l, e.tick); } else { PutBack(h, Claim); }
    } else {
      var w := Outside(t, h, l, e);
      PutBack(h, w.slot);
    }
  }
}
