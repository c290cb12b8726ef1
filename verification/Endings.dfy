/** How passes end, and what deletion leaves behind. */
module Endings {
  import opened Options
  import opened Objects
  import opened Tenants
  import opened Machine
  import opened Safety
  import opened Orders

  // ---------------------------------------------------------------- no tenant is forgotten

  ghost predicate FinalizerGone(h: Home) {
    Claim !in h || (h[Claim].ClaimObj? && !h[Claim].cr.finalizer)
  }

  lemma EndsScheduled(t: Tenant, l: Local, r: Resp, luck: Luck)
    requires Running(l) && !l.pc.Ensure? && !l.pc.Check? && !l.pc.Quiesce? && !l.pc.Unroute? && !l.pc.ReadClaim? && !l.pc.Release?
    ensures Resume(t, l, r, luck).pc != Nothing()
  {
  }

  /** A pass that ends without scheduling another one and without an error has found, or made, the
      finalizer gone: every other ending asks for a new pass. */
  lemma NoStuckTenant(t: Tenant, h: Home, l: Local, k: Tick)
    requires Orderly(h, l) && Running(l)
    ensures var w := Step(t, h, l, k); w.local.pc == Nothing() ==> FinalizerGone(Put(h, w.slot, w.obj))
  {
    var op := NextOp(t, l);
    var r := Serve(At(h, op.slot), Open(h, op.slot), op.verb, k.fault).1;
    PutBack(h, op.slot);
    if InComponent(l) { StepOnwards(t, h, l, k); }
    else if l.pc.Release? { ReleaseStep(t, h, l, k); }
    else if l.pc.ReadClaim? { ClaimEnds(t, h, l, k); }
    else { EndsScheduled(t, l, r, k.luck); }
  }

  lemma ClaimEnds(t: Tenant, h: Home, l: Local, k: Tick)
    requires Running(l) && l.pc.ReadClaim? && Typed(h)
    ensures var w := Step(t, h, l, k);
            Put(h, w.slot, w.obj) == h && (w.local.pc == Nothing() ==> FinalizerGone(h))
  {
    PutBack(h, Claim);
    if Claim in h { assert Fits(Claim, h[Claim]); }
  }

  // ---------------------------------------------------------------- nothing comes back

  /** The tenant is gone or going, and no pass that began before is still building it. */
  ghost predicate Retired(h: Home, l: Local) {
    (Claim !in h || (h[Claim].ClaimObj? && h[Claim].cr.deleting)) && !Working(l)
  }

  ghost predicate NoMore(h: Home, h': Home) {
    forall x: Target :: Child(x) in h' ==> Child(x) in h
  }

  /** Only a working pass creates anything. */
  lemma IdleCreatesNothing(t: Tenant, h: Home, l: Local, k: Tick)
    requires Running(l) && !Working(l)
    ensures var w := Step(t, h, l, k); NoMore(h, Put(h, w.slot, w.obj))
  {
    var op := NextOp(t, l);
    assert !op.verb.Create?;
    forall x: Target | Child(x) != op.slot ensures Child(x) in Put(h, op.slot, Step(t, h, l, k).obj) <==> Child(x) in h {
    }
  }

  /** No pass creates a child object before the finalizer is persisted, and nobody else creates any. */
  lemma ChildNeedsFinalizer(t: Tenant, h: Home, l: Local, e: Happening, x: Target)
    requires Orderly(h, l) && Child(x) !in h
    requires var w := Happens(t, h, l, e); Child(x) in Put(h, w.slot, w.obj)
    ensures e.PassStep? && Running(l) && Working(l) && Persisted(h)
  {
    var w := Happens(t, h, l, e);
    PutBack(h, w.slot);
    if e.PassStep? && Running(l) && !Working(l) { IdleCreatesNothing(t, h, l, e.tick); }
  }

  lemma EndingStays(t: Tenant, l: Local, r: Resp, luck: Luck)
    requires Running(l) && (Ending(l) || l.pc.PutFinalizer?)
    ensures !Working(Resume(t, l, r, luck))
  {
  }

  lemma RetiredStep(t: Tenant, h: Home, l: Local, k: Tick)
    requires Orderly(h, l) && Running(l) && Retired(h, l)
    ensures var w := Step(t, h, l, k); Retired(Put(h, w.slot, w.obj), w.local)
  {
    var op := NextOp(t, l);
    var r := Serve(At(h, op.slot), Open(h, op.slot), op.verb, k.fault).1;
    PutBack(h, op.slot);
    if l.pc.ReadClaim? {
      if Claim in h { assert Fits(Claim, h[Claim]); }
    } else {
      EndingStays(t, l, r, k.luck);
      if l.pc.MarkDeleting? { MarkStep(t, h, l, k); }
      else if l.pc.Drop? { DropStep(t, h, l, k); }
      else if l.pc.Release? { ReleaseStep(t, h, l, k); }
      else if l.pc.PutFinalizer? { PutFinalizerRefused(t, h, l, k); }
    }
  }

  lemma PutFinalizerRefused(t: Tenant, h: Home, l: Local, k: Tick)
    requires Orderly(h, l) && Running(l) && l.pc.PutFinalizer? && Retired(h, l)
    ensures var w := Step(t, h, l, k); Put(h, w.slot, w.obj) == h
  {
    PutBack(h, Claim);
  }

  /** Once a tenant is being deleted and no earlier pass is still working on it, whatever happens only
      takes objects away, for good, as long as the user does not create it anew. */
  lemma NoResurrection(t: Tenant, h: Home, l: Local, e: Happening)
    requires Orderly(h, l) && Retired(h, l) && !e.UserCreates?
    ensures var w := Happens(t, h, l, e); var h' := Put(h, w.slot, w.obj);
            NoMore(h, h') && Retired(h', w.local)
  {
    var w := Happens(t, h, l, e);
    PutBack(h, w.slot);
    if e.PassStep? && Running(l) {
      RetiredStep(t, h, l, e.tick);
      IdleCreatesNothing(t, h, l, e.tick);
    } else if w.slot != Claim {
      assert At(Put(h, w.slot, w.obj), Claim) == At(h, Claim);
      assert NoMore(h, Put(h, w.slot, w.obj));
    } else {
      assert NoMore(h, Put(h, w.slot, w.obj));
    }
  }

  // ---------------------------------------------------------------- finalization

  ghost predicate NamespaceClosed(h: Home) {
    Child(TNamespace) !in h || Doomed(h)
  }

  /** What finalization has taken down at a point. A database or job may survive only if its read failed. */
  ghost predicate TakenDown(h: Home, l: Local) {
    l.Pass? ==>
      match l.pc
      case Drop(TDatabase, _) => Child(TRoute) !in h
      case Drop(TJob, _) => Child(TRoute) !in h && (l.skipped || Child(TDatabase) !in h)
      case Drop(TNamespace, _) => Child(TRoute) !in h && (l.skipped || (Child(TDatabase) !in h && Child(TJob) !in h))
      case Release(false) =>
        && Child(TRoute) !in h && (l.skipped || (Child(TDatabase) !in h && Child(TJob) !in h))
        && NamespaceClosed(h)
      case Drop(x, _) => x.TRoute?
      case _ => true
  }

  lemma TakenDownLook(t: Tenant, h: Home, l: Local, k: Tick)
    requires Running(l) && l.pc.Drop? && l.pc.act.Look? && TakenDown(h, l)
    ensures var w := Step(t, h, l, k); Put(h, w.slot, w.obj) == h && TakenDown(h, w.local)
  {
    PutBack(h, Child(l.pc.target));
  }

  lemma TakenDownMore(h: Home, h': Home, l: Local, x: Target, m: Local)
    requires l.Pass? && l.pc.Drop? && l.pc.target == x && TakenDown(h, l) && NoMore(h, h')
    requires m == l.(pc := AfterDrop(x))
    requires if x.TNamespace? then NamespaceClosed(h') else Child(x) !in h'
    ensures TakenDown(h', m)
  {
  }

  lemma TakenDownFix(t: Tenant, h: Home, l: Local, k: Tick)
    requires Running(l) && l.pc.Drop? && !l.pc.act.Look? && TakenDown(h, l) && Typed(h)
    ensures var w := Step(t, h, l, k); TakenDown(Put(h, w.slot, w.obj), w.local)
  {
    var x, s := l.pc.target, Child(l.pc.target);
    var (o, r) := Serve(At(h, s), Open(h, s), Delete, k.fault);
    if s in h { assert Fits(s, h[s]); }
    if r.Ok? {
      assert NoMore(h, Put(h, s, o));
      TakenDownMore(h, Put(h, s, o), l, x, l.(pc := AfterDrop(x)));
    }
  }

  lemma TakenDownStep(t: Tenant, h: Home, l: Local, k: Tick)
    requires Orderly(h, l) && Running(l) && TakenDown(h, l)
    ensures var w := Step(t, h, l, k); TakenDown(Put(h, w.slot, w.obj), w.local)
  {
    var op := NextOp(t, l);
    var r := Serve(At(h, op.slot), Open(h, op.slot), op.verb, k.fault).1;
    if l.pc.Drop? {
      if l.pc.act.Look? { TakenDownLook(t, h, l, k); } else { TakenDownFix(t, h, l, k); }
    } else if InComponent(l) {
      StepOnwards(t, h, l, k);
    } else {
      OutsideDrops(t, l, r, k.luck);
    }
  }

  lemma OutsideDrops(t: Tenant, l: Local, r: Resp, luck: Luck)
    requires Running(l) && !l.pc.Drop? && !l.pc.Ensure? && !l.pc.Check? && !l.pc.Quiesce? && !l.pc.Unroute?
    ensures var m := Resume(t, l, r, luck); (m.pc.Drop? ==> m.pc.target.TRoute?) && m.pc != Release(false)
  {
  }

  /** Nothing that others do puts back what finalization took down. */
  lemma TakenDownOutside(t: Tenant, h: Home, l: Local, e: Happening)
    requires !e.PassStep? && TakenDown(h, l)
    ensures var w := Happens(t, h, l, e); TakenDown(Put(h, w.slot, w.obj), w.local)
  {
    var w := Happens(t, h, l, e);
    PutBack(h, w.slot);
  }

  lemma HappeningKeepsTakenDown(t: Tenant, h: Home, l: Local, e: Happening)
    requires Orderly(h, l) && TakenDown(h, l)
    ensures var w := Happens(t, h, l, e); TakenDown(Put(h, w.slot, w.obj), w.local)
  {
    if e.PassStep? {
      if Running(l) { TakenDownStep(t, h, l, e.tick); } else { PutBack(h, Claim); }
    } else {
      TakenDownOutside(t, h, l, e);
    }
  }

  /** The custom resource goes, at the hands of a pass, only when the route, the database and the init job
      are gone and the deletion of the namespace has begun - unless the parent could not be read, or the
      read of the database or its job failed. */
  lemma FinalizerRemovedLast(t: Tenant, h: Home, l: Local, k: Tick)
    requires Orderly(h, l) && TakenDown(h, l) && Running(l)
    requires var w := Step(t, h, l, k); Claim in h && Claim !in Put(h, w.slot, w.obj)
    ensures var w := Step(t, h, l, k); var h' := Put(h, w.slot, w.obj);
            || l.pc == Release(true)
            || (l.pc == Release(false) && Child(TRoute) !in h' && NamespaceClosed(h')
                && (l.skipped || (Child(TDatabase) !in h' && Child(TJob) !in h')))
  {
    var op := NextOp(t, l);
    if op.slot == Claim {
      ClaimVerbs(t, l);
    }
  }

  lemma ClaimVerbs(t: Tenant, l: Local)
    requires Running(l) && NextOp(t, l).slot == Claim
    ensures NextOp(t, l).verb.Get? || NextOp(t, l).verb.PatchStatus? || l.pc.PutFinalizer? || l.pc.Release?
  {
  }

  /** The forced release happens exactly when the parent cannot be read. */
  lemma ForcedOnlyWithoutParent(t: Tenant, h: Home, l: Local, k: Tick)
    requires Running(l) && l.pc.ReadParentToo?
    ensures Step(t, h, l, k).local.pc == Release(true) <==> k.fault.Transient? || ParentSlot !in h
  {
  }

  /** Points behind the removal of the database, or of its job. */
  predicate Past(x: Target, pc: PC) {
    match pc
    case Drop(y, _) => (x.TDatabase? && y.TJob?) || y.TNamespace?
    case Release(_) => true
    case Stop(_) => true
    case _ => false
  }

  /** Finalization turns its back on an existing database, or on an existing init job, exactly when the read
      of it fails ... */
  lemma SkippedByError(t: Tenant, h: Home, l: Local, k: Tick, x: Target)
    requires Running(l) && l.pc == Drop(x, Look) && ErrorMeansGone(x) && Child(x) in h
    ensures Past(x, Step(t, h, l, k).local.pc) <==> k.fault.Transient?
  {
  }

  lemma PastGoesOn(t: Tenant, l: Local, r: Resp, luck: Luck, x: Target)
    requires Running(l) && ErrorMeansGone(x) && Past(x, l.pc)
    ensures Past(x, Resume(t, l, r, luck).pc)
  {
    if l.pc.Drop? { assert Past(x, AfterDrop(l.pc.target)); }
  }

  lemma PastElsewhere(t: Tenant, l: Local, x: Target)
    requires Running(l) && ErrorMeansGone(x) && Past(x, l.pc)
    ensures NextOp(t, l).slot != Child(x)
  {
  }

  /** ... and then no further call of the pass removes it. */
  lemma SkippedSurvives(t: Tenant, h: Home, l: Local, k: Tick, x: Target)
    requires Running(l) && ErrorMeansGone(x) && Past(x, l.pc)
    ensures var w := Step(t, h, l, k); At(Put(h, w.slot, w.obj), Child(x)) == At(h, Child(x)) && Past(x, w.local.pc)
  {
    var op := NextOp(t, l);
    PastElsewhere(t, l, x);
    PastGoesOn(t, l, Serve(At(h, op.slot), Open(h, op.slot), op.verb, k.fault).1, k.luck, x);
  }
}
