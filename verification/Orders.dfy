/** What every run keeps without any condition: kinds of objects, and passes that act only on a custom
    resource whose finalizer is in place. */
module Orders {
  import opened Options
  import opened Objects
  import opened Tenants
  import opened Machine
  import opened Safety

  /** A pass that builds has the finalizer behind it; a pass that takes down works on a resource that is going. */
  ghost predicate Registered(h: Home, l: Local) {
    && (Working(l) ==> Persisted(h) && l.cr.finalizer && !l.cr.deleting && (forall x :: l.pc == Ensure(x, Fix) ==> Mended(x)))
    && (Ending(l) ==> Persisted(h) && h[Claim].cr.deleting && l.cr.finalizer && l.cr.deleting)
    && (l.Pass? && l.pc.PutFinalizer? ==> !l.cr.finalizer && !l.cr.deleting)
  }

  ghost predicate Orderly(h: Home, l: Local) {
    Typed(h) && Registered(h, l)
  }

  lemma SoundIsOrderly(t: Tenant, h: Home, l: Local)
    requires Sound(t, h, l)
    ensures Orderly(h, l)
  {
  }

  lemma InitiallyOrderly(h: Home)
    requires Typed(h)
    ensures Orderly(h, Idle) && Orderly(h, Begin())
  {
  }

  // ---------------------------------------------------------------- a working pass keeps working

  /** The pass goes on working on the same resource. */
  ghost predicate Onwards(l: Local, m: Local) {
    && l.Pass? && m.Pass? && Working(m) && m.cr == l.cr && (forall x :: m.pc == Ensure(x, Fix) ==> Mended(x))
  }

  lemma ConcludeOnwards(t: Tenant, l: Local, c: Component, v: Verdict)
    requires l.Pass?
    ensures Onwards(l, Conclude(t, l, c, v))
  {
  }

  lemma AfterEnsureOnwards(l: Local, m: Local, x: Target)
    requires l.Pass? && m.Pass? && m.cr == l.cr && m.pc == AfterEnsure(x)
    ensures Onwards(l, m)
  {
  }

  lemma LookOnwards(t: Tenant, l: Local, x: Target, r: Resp, luck: Luck)
    requires l.Pass?
    ensures Onwards(l, AfterLook(t, l, x, r, luck))
  {
    LookMoves(t, l, x, r, luck);
    ConcludeOnwards(t, l, ComponentOf(x), ReconcileFailed);
    if r.Ok? && !Mended(x) { AfterEnsureOnwards(l, AfterLook(t, l, x, r, luck), x); }
  }

  lemma WriteOnwards(t: Tenant, l: Local, x: Target, r: Resp)
    requires l.Pass?
    ensures Onwards(l, AfterWrite(t, l, x, r))
  {
    ConcludeOnwards(t, l, ComponentOf(x), ReconcileFailed);
    AfterEnsureOnwards(l, l.(pc := AfterEnsure(x)), x);
  }

  lemma CheckOnwards(t: Tenant, l: Local, x: Target, r: Resp)
    requires l.Pass?
    ensures Onwards(l, AfterCheck(t, l, x, r))
  {
    CheckMoves(t, l, x, r);
    ConcludeOnwards(t, l, ComponentOf(x), HealthcheckFailed);
    ConcludeOnwards(t, l, ComponentOf(x), Unhealthy);
    ConcludeOnwards(t, l, ComponentOf(x), Healthy);
  }

  lemma SuspendedOnwards(t: Tenant, l: Local, r: Resp, luck: Luck)
    requires Running(l) && (l.pc.Quiesce? || l.pc.Unroute?)
    ensures Onwards(l, Resume(t, l, r, luck))
  {
    var c := if l.pc.Quiesce? then CService(l.pc.svc) else CRouting;
    ConcludeOnwards(t, l, c, Healthy);
    ConcludeOnwards(t, l, c, ReconcileFailed);
  }

  ghost predicate InComponent(l: Local) {
    l.Pass? && (l.pc.Ensure? || l.pc.Check? || l.pc.Quiesce? || l.pc.Unroute?)
  }

  lemma ComponentOnwards(t: Tenant, l: Local, r: Resp, luck: Luck)
    requires InComponent(l)
    ensures Onwards(l, Resume(t, l, r, luck))
  {
    if l.pc.Ensure? {
      if l.pc.act.Look? { LookOnwards(t, l, l.pc.target, r, luck); } else { WriteOnwards(t, l, l.pc.target, r); }
    } else if l.pc.Check? { CheckOnwards(t, l, l.pc.target, r); }
    else { SuspendedOnwards(t, l, r, luck); }
  }

  lemma StepOnwards(t: Tenant, h: Home, l: Local, k: Tick)
    requires InComponent(l)
    ensures Onwards(l, Step(t, h, l, k).local) && Step(t, h, l, k).slot.Child?
  {
    var op := NextOp(t, l);
    ComponentOnwards(t, l, Serve(At(h, op.slot), Open(h, op.slot), op.verb, k.fault).1, k.luck);
  }

  // ---------------------------------------------------------------- kinds stay

  lemma RemoveTyped(h: Home, s: Slot)
    requires Typed(h)
    ensures Typed(h - {s})
  {
  }

  lemma EnsureTyped(t: Tenant, h: Home, l: Local, k: Tick)
    requires Orderly(h, l) && l.Pass? && l.pc.Ensure?
    ensures var w := Step(t, h, l, k); Typed(Put(h, w.slot, w.obj))
  {
    var x := l.pc.target;
    PutBack(h, Child(x));
    if l.pc.act.Add? {
      AddStep(t, h, l, k);
      DesiredFits(t, l, x);
      TypedPut(h, Child(x), DesiredBy(t, l, x));
    } else if l.pc.act.Fix? {
      FixStep(t, h, l, k);
      if Child(x) in h {
        assert Fits(Child(x), h[Child(x)]);
        MendingFits(t, l, x, h[Child(x)]);
        TypedPut(h, Child(x), Patched(h[Child(x)], Mending(t, l.cr.spec, l.parent, ContextFor(t, l), x)));
      }
    } else {
      LookStep(t, h, l, k);
    }
  }

  lemma LookStep(t: Tenant, h: Home, l: Local, k: Tick)
    requires Running(l) && ((l.pc.Ensure? && l.pc.act.Look?) || l.pc.Check?)
    ensures var w := Step(t, h, l, k); Put(h, w.slot, w.obj) == h
  {
    PutBack(h, Child(l.pc.target));
  }

  lemma UnrouteStep(t: Tenant, h: Home, l: Local, k: Tick)
    requires Typed(h) && Running(l) && l.pc.Unroute?
    ensures var w := Step(t, h, l, k); var h' := Put(h, w.slot, w.obj); h' == h || h' == h - {Child(TRoute)}
  {
    PutBack(h, Child(TRoute));
    if Child(TRoute) in h { assert Fits(Child(TRoute), h[Child(TRoute)]); }
  }

  lemma SuspendedTyped(t: Tenant, h: Home, l: Local, k: Tick)
    requires Typed(h) && Running(l) && (l.pc.Quiesce? || l.pc.Unroute?)
    ensures var w := Step(t, h, l, k); Typed(Put(h, w.slot, w.obj))
  {
    if l.pc.Quiesce? {
      QuiesceStep(t, h, l, k);
      var s := Child(TDeploy(l.pc.svc));
      if s in h {
        assert Fits(s, h[s]);
        TypedPut(h, s, Patched(h[s], Scale(0)));
      }
    } else {
      UnrouteStep(t, h, l, k);
      RemoveTyped(h, Child(TRoute));
    }
  }

  lemma ComponentOrderly(t: Tenant, h: Home, l: Local, k: Tick)
    requires Orderly(h, l) && InComponent(l)
    ensures var w := Step(t, h, l, k); Orderly(Put(h, w.slot, w.obj), w.local)
  {
    var w := Step(t, h, l, k);
    var h' := Put(h, w.slot, w.obj);
    StepOnwards(t, h, l, k);
    assert At(h', Claim) == At(h, Claim);
    if l.pc.Ensure? { EnsureTyped(t, h, l, k); }
    else if l.pc.Check? { LookStep(t, h, l, k); }
    else { SuspendedTyped(t, h, l, k); }
    OnwardsRegistered(h, h', l, w.local);
  }

  lemma OnwardsRegistered(h: Home, h': Home, l: Local, m: Local)
    requires Registered(h, l) && Working(l) && Onwards(l, m) && At(h', Claim) == At(h, Claim)
    ensures Registered(h', m)
  {
  }

  // ---------------------------------------------------------------- the custom resource

  lemma StatusOrderly(t: Tenant, h: Home, l: Local, k: Tick)
    requires Orderly(h, l) && Running(l) && (l.pc.ReportLost? || l.pc.Park? || l.pc.Report?)
    ensures var w := Step(t, h, l, k); Orderly(Put(h, w.slot, w.obj), w.local)
  {
    StatusStep(t, h, l, k);
  }

  lemma ReadOrderly(t: Tenant, h: Home, l: Local, k: Tick)
    requires Orderly(h, l) && Running(l) && (l.pc.ReadClaim? || l.pc.ReadParent?)
    ensures var w := Step(t, h, l, k); Orderly(Put(h, w.slot, w.obj), w.local)
  {
    ReadStep(t, h, l, k);
    if l.pc.ReadClaim? {
      if Claim in h { assert Fits(Claim, h[Claim]); }
    } else {
      var r :| Step(t, h, l, k).local == Resume(t, l, r, k.luck);
      assert Resume(t, l, r, k.luck).cr == l.cr && Working(Resume(t, l, r, k.luck));
    }
  }

  lemma FinalizerStep(t: Tenant, h: Home, l: Local, k: Tick)
    requires Running(l) && l.pc.PutFinalizer? && !l.cr.deleting
    ensures var w := Step(t, h, l, k); var h' := Put(h, w.slot, w.obj);
            && (h' == h || (Claim in h && h[Claim].ClaimObj? && h[Claim].cr == l.cr && h' == h[Claim := ClaimObj(l.cr.(finalizer := true))]))
            && w.local.Pass? && w.local.pc.Stop?
  {
    PutBack(h, Claim);
  }

  lemma MarkOrderly(t: Tenant, h: Home, l: Local, k: Tick)
    requires Orderly(h, l) && Running(l) && l.pc.MarkDeleting?
    ensures var w := Step(t, h, l, k); Orderly(Put(h, w.slot, w.obj), w.local)
  {
    MarkStep(t, h, l, k);
  }

  lemma DropOrderly(t: Tenant, h: Home, l: Local, k: Tick)
    requires Orderly(h, l) && Running(l) && l.pc.Drop?
    ensures var w := Step(t, h, l, k); Orderly(Put(h, w.slot, w.obj), w.local)
  {
    var w := Step(t, h, l, k);
    var h' := Put(h, w.slot, w.obj);
    DropStep(t, h, l, k);
    assert At(h', Claim) == At(h, Claim);
    DropTyped(h, l.pc.target, h');
  }

  lemma DropTyped(h: Home, x: Target, h': Home)
    requires Typed(h)
    requires h' == h || h' == h - {Child(x)}
          || (x.TNamespace? && Child(x) in h && h' == h[Child(x) := h[Child(x)].(phase := Terminating)])
    ensures Typed(h')
  {
    RemoveTyped(h, Child(x));
    if Child(x) in h { assert Fits(Child(x), h[Child(x)]); }
  }

  lemma LastOrderly(t: Tenant, h: Home, l: Local, k: Tick)
    requires Orderly(h, l) && Running(l) && (l.pc.PutFinalizer? || l.pc.ReadParentToo? || l.pc.Release?)
    ensures var w := Step(t, h, l, k); Orderly(Put(h, w.slot, w.obj), w.local)
  {
    if l.pc.PutFinalizer? { FinalizerStep(t, h, l, k); }
    else if l.pc.Release? { ReleaseStep(t, h, l, k); RemoveTyped(h, Claim); }
    else { PutBack(h, ParentSlot); }
  }

  lemma StepKeepsOrderly(t: Tenant, h: Home, l: Local, k: Tick)
    requires Orderly(h, l) && Running(l)
    ensures var w := Step(t, h, l, k); Orderly(Put(h, w.slot, w.obj), w.local)
  {
    if InComponent(l) { ComponentOrderly(t, h, l, k); }
    else if l.pc.ReportLost? || l.pc.Park? || l.pc.Report? { StatusOrderly(t, h, l, k); }
    else if l.pc.ReadClaim? || l.pc.ReadParent? { ReadOrderly(t, h, l, k); }
    else if l.pc.MarkDeleting? { MarkOrderly(t, h, l, k); }
    else if l.pc.Drop? { DropOrderly(t, h, l, k); }
    else { LastOrderly(t, h, l, k); }
  }

  // ---------------------------------------------------------------- what others do

  lemma ChildOutside(t: Tenant, h: Home, l: Local, e: Happening)
    requires Orderly(h, l) && !e.PassStep? && Outside(t, h, l, e).slot.Child?
    ensures var w := Outside(t, h, l, e); Orderly(Put(h, w.slot, w.obj), w.local)
  {
    var w := Outside(t, h, l, e);
    PutBack(h, w.slot);
    RemoveTyped(h, w.slot);
    if w.slot in h { assert Fits(w.slot, h[w.slot]); }
    assert At(Put(h, w.slot, w.obj), Claim) == At(h, Claim);
  }

  lemma ClaimOutside(t: Tenant, h: Home, l: Local, e: Happening)
    requires Orderly(h, l) && (e.UserCreates? || e.UserEdits? || e.UserDeletes? || e.PassStart? || e.Crash?)
    ensures var w := Outside(t, h, l, e); Orderly(Put(h, w.slot, w.obj), w.local)
  {
    PutBack(h, Claim);
    RemoveTyped(h, Claim);
    if Claim in h { assert Fits(Claim, h[Claim]); }
  }

  /** Whatever happens, on whatever leftovers a tenant is created, kinds stay and every pass acts on a resource
      whose finalizer is in place. */
  lemma HappeningKeepsOrderly(t: Tenant, h: Home, l: Local, e: Happening)
    requires Orderly(h, l)
    ensures var w := Happens(t, h, l, e); Orderly(Put(h, w.slot, w.obj), w.local)
  {
    if e.PassStep? {
      if Running(l) { StepKeepsOrderly(t, h, l, e.tick); } else { PutBack(h, Claim); }
    } else if e.UserCreates? || e.UserEdits? || e.UserDeletes? || e.PassStart? || e.Crash? { ClaimOutside(t, h, l, e); }
    else { ChildOutside(t, h, l, e); }
  }
}
