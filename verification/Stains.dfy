/** The condition of type "Ready" that an unresolved parent leaves behind: nothing ever clears it. */
module Stains {
  import opened Options
  import opened Objects
  import opened Tenants
  import opened Machine
  import opened Safety
  import opened Orders
  import opened Statuses
  import opened Runs

  /** The condition is there, and false. */
  ghost predicate Marked(st: Status) {
    Latest(st.conditions, Overall).Some? && !Latest(st.conditions, Overall).value.holds
  }

  /** The stored status shows it, and so does the one that a pass is working on. */
  ghost predicate Stained(h: Home, l: Local) {
    && (Claim in h && h[Claim].ClaimObj? ==> Marked(h[Claim].cr.status))
    && (l.Pass? && !l.pc.ReadClaim? && !l.pc.Stop? ==> Marked(l.status))
  }

  // ---------------------------------------------------------------- what a pass does to its conditions

  /** Conditions stay, or one component's is recorded. */
  ghost predicate OneRecorded(l: Local, m: Local)
    requires l.Pass? && m.Pass?
  {
    m.status.conditions == l.status.conditions || exists c, v :: m.status.conditions == Recorded(l, c, v).status.conditions
  }

  lemma ConcludeRecorded(t: Tenant, l: Local, c: Component, v: Verdict)
    requires l.Pass?
    ensures OneRecorded(l, Conclude(t, l, c, v))
  {
    assert Conclude(t, l, c, v).status.conditions == Recorded(l, c, v).status.conditions;
  }

  lemma ComponentRecorded(t: Tenant, l: Local, r: Resp, luck: Luck)
    requires InComponent(l)
    ensures OneRecorded(l, Resume(t, l, r, luck))
  {
    if l.pc.Ensure? {
      ConcludeRecorded(t, l, ComponentOf(l.pc.target), ReconcileFailed);
      if l.pc.act.Look? { LookMoves(t, l, l.pc.target, r, luck); LookRecorded(t, l, l.pc.target, r, luck); }
      else { assert Resume(t, l, r, luck) == AfterWrite(t, l, l.pc.target, r); }
    } else if l.pc.Check? {
      CheckMoves(t, l, l.pc.target, r);
      ConcludeRecorded(t, l, ComponentOf(l.pc.target), HealthcheckFailed);
      ConcludeRecorded(t, l, ComponentOf(l.pc.target), Unhealthy);
      ConcludeRecorded(t, l, ComponentOf(l.pc.target), Healthy);
    } else {
      SuspendedRecorded(t, l, r, luck);
    }
  }

  lemma LookRecorded(t: Tenant, l: Local, x: Target, r: Resp, luck: Luck)
    requires l.Pass?
    ensures OneRecorded(l, AfterLook(t, l, x, r, luck))
  {
    ConcludeRecorded(t, l, ComponentOf(x), ReconcileFailed);
    LookMoves(t, l, x, r, luck);
  }

  lemma SuspendedRecorded(t: Tenant, l: Local, r: Resp, luck: Luck)
    requires Running(l) && (l.pc.Quiesce? || l.pc.Unroute?)
    ensures OneRecorded(l, Resume(t, l, r, luck))
  {
    var c := if l.pc.Quiesce? then CService(l.pc.svc) else CRouting;
    ConcludeRecorded(t, l, c, Healthy);
    ConcludeRecorded(t, l, c, ReconcileFailed);
  }

  lemma RecordedMarked(l: Local, m: Local)
    requires l.Pass? && m.Pass? && Marked(l.status) && OneRecorded(l, m)
    ensures Marked(m.status)
  {
    if m.status.conditions != l.status.conditions {
      var c, v :| m.status.conditions == Recorded(l, c, v).status.conditions;
      LatestSet(l.status.conditions, Condition(Of(c), v.Healthy?, ReasonOf(v), l.cr.generation), Overall);
    }
  }

  lemma LostMarked(l: Local)
    requires l.Pass?
    ensures Marked(Lost(l).status)
  {
    LatestSet(l.status.conditions, Condition(Overall, false, SupabaseRefNotFound, l.cr.generation), Overall);
  }

  lemma ClaimMarked(l: Local, r: Resp)
    requires l.Pass? && (r.Ok? ==> r.obj.ClaimObj? && Marked(r.obj.cr.status))
    ensures var m := AfterClaim(l, r); m.pc.Stop? || Marked(m.status)
  {
  }

  lemma RestMarked(t: Tenant, l: Local, r: Resp, luck: Luck)
    requires Running(l) && !InComponent(l) && !l.pc.ReadClaim? && Marked(l.status)
    ensures var m := Resume(t, l, r, luck); m.pc.Stop? || (!m.pc.ReadClaim? && Marked(m.status))
  {
    if l.pc.ReadParent? { LostMarked(l); }
    else if l.pc.MarkDeleting? || l.pc.ReadParentToo? || l.pc.Drop? || l.pc.Release? { EndingMove(t, l, r, luck); }
  }

  lemma StepMarked(t: Tenant, h: Home, l: Local, k: Tick)
    requires Typed(h) && Running(l) && Stained(h, l)
    ensures var m := Step(t, h, l, k).local; m.pc.Stop? || Marked(m.status)
  {
    var op := NextOp(t, l);
    var r := Serve(At(h, op.slot), Open(h, op.slot), op.verb, k.fault).1;
    if l.pc.ReadClaim? {
      ClaimAnswer(t, h, l, k);
      if Claim in h { assert Fits(Claim, h[Claim]); }
      ClaimMarked(l, r);
    } else if InComponent(l) {
      ComponentRecorded(t, l, r, k.luck);
      RecordedMarked(l, Resume(t, l, r, k.luck));
    } else {
      RestMarked(t, l, r, k.luck);
    }
  }

  /** Whatever happens - full passes, parked ones, failing ones, edits of the user - the condition stays, until
      the tenant is deleted and created again. */
  lemma HappeningKeepsStain(t: Tenant, h: Home, l: Local, e: Happening)
    requires Typed(h) && Stained(h, l) && (e.UserCreates? ==> Claim in h)
    ensures var w := Happens(t, h, l, e); Stained(Put(h, w.slot, w.obj), w.local)
  {
    if e.PassStep? {
      if Running(l) {
        StepMarked(t, h, l, e.tick);
        StoredStatus(t, h, l, e.tick);
      } else { PutBack(h, Claim); }
    } else {
      OutsideStain(t, h, l, e);
    }
  }

  lemma OutsideStain(t: Tenant, h: Home, l: Local, e: Happening)
    requires !e.PassStep? && Stained(h, l) && (e.UserCreates? ==> Claim in h)
    ensures var w := Outside(t, h, l, e); Stained(Put(h, w.slot, w.obj), w.local)
  {
    PutBack(h, Outside(t, h, l, e).slot);
  }

  /** An unresolved parent leaves the stain. */
  lemma LostStains(t: Tenant, h: Home, l: Local, k: Tick)
    requires Running(l) && l.pc.ReadParent? && (k.fault.Transient? || ParentSlot !in h)
    ensures var m := Step(t, h, l, k).local; m.pc == ReportLost && Marked(m.status)
  {
    LostMarked(l);
  }

  /** Over any continuation of a run in which the tenant is not created anew, a stored false "Ready" stays. */
  lemma {:induction false} StainOfEveryRun(ts: seq<Tenant>, y: System, es: seq<Event>, i: nat)
    requires Family(ts) && Ordered(ts, y) && i < |ts| && Stained(HomeOf(ts[i], y.store), y.locals[i])
    requires forall e :: e in es && e.OfTenant? && e.i == i ==> !e.what.UserCreates?
    ensures var z := Run(ts, y, es); Stained(HomeOf(ts[i], z.store), z.locals[i])
    decreases |es|
  {
    if |es| > 0 {
      NextOrdered(ts, y, es[0]);
      StainNext(ts, y, es[0], i);
      StainOfEveryRun(ts, Next(ts, y, es[0]), es[1..], i);
    }
  }

  lemma StainNext(ts: seq<Tenant>, y: System, e: Event, i: nat)
    requires Family(ts) && Ordered(ts, y) && i < |ts| && Stained(HomeOf(ts[i], y.store), y.locals[i])
    requires e.OfTenant? && e.i == i ==> !e.what.UserCreates?
    ensures var z := Next(ts, y, e); Stained(HomeOf(ts[i], z.store), z.locals[i])
  {
    match e
    case OfTenant(j, what) =>
      if j == i { OwnStain(ts, y, i, what); }
      else if j < |ts| { OthersUntouched(ts, y, j, i, what); }
    case ParentChanges(p) => ParentStain(ts, y, p, i);
  }

  lemma OwnStain(ts: seq<Tenant>, y: System, i: nat, what: Happening)
    requires Family(ts) && Ordered(ts, y) && i < |ts| && Stained(HomeOf(ts[i], y.store), y.locals[i]) && !what.UserCreates?
    ensures var z := Next(ts, y, OfTenant(i, what)); Stained(HomeOf(ts[i], z.store), z.locals[i])
  {
    var t, h, l := ts[i], HomeOf(ts[i], y.store), y.locals[i];
    assert TenantOrderly(t, y, l);
    var w := Happens(t, h, l, what);
    OwnView(t, y.store, w.slot, w.obj);
    HappeningKeepsStain(t, h, l, what);
  }

  lemma ParentStain(ts: seq<Tenant>, y: System, p: Option<Parent>, i: nat)
    requires Family(ts) && Ordered(ts, y) && i < |ts| && Stained(HomeOf(ts[i], y.store), y.locals[i])
    ensures var z := Next(ts, y, ParentChanges(p)); Stained(HomeOf(ts[i], z.store), z.locals[i])
  {
    assert TenantOrderly(ts[i], y, y.locals[i]);
    ParentView(ts, y, p, i);
    ParentIrrelevant(ts[i], HomeOf(ts[i], y.store), y.locals[i], p);
  }
}
