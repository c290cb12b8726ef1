/** Taking a tenant down: from whatever is left of it, a fault-free pass finishes the job. */
module Finalization {
  import opened Options
  import opened Objects
  import opened Tenants
  import opened Machine
  import opened Safety
  import opened Orders
  import opened Leftovers
  import opened Endings
  import opened Passes
  import opened Outcomes

  ghost predicate Leaving(h: Home) {
    Claim in h && h[Claim].ClaimObj? && h[Claim].cr.deleting && h[Claim].cr.finalizer
  }

  /** Nothing is left that finalization is responsible for, and the namespace is gone or on its way out. */
  ghost predicate CleanedUp(h: Home) {
    Child(TRoute) !in h && Child(TDatabase) !in h && Child(TJob) !in h && NamespaceClosed(h)
  }

  predicate Droppable(x: Target) {
    x.TRoute? || x.TDatabase? || x.TJob? || x.TNamespace?
  }

  ghost function One(b: bool): nat { if b then 1 else 0 }

  /** How much of the tenant is left to take down. */
  ghost function Remaining(h: Home): nat {
    One(Child(TRoute) in h) + One(Child(TDatabase) in h) + One(Child(TJob) in h) + One(!NamespaceClosed(h))
  }

  /** A pass that takes the tenant down, and whose reads have all been answered. */
  ghost predicate Tidying(h: Home, l: Local) {
    && l.Pass? && ParentSlot in h && (if Claim in h then Leaving(h) else CleanedUp(h))
    && !Working(l) && !l.pc.PutFinalizer? && l.pc != Release(true) && !l.skipped && TakenDown(h, l)
    && (l.pc.Drop? ==> Droppable(l.pc.target))
    && ((l.pc.MarkDeleting? || l.pc.ReadParentToo? || l.pc.Drop? || l.pc.Release?) ==> l.cr.deleting)
  }

  /** The call that is next, if it is a read, is answered. */
  ghost predicate ReadAnswered(t: Tenant, l: Local, k: Tick)
    requires Running(l)
  {
    NextOp(t, l).verb.Get? ==> k.fault.NoFault?
  }

  ghost predicate ReadsAnswered(t: Tenant, h: Home, l: Local, ks: seq<Tick>)
    decreases |ks|
  {
    |ks| > 0 && Running(l) ==>
      ReadAnswered(t, l, ks[0])
      && var w := Step(t, h, l, ks[0]); ReadsAnswered(t, Put(h, w.slot, w.obj), w.local, ks[1..])
  }

  // ---------------------------------------------------------------- one step, writes may fail

  lemma ClaimStep(t: Tenant, h: Home, l: Local, k: Tick)
    requires Typed(h) && Tidying(h, l) && l.pc.ReadClaim? && k.fault.NoFault?
    ensures var w := Step(t, h, l, k); Put(h, w.slot, w.obj) == h && Tidying(h, w.local)
    ensures Leaving(h) ==> var m := Step(t, h, l, k).local; m.pc == MarkDeleting && m.cr == h[Claim].cr
  {
    PutBack(h, Claim);
  }

  lemma MarkTidies(t: Tenant, h: Home, l: Local, k: Tick)
    requires Orderly(h, l) && Tidying(h, l) && l.pc.MarkDeleting?
    ensures var w := Step(t, h, l, k); var h' := Put(h, w.slot, w.obj);
            && Tidying(h', w.local) && Remaining(h') <= Remaining(h) && w.local.pc == ReadParentToo
            && (CalmTick(k) ==> Claim in h' && h'[Claim] == ClaimObj(w.local.cr))
  {
    PutBack(h, Claim);
  }

  lemma ParentStep(t: Tenant, h: Home, l: Local, k: Tick)
    requires Tidying(h, l) && l.pc.ReadParentToo? && k.fault.NoFault?
    ensures var w := Step(t, h, l, k); Put(h, w.slot, w.obj) == h && w.local == l.(pc := Drop(TRoute, Look)) && Tidying(h, w.local)
  {
    PutBack(h, ParentSlot);
  }

  lemma DropLook(t: Tenant, h: Home, l: Local, k: Tick)
    requires Running(l) && l.pc.Drop? && l.pc.act.Look? && k.fault.NoFault?
    ensures var w, x := Step(t, h, l, k), l.pc.target;
            Put(h, w.slot, w.obj) == h && w.local == l.(pc := if Child(x) in h then Drop(x, Fix) else AfterDrop(x))
  {
    PutBack(h, Child(l.pc.target));
  }

  lemma DropLookTidies(t: Tenant, h: Home, l: Local, k: Tick)
    requires Tidying(h, l) && l.pc.Drop? && l.pc.act.Look? && k.fault.NoFault?
    ensures var w := Step(t, h, l, k); Put(h, w.slot, w.obj) == h && Tidying(h, w.local)
  {
    DropLook(t, h, l, k);
    TakenDownLook(t, h, l, k);
  }

  /** A removal, successful or not, only takes away. */
  ghost predicate Taken(h: Home, h': Home, x: Target) {
    || h' == h || h' == h - {Child(x)}
    || (x.TNamespace? && Child(x) in h && h[Child(x)].NamespaceObj? && h' == h[Child(x) := h[Child(x)].(phase := Terminating)])
  }

  lemma TakenRemaining(h: Home, h': Home, x: Target)
    requires Taken(h, h', x)
    ensures Remaining(h') <= Remaining(h)
    ensures CleanedUp(h) ==> CleanedUp(h')
  {
  }

  lemma DropFix(t: Tenant, h: Home, l: Local, k: Tick)
    requires Running(l) && l.pc.Drop? && !l.pc.act.Look? && Typed(h)
    ensures var w, x := Step(t, h, l, k), l.pc.target;
            && Taken(h, Put(h, w.slot, w.obj), x)
            && (w.local == l.(pc := AfterDrop(x)) || w.local == l.(pc := After(10)))
            && (CalmTick(k) && Child(x) in h ==> w.local == l.(pc := AfterDrop(x)))
  {
    var s := Child(l.pc.target);
    PutBack(h, s);
    if s in h { assert Fits(s, h[s]); }
  }

  lemma DropFixTidies(t: Tenant, h: Home, l: Local, k: Tick)
    requires Orderly(h, l) && Tidying(h, l) && l.pc.Drop? && !l.pc.act.Look?
    ensures var w := Step(t, h, l, k); var h' := Put(h, w.slot, w.obj);
            Tidying(h', w.local) && Remaining(h') <= Remaining(h)
  {
    var w := Step(t, h, l, k);
    DropFix(t, h, l, k);
    TakenDownFix(t, h, l, k);
    TakenRemaining(h, Put(h, w.slot, w.obj), l.pc.target);
  }

  lemma ReleaseTidies(t: Tenant, h: Home, l: Local, k: Tick)
    requires Orderly(h, l) && Tidying(h, l) && l.pc.Release?
    ensures var w := Step(t, h, l, k); var h' := Put(h, w.slot, w.obj);
            && Tidying(h', w.local) && Remaining(h') <= Remaining(h)
            && (CalmTick(k) && h[Claim] == ClaimObj(l.cr) ==> Claim !in h')
  {
    ReleaseStep(t, h, l, k);
    assert CleanedUp(h);
  }

  lemma TidyingStep(t: Tenant, h: Home, l: Local, k: Tick)
    requires Orderly(h, l) && Tidying(h, l) && Running(l) && ReadAnswered(t, l, k)
    ensures var w := Step(t, h, l, k); var h' := Put(h, w.slot, w.obj);
            Tidying(h', w.local) && Remaining(h') <= Remaining(h)
  {
    if l.pc.ReadClaim? { ClaimStep(t, h, l, k); }
    else if l.pc.MarkDeleting? { MarkTidies(t, h, l, k); }
    else if l.pc.ReadParentToo? { ParentStep(t, h, l, k); }
    else if l.pc.Drop? {
      if l.pc.act.Look? { DropLookTidies(t, h, l, k); } else { DropFixTidies(t, h, l, k); }
    } else { ReleaseTidies(t, h, l, k); }
  }

  lemma {:induction false} TidyingBurst(t: Tenant, h: Home, l: Local, ks: seq<Tick>)
    requires Orderly(h, l) && Tidying(h, l) && ReadsAnswered(t, h, l, ks)
    ensures var (h', l') := Burst(t, h, l, ks); Tidying(h', l') && Remaining(h') <= Remaining(h)
    decreases |ks|
  {
    if |ks| > 0 && Running(l) {
      TidyingStep(t, h, l, ks[0]);
      StepKeepsOrderly(t, h, l, ks[0]);
      var w := Step(t, h, l, ks[0]);
      TidyingBurst(t, Put(h, w.slot, w.obj), w.local, ks[1..]);
    }
  }

  // ---------------------------------------------------------------- a calm pass gets to the end

  /** The resource that the pass remembers is the stored one, and what it is about to delete exists. */
  ghost predicate Certain(h: Home, l: Local) {
    && l.Pass?
    && (l.pc.Stop? ==> Claim !in h)
    && (l.pc.Drop? || l.pc.Release? || l.pc.ReadParentToo? ==> Claim in h && h[Claim] == ClaimObj(l.cr))
    && (l.pc.Drop? && !l.pc.act.Look? ==> Child(l.pc.target) in h)
  }

  lemma CertainDrop(t: Tenant, h: Home, l: Local, k: Tick)
    requires Orderly(h, l) && Tidying(h, l) && Certain(h, l) && l.pc.Drop? && CalmTick(k)
    ensures var w := Step(t, h, l, k); Certain(Put(h, w.slot, w.obj), w.local)
  {
    if l.pc.act.Look? { DropLook(t, h, l, k); }
    else { DropFix(t, h, l, k); }
  }

  lemma CertainStep(t: Tenant, h: Home, l: Local, k: Tick)
    requires Orderly(h, l) && Tidying(h, l) && Certain(h, l) && Running(l) && CalmTick(k)
    ensures var w := Step(t, h, l, k); Certain(Put(h, w.slot, w.obj), w.local)
  {
    if l.pc.ReadClaim? { ClaimStep(t, h, l, k); if Claim !in h { GoneStep(t, h, l, k); } }
    else if l.pc.MarkDeleting? { MarkTidies(t, h, l, k); }
    else if l.pc.ReadParentToo? { ParentStep(t, h, l, k); }
    else if l.pc.Drop? { CertainDrop(t, h, l, k); }
    else { ReleaseTidies(t, h, l, k); ReleaseStep(t, h, l, k); }
  }

  lemma GoneStep(t: Tenant, h: Home, l: Local, k: Tick)
    requires Running(l) && l.pc.ReadClaim? && Claim !in h && CalmTick(k)
    ensures var w := Step(t, h, l, k); Put(h, w.slot, w.obj) == h && w.local.pc.Stop?
  {
    PutBack(h, Claim);
  }

  lemma CalmAnswers(t: Tenant, l: Local, ks: seq<Tick>)
    requires Calm(ks) && |ks| > 0 && Running(l)
    ensures ReadAnswered(t, l, ks[0]) && Calm(ks[1..]) && CalmTick(ks[0])
  {
  }

  lemma {:induction false} CertainBurst(t: Tenant, h: Home, l: Local, ks: seq<Tick>)
    requires Orderly(h, l) && Tidying(h, l) && Certain(h, l) && Calm(ks)
    ensures var (h', l') := Burst(t, h, l, ks); Tidying(h', l') && Certain(h', l')
    decreases |ks|
  {
    if |ks| > 0 && Running(l) {
      CalmAnswers(t, l, ks);
      TidyingStep(t, h, l, ks[0]);
      CertainStep(t, h, l, ks[0]);
      StepKeepsOrderly(t, h, l, ks[0]);
      var w := Step(t, h, l, ks[0]);
      CertainBurst(t, Put(h, w.slot, w.obj), w.local, ks[1..]);
    }
  }

  /** A tenant on its way out, between passes. */
  ghost predicate Partial(h: Home) {
    Typed(h) && ParentSlot in h && (if Claim in h then Leaving(h) else CleanedUp(h))
  }

  /** Completeness: from any partially deleted state, one fault-free pass removes route, database and init
      job, starts the deletion of the namespace, and only then lets the custom resource go. */
  lemma FinalizationCompletes(t: Tenant, h: Home, ks: seq<Tick>)
    requires Partial(h) && Whole(ks)
    ensures Claim !in AfterPass(t, h, ks) && CleanedUp(AfterPass(t, h, ks)) && Remaining(AfterPass(t, h, ks)) == 0
  {
    InitiallyOrderly(h);
    CertainBurst(t, h, Begin(), ks);
    BurstEnds(t, h, Begin(), ks);
  }

  /** One pass whose reads are answered, with any failing writes and cut short anywhere, leaves the tenant
      partially deleted, with no more to do than before. */
  lemma PartialPass(t: Tenant, h: Home, ks: seq<Tick>)
    requires Partial(h) && ReadsAnswered(t, h, Begin(), ks)
    ensures Partial(AfterPass(t, h, ks)) && Remaining(AfterPass(t, h, ks)) <= Remaining(h)
  {
    InitiallyOrderly(h);
    TidyingBurst(t, h, Begin(), ks);
    BurstKeepsOrderly(t, h, Begin(), ks);
  }

  ghost function AfterPasses(t: Tenant, h: Home, passes: seq<seq<Tick>>): Home
    decreases |passes|
  {
    if |passes| == 0 then h else AfterPasses(t, AfterPass(t, h, passes[0]), passes[1..])
  }

  ghost predicate AllReadsAnswered(t: Tenant, h: Home, passes: seq<seq<Tick>>)
    decreases |passes|
  {
    |passes| > 0 ==>
      ReadsAnswered(t, h, Begin(), passes[0]) && AllReadsAnswered(t, AfterPass(t, h, passes[0]), passes[1..])
  }

  /** Restart: after any number of interrupted or failing passes whose reads were answered, either everything
      is already cleaned up or the custom resource is still there to bring the next pass, and one fault-free
      pass finishes. The custom resource never goes early. */
  lemma {:induction false} FinalizationRestarts(t: Tenant, h: Home, passes: seq<seq<Tick>>, last: seq<Tick>)
    requires Partial(h) && AllReadsAnswered(t, h, passes) && Whole(last)
    ensures var h1 := AfterPasses(t, h, passes);
            && Partial(h1) && Remaining(h1) <= Remaining(h)
            && Claim !in AfterPass(t, h1, last) && CleanedUp(AfterPass(t, h1, last))
    decreases |passes|
  {
    if |passes| == 0 {
      FinalizationCompletes(t, h, last);
    } else {
      PartialPass(t, h, passes[0]);
      FinalizationRestarts(t, AfterPass(t, h, passes[0]), passes[1..], last);
    }
  }

  // ---------------------------------------------------------------- what may be left

  /** Finalization leaves what stands in the namespace to the namespace. */
  lemma TidyingSpares(t: Tenant, h: Home, l: Local, k: Tick, x: Target)
    requires Orderly(h, l) && Tidying(h, l) && Running(l) && !Droppable(x)
    ensures var w := Step(t, h, l, k); At(Put(h, w.slot, w.obj), Child(x)) == At(h, Child(x))
  {
    if l.pc.Drop? { DropStep(t, h, l, k); } else { ClaimSet(t, h, l, k); }
  }

  lemma {:induction false} FinalizationSpares(t: Tenant, h: Home, l: Local, ks: seq<Tick>, x: Target)
    requires Orderly(h, l) && Tidying(h, l) && ReadsAnswered(t, h, l, ks) && !Droppable(x)
    ensures At(Burst(t, h, l, ks).0, Child(x)) == At(h, Child(x))
    decreases |ks|
  {
    if |ks| > 0 && Running(l) {
      TidyingSpares(t, h, l, ks[0], x);
      TidyingStep(t, h, l, ks[0]);
      StepKeepsOrderly(t, h, l, ks[0]);
      var w := Step(t, h, l, ks[0]);
      FinalizationSpares(t, Put(h, w.slot, w.obj), w.local, ks[1..], x);
    }
  }

  lemma {:induction false} CalmReadsAnswered(t: Tenant, h: Home, l: Local, ks: seq<Tick>)
    requires Calm(ks)
    ensures ReadsAnswered(t, h, l, ks)
    decreases |ks|
  {
    if |ks| > 0 && Running(l) {
      CalmAnswers(t, l, ks);
      var w := Step(t, h, l, ks[0]);
      CalmReadsAnswered(t, Put(h, w.slot, w.obj), w.local, ks[1..]);
    }
  }

  lemma {:induction false} PastSurvives(t: Tenant, h: Home, l: Local, ks: seq<Tick>, x: Target)
    requires l.Pass? && ErrorMeansGone(x) && Past(x, l.pc)
    ensures At(Burst(t, h, l, ks).0, Child(x)) == At(h, Child(x))
    decreases |ks|
  {
    if |ks| > 0 && Running(l) {
      SkippedSurvives(t, h, l, ks[0], x);
      var w := Step(t, h, l, ks[0]);
      PastSurvives(t, Put(h, w.slot, w.obj), w.local, ks[1..], x);
    }
  }

  /** A database or job whose read fails outlives the pass, to the removal of the finalizer and whatever faults
      come. */
  lemma SkippedSurvivesPass(t: Tenant, h: Home, l: Local, ks: seq<Tick>, x: Target)
    requires l.Pass? && l.pc == Drop(x, Look) && ErrorMeansGone(x) && |ks| > 0 && ks[0].fault.Transient?
    ensures At(Burst(t, h, l, ks).0, Child(x)) == At(h, Child(x))
  {
    var w := Step(t, h, l, ks[0]);
    PutBack(h, Child(x));
    PastSurvives(t, h, w.local, ks[1..], x);
  }

  lemma {:induction false} BurstKeepsHoused(t: Tenant, h: Home, l: Local, ks: seq<Tick>)
    requires Orderly(h, l) && Housed(h)
    ensures Housed(Burst(t, h, l, ks).0)
    decreases |ks|
  {
    if |ks| > 0 && Running(l) {
      StepKeepsOrderly(t, h, l, ks[0]);
      StepKeepsHoused(t, h, l, ks[0]);
      var w := Step(t, h, l, ks[0]);
      BurstKeepsHoused(t, Put(h, w.slot, w.obj), w.local, ks[1..]);
    }
  }

  /** A finished finalization leaves nothing that stands in the way of creating the tenant again. */
  lemma CompletedIsRecreatable(t: Tenant, h: Home, ks: seq<Tick>)
    requires Partial(h) && Housed(h) && Whole(ks)
    ensures Recreatable(AfterPass(t, h, ks))
  {
    FinalizationCompletes(t, h, ks);
    InitiallyOrderly(h);
    BurstKeepsHoused(t, h, Begin(), ks);
    CleanIsRecreatable(AfterPass(t, h, ks));
  }

  lemma CleanIsRecreatable(h: Home)
    requires CleanedUp(h) && Housed(h)
    ensures Recreatable(h)
  {
    if Child(TNamespace) !in h { EmptiedGated(h); }
  }
}
