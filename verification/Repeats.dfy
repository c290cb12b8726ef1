/** Passes in a row: doing the same again changes nothing, and suspending is undone by resuming. */
module Repeats {
  import opened Options
  import opened Objects
  import opened Tenants
  import opened Machine
  import opened Safety
  import opened Statuses
  import opened Passes
  import opened Outcomes

  // ---------------------------------------------------------------- recording the same conditions again

  lemma {:induction false} SetAgain(cs: seq<Condition>, c: Condition)
    requires Latest(cs, c.kind) == Some(c)
    ensures SetCondition(cs, c) == cs
  {
    if cs[0].kind != c.kind { SetAgain(cs[1..], c); }
  }

  lemma {:induction false} ExpectedLatest(h: Home, cs: seq<Condition>, generation: int, suspended: bool, n: nat, i: nat)
    requires i < n <= 9
    ensures Latest(Expected(h, cs, generation, suspended, n), Of(ComponentAt(i))) == Some(Observation(h, ComponentAt(i), suspended, generation))
  {
    LatestSet(Expected(h, cs, generation, suspended, n - 1), Observation(h, ComponentAt(n - 1), suspended, generation), Of(ComponentAt(i)));
    if i < n - 1 { ExpectedLatest(h, cs, generation, suspended, n - 1, i); }
  }

  lemma {:induction false} ExpectedAgain(h: Home, cs: seq<Condition>, generation: int, suspended: bool, n: nat)
    requires n <= 9
    ensures var once := Expected(h, cs, generation, suspended, 9); Expected(h, once, generation, suspended, n) == once
  {
    if n > 0 {
      ExpectedAgain(h, cs, generation, suspended, n - 1);
      ExpectedLatest(h, cs, generation, suspended, 9, n - 1);
      SetAgain(Expected(h, cs, generation, suspended, 9), Observation(h, ComponentAt(n - 1), suspended, generation));
    }
  }

  // ---------------------------------------------------------------- the same pass again

  lemma MadeAgain(t: Tenant, spec: Spec, parent: Parent, ctx: Context, was: Option<Obj>, x: Target)
    requires !IsSecret(x)
    ensures var now := Made(t, spec, parent, ctx, was, x); Made(t, spec, parent, ctx, now, x) == now
  {
    if Mended(x) {
      if spec.suspended { SuspendedMade(t, spec, parent, ctx, was, x); SuspendedMade(t, spec, parent, ctx, Made(t, spec, parent, ctx, was, x), x); }
      else { MendedAgain(t, spec, parent, ctx, was, x); }
    }
  }

  lemma MendedAgain(t: Tenant, spec: Spec, parent: Parent, ctx: Context, was: Option<Obj>, x: Target)
    requires Mended(x) && !spec.suspended
    ensures var now := Made(t, spec, parent, ctx, was, x); Made(t, spec, parent, ctx, now, x) == now
  {
    var d := Desired(t, spec, parent, ctx, map[], x);
    OverwriteAgain(d, if was.Some? then was.value else d);
  }

  /** Both passes work with the same credentials, because secrets are never rewritten. */
  lemma SameCredentials(t: Tenant, h0: Home, h1: Home, h2: Home)
    requires FullEnd(t, h0, h1) && FullEnd(t, h1, h2)
    ensures Stored(t, h2) == Stored(t, h1)
  {
    PrerequisitesStay(t, h1, h2, TJwt);
    PrerequisitesStay(t, h1, h2, TCreds);
  }

  lemma SameObject(t: Tenant, h0: Home, h1: Home, h2: Home, x: Target)
    requires FullEnd(t, h0, h1) && FullEnd(t, h1, h2)
    ensures At(h2, Child(x)) == At(h1, Child(x))
  {
    var spec, parent, ctx := h0[Claim].cr.spec, h0[ParentSlot].parent, Stored(t, h1);
    SameCredentials(t, h0, h1, h2);
    assert Dealing(t, At(h0, Child(x)), At(h1, Child(x)), spec, parent, ctx, x);
    assert Dealing(t, At(h1, Child(x)), At(h2, Child(x)), spec, parent, ctx, x);
    if !IsSecret(x) { MadeAgain(t, spec, parent, ctx, At(h0, Child(x)), x); }
  }

  lemma {:induction false} ExpectedSame(h: Home, h': Home, cs: seq<Condition>, generation: int, suspended: bool, n: nat)
    requires SameChildren(h, h') && n <= 9
    ensures Expected(h', cs, generation, suspended, n) == Expected(h, cs, generation, suspended, n)
  {
    if n > 0 {
      ExpectedSame(h, h', cs, generation, suspended, n - 1);
      HealthSame(h, h', ComponentAt(n - 1), suspended);
    }
  }

  lemma HealthSame(h: Home, h': Home, c: Component, suspended: bool)
    requires SameChildren(h, h')
    ensures Health(h', c, suspended) == Health(h, c, suspended)
  {
    match c
    case CNamespace => assert At(h', Child(TNamespace)) == At(h, Child(TNamespace));
    case CDatabase =>
      assert At(h', Child(TDatabase)) == At(h, Child(TDatabase)) && At(h', Child(TJob)) == At(h, Child(TJob));
    case CService(svc) => assert At(h', Child(TDeploy(svc))) == At(h, Child(TDeploy(svc)));
    case _ =>
  }

  lemma StatusAgain(t: Tenant, h: Home, h': Home, cr: TenantCR, parent: Parent)
    requires SameChildren(h, h')
    ensures var once := ExpectedStatus(t, h, cr, parent);
            ExpectedStatus(t, h', cr.(status := once), parent) == once
  {
    var once := Expected(h, cr.status.conditions, cr.generation, cr.spec.suspended, 9);
    ExpectedSame(h, h', once, cr.generation, cr.spec.suspended, 9);
    ExpectedAgain(h, cr.status.conditions, cr.generation, cr.spec.suspended, 9);
    forall svc ensures Health(h', CService(svc), false) == Health(h, CService(svc), false) {
      HealthSame(h, h', CService(svc), false);
    }
  }

  lemma SameEverywhere(h: Home, h': Home)
    requires SameChildren(h, h') && Around(h, h') && At(h', Claim) == At(h, Claim)
    ensures h' == h
  {
    forall s: Slot ensures At(h', s) == At(h, s) {
      match s
      case Child(x) => assert At(h', Child(x)) == At(h, Child(x));
      case _ =>
    }
    forall s: Slot ensures s in h' <==> s in h { assert At(h', s) == At(h, s); }
    forall s: Slot | s in h ensures h'[s] == h[s] { assert At(h', s) == At(h, s); }
  }

  lemma FullTwice(t: Tenant, h0: Home, h1: Home, h2: Home)
    requires FullEnd(t, h0, h1) && FullEnd(t, h1, h2)
    ensures h2 == h1
  {
    forall x: Target ensures At(h2, Child(x)) == At(h1, Child(x)) { SameObject(t, h0, h1, h2, x); }
    StatusAgain(t, h1, h2, h0[Claim].cr, h0[ParentSlot].parent);
    SameEverywhere(h1, h2);
  }

  lemma StillWanted(t: Tenant, h0: Home, h1: Home)
    requires Wanted(h0) && FullEnd(t, h0, h1)
    ensures Wanted(h1) && Prepared(h1)
  {
  }

  /** Idempotence: after a calm pass that reaches routing, another one, with whatever luck, leaves every
      object, every annotation and the persisted status exactly as they are - active or suspended. */
  lemma Idempotent(t: Tenant, h: Home, ks: seq<Tick>, again: seq<Tick>)
    requires Sound(t, h, Idle) && Wanted(h) && Prepared(h) && Whole(ks) && Whole(again)
    ensures AfterPass(t, AfterPass(t, h, ks), again) == AfterPass(t, h, ks)
  {
    PassOutcome(t, h, ks);
    var h1 := AfterPass(t, h, ks);
    StillWanted(t, h, h1);
    PassOutcome(t, h1, again);
    FullTwice(t, h, h1, AfterPass(t, h1, again));
  }

  // ---------------------------------------------------------------- the condition that nothing clears

  lemma {:induction false} ExpectedOverall(h: Home, cs: seq<Condition>, generation: int, suspended: bool, n: nat)
    requires n <= 9
    ensures Latest(Expected(h, cs, generation, suspended, n), Overall) == Latest(cs, Overall)
  {
    if n > 0 {
      LatestSet(Expected(h, cs, generation, suspended, n - 1), Observation(h, ComponentAt(n - 1), suspended, generation), Overall);
      ExpectedOverall(h, cs, generation, suspended, n - 1);
    }
  }

  /** The condition that an unresolved parent left behind stays as it was, false, through every calm full
      pass, including those that report the phase Ready. */
  lemma OverallNeverCleared(t: Tenant, h: Home, ks: seq<Tick>)
    requires Sound(t, h, Idle) && Wanted(h) && Prepared(h) && Whole(ks)
    ensures var h1 := AfterPass(t, h, ks);
            && Claim in h1 && h1[Claim].ClaimObj?
            && Latest(h1[Claim].cr.status.conditions, Overall) == Latest(h[Claim].cr.status.conditions, Overall)
  {
    PassOutcome(t, h, ks);
    var h1 := AfterPass(t, h, ks);
    var cr := h[Claim].cr;
    ExpectedOverall(h1, cr.status.conditions, cr.generation, cr.spec.suspended, 9);
  }

  // ---------------------------------------------------------------- suspend and resume

  /** Between two passes the user may toggle `suspended`, and the platform may move replica counts. */
  ghost predicate AlikeObj(o: Option<Obj>, p: Option<Obj>) {
    o == p || (o.Some? && p.Some? && o.value.DeploymentObj? && p.value.DeploymentObj? && p.value == o.value.(ready := p.value.ready))
  }

  ghost predicate Alike(h: Home, h': Home) {
    forall x: Target :: AlikeObj(At(h, Child(x)), At(h', Child(x)))
  }

  ghost predicate Toggled(h: Home, h': Home, suspended: bool) {
    && Claim in h && h[Claim].ClaimObj? && Claim in h' && h'[Claim].ClaimObj?
    && h'[Claim].cr == h[Claim].cr.(spec := h[Claim].cr.spec.(suspended := suspended), generation := h[Claim].cr.generation + 1)
    && Around(h, h') && Alike(h, h')
  }

  lemma AlikePrepared(h: Home, h': Home)
    requires Alike(h, h')
    ensures Prepared(h') == Prepared(h)
  {
    assert AlikeObj(At(h, Child(TNamespace)), At(h', Child(TNamespace)));
    assert AlikeObj(At(h, Child(TDatabase)), At(h', Child(TDatabase)));
    assert AlikeObj(At(h, Child(TJob)), At(h', Child(TJob)));
  }

  lemma ToggledPrepared(h: Home, h': Home, suspended: bool)
    requires Wanted(h) && Prepared(h) && Toggled(h, h', suspended)
    ensures Wanted(h') && Prepared(h')
  {
    AlikePrepared(h, h');
  }

  lemma AlikeSound(t: Tenant, h: Home, h': Home)
    requires Typed(h) && Gated(h) && Agreed(t, h) && Alike(h, h')
    requires At(h', Claim).Some? && At(h', Claim).value.ClaimObj?
    requires Around(h, h')
    ensures Typed(h') && Gated(h') && Agreed(t, h')
  {
    forall s | s in h' ensures Fits(s, h'[s]) {
      if s.Child? { assert AlikeObj(At(h, s), At(h', s)); }
      else if !s.Claim? { assert At(h', s) == At(h, s); }
    }
    AlikeGated(h, h');
    AlikeAgreed(t, h, h');
  }

  lemma AlikeGated(h: Home, h': Home)
    requires Gated(h) && Alike(h, h')
    ensures Gated(h')
  {
    forall x: Target ensures Child(x) in h' <==> Child(x) in h { assert AlikeObj(At(h, Child(x)), At(h', Child(x))); }
    assert AlikeObj(At(h, Child(TNamespace)), At(h', Child(TNamespace)));
    assert AlikeObj(At(h, Child(TJob)), At(h', Child(TJob)));
  }

  lemma AlikeSecret(h: Home, h': Home, x: Target)
    requires Alike(h, h') && Typed(h) && IsSecret(x)
    ensures At(h', Child(x)) == At(h, Child(x))
  {
    assert AlikeObj(At(h, Child(x)), At(h', Child(x)));
    if Child(x) in h { assert Fits(Child(x), h[Child(x)]); }
  }

  lemma AlikeCarries(t: Tenant, x: Target, o: Obj, p: Obj, ctx: Context)
    requires AlikeObj(Some(o), Some(p)) && Carries(t, x, o, ctx)
    ensures Carries(t, x, p, ctx)
  {
  }

  lemma AlikeAgreed(t: Tenant, h: Home, h': Home)
    requires Agreed(t, h) && Alike(h, h') && Typed(h)
    ensures Agreed(t, h')
  {
    AlikeSecret(h, h', TJwt);
    AlikeSecret(h, h', TCreds);
    if Child(TJwt) in h && Child(TCreds) in h {
      SameStored(t, h, h');
      forall x: Target | Child(x) in h' ensures Carries(t, x, h'[Child(x)], Stored(t, h')) {
        assert AlikeObj(At(h, Child(x)), At(h', Child(x)));
        AlikeCarries(t, x, h[Child(x)], h'[Child(x)], Stored(t, h));
      }
    }
  }

  lemma SameStored(t: Tenant, h: Home, h': Home)
    requires At(h', Child(TJwt)) == At(h, Child(TJwt)) && At(h', Child(TCreds)) == At(h, Child(TCreds))
    requires Child(TJwt) in h && Child(TCreds) in h
    ensures Child(TJwt) in h' && Child(TCreds) in h' && Stored(t, h') == Stored(t, h)
  {
  }

  lemma ToggledSound(t: Tenant, h: Home, h': Home, suspended: bool)
    requires Sound(t, h, Idle) && Wanted(h) && Toggled(h, h', suspended)
    ensures Sound(t, h', Idle)
  {
    assert Live(h, Idle);
    AlikeSound(t, h, h');
  }

  /** What a suspended pass makes of each object. */
  ghost predicate Silenced(was: Option<Obj>, now: Option<Obj>, x: Target) {
    match x
    case TDeploy(_) => (now.Some? <==> was.Some?) && (now.Some? ==> now.value == Scaled(was.value))
    case TRoute => now.None?
    case _ => now == was
  }

  lemma SuspendedDealing(t: Tenant, was: Option<Obj>, now: Option<Obj>, spec: Spec, parent: Parent, ctx: Context, x: Target)
    requires Dealing(t, was, now, spec, parent, ctx, x) && spec.suspended && (Mended(x) || was.Some?)
    ensures Silenced(was, now, x)
  {
    if Mended(x) { SuspendedMade(t, spec, parent, ctx, was, x); }
  }

  /** After a full pass all prerequisites exist. */
  lemma FullExists(t: Tenant, h0: Home, h1: Home, x: Target)
    requires FullEnd(t, h0, h1) && !Mended(x)
    ensures Child(x) in h1
  {
    assert Dealing(t, At(h0, Child(x)), At(h1, Child(x)), h0[Claim].cr.spec, h0[ParentSlot].parent, Stored(t, h1), x);
  }

  /** A calm pass over a prepared tenant that is suspended scales every deployment to zero, changing nothing
      else about it, removes the route, creates nothing but missing prerequisites and leaves everything else
      alone. */
  lemma SuspendedPass(t: Tenant, h: Home, ks: seq<Tick>)
    requires Sound(t, h, Idle) && Wanted(h) && Prepared(h) && Whole(ks) && h[Claim].cr.spec.suspended
    ensures var h1 := AfterPass(t, h, ks);
            && (forall x: Target :: Mended(x) || Child(x) in h ==> Silenced(At(h, Child(x)), At(h1, Child(x)), x))
            && (forall x: Target :: !Mended(x) ==> Child(x) in h1)
            && Claim in h1 && h1[Claim].ClaimObj? && h1[Claim].cr.status.phase == Suspended
  {
    PassOutcome(t, h, ks);
    var h1 := AfterPass(t, h, ks);
    forall x: Target | !Mended(x) ensures Child(x) in h1 { FullExists(t, h, h1, x); }
    forall x: Target | Mended(x) || Child(x) in h ensures Silenced(At(h, Child(x)), At(h1, Child(x)), x) {
      SuspendedDealing(t, At(h, Child(x)), At(h1, Child(x)), h[Claim].cr.spec, h[ParentSlot].parent, Stored(t, h1), x);
    }
  }

  /** The object that an active pass makes does not depend on what a suspended pass did to it before. */
  lemma MadeOver(t: Tenant, spec: Spec, parent: Parent, ctx: Context, o0: Option<Obj>, o1: Option<Obj>, p1: Option<Obj>,
                 o2: Option<Obj>, p2: Option<Obj>, x: Target)
    requires !spec.suspended && Mended(x)
    requires o1 == Made(t, spec, parent, ctx, o0, x) && (o0.Some? ==> Fits(Child(x), o0.value))
    requires AlikeObj(o1, p1) && Silenced(p1, o2, x) && AlikeObj(o2, p2)
    ensures AlikeObj(o1, Made(t, spec, parent, ctx, p2, x))
  {
    var p := Mending(t, spec, parent, ctx, x);
    if o0.Some? { assert o1.value == Patched(o0.value, p); }
    assert o1.Some? && Fits(Child(x), o1.value);
    match x
    case TDeploy(_) =>
    case TService(_) => assert p2 == o1;
    case TRoute => assert p2 == None;
  }

  ghost predicate Chain(t: Tenant, h: Home, h1: Home, s: Home, h2: Home, r: Home) {
    && Sound(t, h, Idle) && Wanted(h) && Prepared(h) && !h[Claim].cr.spec.suspended
    && FullEnd(t, h, h1) && Typed(h1) && Toggled(h1, s, true) && Wanted(s) && Prepared(s)
    && FullEnd(t, s, h2) && Toggled(h2, r, false) && Wanted(r) && Prepared(r)
    && (forall x: Target :: Mended(x) ==> Silenced(At(s, Child(x)), At(h2, Child(x)), x))
  }

  lemma ChainMended(t: Tenant, h: Home, h1: Home, s: Home, h2: Home, r: Home, h3: Home, x: Target)
    requires Chain(t, h, h1, s, h2, r) && FullEnd(t, r, h3) && Stored(t, h3) == Stored(t, h1)
    requires Mended(x)
    ensures AlikeObj(At(h1, Child(x)), At(h3, Child(x)))
  {
    var spec, parent, ctx := h[Claim].cr.spec, h[ParentSlot].parent, Stored(t, h1);
    assert Dealing(t, At(h, Child(x)), At(h1, Child(x)), spec, parent, ctx, x);
    assert Dealing(t, At(r, Child(x)), At(h3, Child(x)), spec, parent, ctx, x);
    if Child(x) in h { assert Fits(Child(x), h[Child(x)]); }
    MadeOver(t, spec, parent, ctx, At(h, Child(x)), At(h1, Child(x)), At(s, Child(x)), At(h2, Child(x)), At(r, Child(x)), x);
  }

  lemma ChainPrerequisite(t: Tenant, h: Home, h1: Home, s: Home, h2: Home, r: Home, h3: Home, x: Target)
    requires Chain(t, h, h1, s, h2, r) && FullEnd(t, r, h3)
    requires !Mended(x)
    ensures At(h3, Child(x)) == At(h1, Child(x))
  {
    FullExists(t, h, h1, x);
    assert !h1[Child(x)].DeploymentObj? by { assert Fits(Child(x), h1[Child(x)]); }
    assert AlikeObj(At(h1, Child(x)), At(s, Child(x)));
    PrerequisitesStay(t, s, h2, x);
    assert AlikeObj(At(h2, Child(x)), At(r, Child(x)));
    PrerequisitesStay(t, r, h3, x);
  }

  /** Suspend and resume: an active, a suspended and an active calm pass, with replica counts moving freely
      in between, restore every object of the first - deployment specs with their replicas, credentials and
      hash annotation, services and the route - up to the ready counts that the platform owns. */
  lemma SuspendResume(t: Tenant, h: Home, s: Home, r: Home, ks: seq<Tick>, js: seq<Tick>, ls: seq<Tick>)
    requires Sound(t, h, Idle) && Wanted(h) && Prepared(h) && !h[Claim].cr.spec.suspended
    requires Whole(ks) && Whole(js) && Whole(ls)
    requires Toggled(AfterPass(t, h, ks), s, true) && Toggled(AfterPass(t, s, js), r, false)
    ensures Alike(AfterPass(t, h, ks), AfterPass(t, r, ls))
  {
    var h1, h2, h3 := AfterPass(t, h, ks), AfterPass(t, s, js), AfterPass(t, r, ls);
    PassOutcome(t, h, ks);
    StillWanted(t, h, h1);
    ToggledSound(t, h1, s, true);
    ToggledPrepared(h1, s, true);
    PassOutcome(t, s, js);
    SuspendedPass(t, s, js);
    StillWanted(t, s, h2);
    ToggledSound(t, h2, r, false);
    ToggledPrepared(h2, r, false);
    PassOutcome(t, r, ls);
    AllRestored(t, h, h1, s, h2, r, h3);
  }

  lemma AllRestored(t: Tenant, h: Home, h1: Home, s: Home, h2: Home, r: Home, h3: Home)
    requires Chain(t, h, h1, s, h2, r) && FullEnd(t, r, h3)
    ensures Alike(h1, h3)
  {
    ChainPrerequisite(t, h, h1, s, h2, r, h3, TJwt);
    ChainPrerequisite(t, h, h1, s, h2, r, h3, TCreds);
    assert Stored(t, h3) == Stored(t, h1);
    forall x: Target ensures AlikeObj(At(h1, Child(x)), At(h3, Child(x))) {
      if Mended(x) { ChainMended(t, h, h1, s, h2, r, h3, x); } else { ChainPrerequisite(t, h, h1, s, h2, r, h3, x); }
    }
  }
}
