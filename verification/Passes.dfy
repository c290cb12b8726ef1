/** Whole passes, with nobody else writing to the tenant meanwhile: what a fault-free pass leaves behind. */
module Passes {
  import opened Options
  import opened Objects
  import opened Tenants
  import opened Machine
  import opened Safety
  import opened Orders
  import opened Statuses
  import Credentials

  /** The next calls of a pass, one per tick, until it ends or the ticks run out (a crash). */
  ghost function Burst(t: Tenant, h: Home, l: Local, ks: seq<Tick>): (Home, Local)
    decreases |ks|
  {
    if |ks| == 0 || !Running(l) then (h, l)
    else
      var w := Step(t, h, l, ks[0]);
      Burst(t, Put(h, w.slot, w.obj), w.local, ks[1..])
  }

  ghost predicate CalmTick(k: Tick) {
    k.fault.NoFault? && k.luck.drawn
  }

  ghost predicate Calm(ks: seq<Tick>) {
    forall i :: 0 <= i < |ks| ==> CalmTick(ks[i])
  }

  /** The first call of a burst, and the rest. */
  lemma BurstFirst(t: Tenant, h: Home, l: Local, k: Tick, rest: seq<Tick>, h1: Home, m: Local)
    requires Running(l)
    requires var w := Step(t, h, l, k); h1 == Put(h, w.slot, w.obj) && m == w.local
    ensures Burst(t, h, l, [k] + rest) == Burst(t, h1, m, rest)
  {
    assert ([k] + rest)[1..] == rest;
  }

  lemma {:induction false} BurstKeepsSound(t: Tenant, h: Home, l: Local, ks: seq<Tick>)
    requires Sound(t, h, l)
    ensures Sound(t, Burst(t, h, l, ks).0, Burst(t, h, l, ks).1)
    decreases |ks|
  {
    if |ks| > 0 && Running(l) {
      StepKeepsSound(t, h, l, ks[0]);
      var w := Step(t, h, l, ks[0]);
      BurstKeepsSound(t, Put(h, w.slot, w.obj), w.local, ks[1..]);
    }
  }

  lemma {:induction false} BurstKeepsOrderly(t: Tenant, h: Home, l: Local, ks: seq<Tick>)
    requires Orderly(h, l)
    ensures Orderly(Burst(t, h, l, ks).0, Burst(t, h, l, ks).1)
    decreases |ks|
  {
    if |ks| > 0 && Running(l) {
      StepKeepsOrderly(t, h, l, ks[0]);
      var w := Step(t, h, l, ks[0]);
      BurstKeepsOrderly(t, Put(h, w.slot, w.obj), w.local, ks[1..]);
    }
  }

  /** Every pass comes to an end within 112 calls. */
  lemma {:induction false} BurstEnds(t: Tenant, h: Home, l: Local, ks: seq<Tick>)
    requires l.Pass? && |ks| >= Rank(l.pc)
    ensures Burst(t, h, l, ks).1.Pass? && Burst(t, h, l, ks).1.pc.Stop?
    decreases |ks|
  {
    if Running(l) {
      StepDescends(t, h, l, ks[0]);
      var w := Step(t, h, l, ks[0]);
      BurstEnds(t, Put(h, w.slot, w.obj), w.local, ks[1..]);
    }
  }

  // ---------------------------------------------------------------- the work of a pass, object by object

  /** The position of an object in a pass. */
  function Turn(x: Target): nat {
    match x
    case TNamespace => 0
    case TPolicy => 1
    case TJwt => 2
    case TCreds => 3
    case TDatabase => 4
    case TJob => 5
    case TDeploy(svc) => 2 * Place(CService(svc))
    case TService(svc) => 2 * Place(CService(svc)) + 1
    case TRoute => 16
  }

  /** The number of objects that a pass has dealt with at a point. */
  function Dealt(pc: PC): nat {
    match pc
    case Ensure(x, _) => Turn(x)
    case Check(x) =>
      (match x
       case TNamespace => 2
       case TPolicy => 2
       case TJwt => 4
       case TCreds => 4
       case TDatabase => 6
       case TJob => 6
       case TDeploy(svc) => 2 * Place(CService(svc)) + 2
       case TService(svc) => 2 * Place(CService(svc)) + 2
       case TRoute => 17)
    case Quiesce(svc, _) => 2 * Place(CService(svc))
    case Unroute(_) => 16
    case Report => 17
    case _ => 0
  }

  predicate IsSecret(x: Target) { x.TJwt? || x.TCreds? }

  /** What a pass makes of an object it found, or did not find. */
  ghost function Made(t: Tenant, spec: Spec, parent: Parent, ctx: Context, was: Option<Obj>, x: Target): Option<Obj> {
    if spec.suspended && Mended(x) then
      if x.TDeploy? && was.Some? then Some(Patched(was.value, Scale(0)))
      else if x.TRoute? then None
      else was
    else if was.None? then Some(Desired(t, spec, parent, ctx, map[], x))
    else if Mended(x) then Some(Patched(was.value, Mending(t, spec, parent, ctx, x)))
    else was
  }

  /** A secret that was there stays; a missing one is there afterwards. */
  ghost predicate SecretMade(was: Option<Obj>, now: Option<Obj>) {
    now.Some? && now.value.SecretObj? && (was.Some? ==> now == was)
  }

  ghost predicate Dealing(t: Tenant, was: Option<Obj>, now: Option<Obj>, spec: Spec, parent: Parent, ctx: Context, x: Target) {
    if IsSecret(x) then SecretMade(was, now) else now == Made(t, spec, parent, ctx, was, x)
  }

  /** What a point says about the object at hand. */
  ghost predicate Seen(h: Home, l: Local)
    requires l.Pass?
  {
    match l.pc
    case Ensure(x, Look) => Mended(x) ==> !l.cr.spec.suspended
    case Ensure(x, Add) => Child(x) !in h && (Mended(x) ==> !l.cr.spec.suspended)
    case Ensure(x, Fix) => Child(x) in h && Mended(x) && !l.cr.spec.suspended
    case Check(x) => !x.TPolicy? && (Mended(x) ==> !l.cr.spec.suspended && !x.TService?)
    case Quiesce(svc, act) => l.cr.spec.suspended && (!act.Look? ==> Child(TDeploy(svc)) in h)
    case Unroute(act) => l.cr.spec.suspended && (!act.Look? ==> Child(TRoute) in h)
    case _ => true
  }

  /** The surroundings that a pass only reads. */
  ghost predicate Around(h0: Home, h: Home) {
    At(h, ParentSlot) == At(h0, ParentSlot) && At(h, Platform) == At(h0, Platform)
  }

  /** A tenant that is wanted, with its parent and the platform namespace in place. */
  ghost predicate Ready0(h0: Home) {
    && Claim in h0 && h0[Claim].ClaimObj? && ParentSlot in h0 && h0[ParentSlot].ParentObj? && OpenAt(At(h0, Platform))
  }

  ghost predicate DealtUpTo(t: Tenant, h0: Home, h: Home, l: Local, n: nat)
    requires l.Pass?
  {
    && (forall x: Target :: Turn(x) < n ==>
          Dealing(t, At(h0, Child(x)), At(h, Child(x)), l.cr.spec, l.parent, ContextFor(t, l), x))
    && (forall x: Target :: Turn(x) >= n ==> At(h, Child(x)) == At(h0, Child(x)))
  }

  /** A pass stands at a point: the objects before it are made, the others untouched. */
  ghost predicate OnTrack(t: Tenant, h0: Home, h: Home, l: Local) {
    && l.Pass? && Ready0(h0) && l.cr == h0[Claim].cr && l.parent == h0[ParentSlot].parent
    && Around(h0, h) && At(h, Claim) == At(h0, Claim)
    && DealtUpTo(t, h0, h, l, Dealt(l.pc))
    && Seen(h, l)
  }

  lemma TurnUnique(x: Target, y: Target)
    requires Turn(x) == Turn(y)
    ensures x == y
  {
  }

  /** Before both secrets are known, nothing made so far depends on them. */
  lemma EarlyMade(t: Tenant, spec: Spec, parent: Parent, c: Context, d: Context, was: Option<Obj>, x: Target)
    requires x.TNamespace? || x.TPolicy?
    ensures Made(t, spec, parent, c, was, x) == Made(t, spec, parent, d, was, x)
  {
  }

  /** The context may change as long as only namespace, policy and secrets have been dealt with. */
  lemma ContextShift(t: Tenant, h0: Home, h: Home, l: Local, m: Local)
    requires l.Pass? && m.Pass? && m.cr == l.cr && m.parent == l.parent
    requires forall x: Target :: Turn(x) < 4 && Turn(x) < Dealt(l.pc) ==>
               Dealing(t, At(h0, Child(x)), At(h, Child(x)), l.cr.spec, l.parent, ContextFor(t, l), x)
    ensures forall x: Target :: Turn(x) < 4 && Turn(x) < Dealt(l.pc) ==>
              Dealing(t, At(h0, Child(x)), At(h, Child(x)), m.cr.spec, m.parent, ContextFor(t, m), x)
  {
    forall x: Target | Turn(x) < 4 && Turn(x) < Dealt(l.pc)
      ensures Dealing(t, At(h0, Child(x)), At(h, Child(x)), m.cr.spec, m.parent, ContextFor(t, m), x)
    {
      if !IsSecret(x) {
        EarlyMade(t, l.cr.spec, l.parent, ContextFor(t, l), ContextFor(t, m), At(h0, Child(x)), x);
      }
    }
  }

  // ---------------------------------------------------------------- a calm step, point by point

  lemma NextTurn(x: Target)
    ensures Dealt(AfterEnsure(x)) == Turn(x) + 1
  {
  }

  /** One object more is dealt with: its new contents are right, the rest is as before. */
  lemma Advance(t: Tenant, h0: Home, h: Home, h': Home, l: Local, m: Local, x: Target)
    requires OnTrack(t, h0, h, l) && l.pc.Ensure? && l.pc.target == x
    requires m.Pass? && m.cr == l.cr && m.parent == l.parent && m.pc == AfterEnsure(x)
    requires ContextFor(t, m) == ContextFor(t, l) || Turn(x) < 4
    requires forall s :: s != Child(x) ==> At(h', s) == At(h, s)
    requires Dealing(t, At(h0, Child(x)), At(h', Child(x)), m.cr.spec, m.parent, ContextFor(t, m), x)
    requires Seen(h', m)
    ensures OnTrack(t, h0, h', m)
  {
    NextTurn(x);
    ContextShift(t, h0, h, l, m);
    forall y: Target | Turn(y) < Dealt(m.pc)
      ensures Dealing(t, At(h0, Child(y)), At(h', Child(y)), m.cr.spec, m.parent, ContextFor(t, m), y)
    {
      if Turn(y) == Turn(x) { TurnUnique(y, x); }
    }
    forall y: Target | Turn(y) >= Dealt(m.pc) ensures At(h', Child(y)) == At(h0, Child(y)) {
      assert y != x;
    }
  }

  lemma SeenNext(h: Home, l: Local, m: Local, x: Target)
    requires l.Pass? && m.Pass? && m.cr == l.cr && l.pc.Ensure? && l.pc.target == x && m.pc == AfterEnsure(x) && Seen(h, l)
    ensures forall h' :: Seen(h', m)
  {
  }

  lemma CalmLook(t: Tenant, h0: Home, h: Home, l: Local, k: Tick)
    requires OnTrack(t, h0, h, l) && Typed(h) && CalmTick(k) && l.pc.Ensure? && l.pc.act.Look?
    ensures var w := Step(t, h, l, k); Put(h, w.slot, w.obj) == h && OnTrack(t, h0, h, w.local)
  {
    var x, s := l.pc.target, Child(l.pc.target);
    PutBack(h, s);
    var m := Step(t, h, l, k).local;
    assert At(h, s) == At(h0, s);
    if s in h {
      assert Fits(s, h[s]);
      if !Mended(x) {
        SeenNext(h, l, m, x);
        Advance(t, h0, h, h, l, m, x);
      }
    } else {
      ContextShift(t, h0, h, l, m);
    }
  }

  /** The object at hand is as the pass found it. */
  lemma FoundUntouched(t: Tenant, h0: Home, h: Home, l: Local)
    requires OnTrack(t, h0, h, l) && l.pc.Ensure?
    ensures At(h, Child(l.pc.target)) == At(h0, Child(l.pc.target))
    ensures l.pc.act.Add? ==> At(h, Child(l.pc.target)) == None
    ensures l.pc.act.Add? && Mended(l.pc.target) ==> !l.cr.spec.suspended
    ensures l.pc.act.Fix? ==> At(h, Child(l.pc.target)).Some? && Mended(l.pc.target) && !l.cr.spec.suspended
  {
  }

  /** Putting the wanted object in place moves the pass on. */
  lemma Placed(t: Tenant, h0: Home, h: Home, l: Local, x: Target, o: Obj)
    requires OnTrack(t, h0, h, l) && l.pc.Ensure? && l.pc.target == x
    requires Dealing(t, At(h0, Child(x)), Some(o), l.cr.spec, l.parent, ContextFor(t, l), x)
    ensures OnTrack(t, h0, h[Child(x) := o], l.(pc := AfterEnsure(x)))
  {
    var m := l.(pc := AfterEnsure(x));
    SeenNext(h, l, m, x);
    Advance(t, h0, h, h[Child(x) := o], l, m, x);
  }

  lemma AddShape(t: Tenant, h: Home, l: Local, k: Tick)
    requires l.Pass? && l.pc.Ensure? && l.pc.act.Add? && CalmTick(k) && Child(l.pc.target) !in h && Open(h, Child(l.pc.target))
    ensures var w, x := Step(t, h, l, k), l.pc.target;
            w.slot == Child(x) && w.obj == Some(DesiredBy(t, l, x)) && w.local == l.(pc := AfterEnsure(x))
  {
  }

  lemma AddOnTrack(t: Tenant, h0: Home, h: Home, l: Local, x: Target)
    requires OnTrack(t, h0, h, l) && l.pc == Ensure(x, Add)
    ensures OnTrack(t, h0, h[Child(x) := DesiredBy(t, l, x)], l.(pc := AfterEnsure(x)))
  {
    FoundUntouched(t, h0, h, l);
    DesiredFits(t, l, x);
    MadeMissing(t, l.cr.spec, l.parent, ContextFor(t, l), DesiredBy(t, l, x), x);
    Placed(t, h0, h, l, x, DesiredBy(t, l, x));
  }

  lemma CalmAdd(t: Tenant, h0: Home, h: Home, l: Local, k: Tick)
    requires OnTrack(t, h0, h, l) && CalmTick(k) && l.pc.Ensure? && l.pc.act.Add?
    requires Open(h, Child(l.pc.target))
    ensures var w, x := Step(t, h, l, k), l.pc.target;
            Put(h, w.slot, w.obj) == h[Child(x) := DesiredBy(t, l, x)] && w.local == l.(pc := AfterEnsure(x))
            && OnTrack(t, h0, Put(h, w.slot, w.obj), w.local)
  {
    AddShape(t, h, l, k);
    AddOnTrack(t, h0, h, l, l.pc.target);
  }

  lemma FixShape(t: Tenant, h: Home, l: Local, k: Tick)
    requires l.Pass? && l.pc.Ensure? && l.pc.act.Fix? && CalmTick(k) && Child(l.pc.target) in h && Mended(l.pc.target)
    ensures var w, x := Step(t, h, l, k), l.pc.target;
            w.slot == Child(x) && w.local == l.(pc := AfterEnsure(x))
            && w.obj == Some(Patched(h[Child(x)], Mending(t, l.cr.spec, l.parent, ContextFor(t, l), x)))
  {
  }

  lemma MadeFound(t: Tenant, spec: Spec, parent: Parent, ctx: Context, was: Obj, x: Target)
    requires Mended(x) && !spec.suspended
    ensures Dealing(t, Some(was), Some(Patched(was, Mending(t, spec, parent, ctx, x))), spec, parent, ctx, x)
  {
  }

  lemma MadeMissing(t: Tenant, spec: Spec, parent: Parent, ctx: Context, now: Obj, x: Target)
    requires Mended(x) ==> !spec.suspended
    requires if IsSecret(x) then now.SecretObj? else now == Desired(t, spec, parent, ctx, map[], x)
    ensures Dealing(t, None, Some(now), spec, parent, ctx, x)
  {
  }

  lemma FixOnTrack(t: Tenant, h0: Home, h: Home, l: Local, x: Target)
    requires OnTrack(t, h0, h, l) && l.pc == Ensure(x, Fix)
    ensures OnTrack(t, h0, h[Child(x) := Patched(h[Child(x)], Mending(t, l.cr.spec, l.parent, ContextFor(t, l), x))], l.(pc := AfterEnsure(x)))
  {
    FoundUntouched(t, h0, h, l);
    MadeFound(t, l.cr.spec, l.parent, ContextFor(t, l), h[Child(x)], x);
    Placed(t, h0, h, l, x, Patched(h[Child(x)], Mending(t, l.cr.spec, l.parent, ContextFor(t, l), x)));
  }

  lemma CalmFix(t: Tenant, h0: Home, h: Home, l: Local, k: Tick)
    requires OnTrack(t, h0, h, l) && CalmTick(k) && l.pc.Ensure? && l.pc.act.Fix?
    ensures var w, x := Step(t, h, l, k), l.pc.target;
            w.local == l.(pc := AfterEnsure(x)) && OnTrack(t, h0, Put(h, w.slot, w.obj), w.local)
  {
    FixShape(t, h, l, k);
    FixOnTrack(t, h0, h, l, l.pc.target);
  }

  /** The objects of a component that has been concluded. */
  function UpTo(c: Component): nat {
    match c
    case CNamespace => 2
    case CSecrets => 4
    case CDatabase => 6
    case CService(svc) => 2 * Place(c) + 2
    case CRouting => 17
  }

  lemma ConcludeDealt(t: Tenant, l: Local, c: Component, v: Verdict)
    requires l.Pass?
    ensures var m := Conclude(t, l, c, v);
            && (m.pc.Park? || Dealt(m.pc) == UpTo(c))
            && (m.pc.Park? <==> (c.CNamespace? || c.CSecrets? || c.CDatabase?) && !v.Healthy?)
            && (m.pc.Report? <==> c.CRouting?)
            && m.cr == l.cr && m.parent == l.parent && m.jwt == l.jwt && m.creds == l.creds
            && forall h :: Seen(h, m)
  {
  }

  lemma ConcludeOnTrack(t: Tenant, h0: Home, h: Home, l: Local, c: Component, v: Verdict)
    requires l.Pass? && Ready0(h0) && l.cr == h0[Claim].cr && l.parent == h0[ParentSlot].parent
    requires Around(h0, h) && At(h, Claim) == At(h0, Claim)
    requires DealtUpTo(t, h0, h, l, UpTo(c))
    requires !Conclude(t, l, c, v).pc.Park?
    ensures OnTrack(t, h0, h, Conclude(t, l, c, v))
  {
    ConcludeDealt(t, l, c, v);
    assert ContextFor(t, Conclude(t, l, c, v)) == ContextFor(t, l);
  }

  lemma CheckShape(t: Tenant, h: Home, l: Local, k: Tick)
    requires l.Pass? && l.pc.Check? && CalmTick(k) && Child(l.pc.target) in h
    ensures var w, x := Step(t, h, l, k), l.pc.target;
            && w.slot == Child(x) && w.obj == At(h, Child(x))
            && w.local == AfterCheck(t, l, x, Ok(h[Child(x)]))
  {
  }

  lemma CheckDealt(x: Target)
    requires !x.TPolicy? && !x.TService?
    ensures Dealt(Check(x)) == UpTo(ComponentOf(x))
  {
  }

  lemma CheckOnTrack(t: Tenant, h0: Home, h: Home, l: Local, v: Verdict)
    requires OnTrack(t, h0, h, l) && l.pc.Check?
    ensures var m := Conclude(t, l, ComponentOf(l.pc.target), v); m.pc.Park? || OnTrack(t, h0, h, m)
  {
    CheckDealt(l.pc.target);
    if !Conclude(t, l, ComponentOf(l.pc.target), v).pc.Park? { ConcludeOnTrack(t, h0, h, l, ComponentOf(l.pc.target), v); }
  }

  /** The verdict of a fault-free check of an object that is there. */
  lemma CalmCheck(t: Tenant, h0: Home, h: Home, l: Local, k: Tick)
    requires OnTrack(t, h0, h, l) && CalmTick(k) && l.pc.Check? && Child(l.pc.target) in h
    ensures var w, x := Step(t, h, l, k), l.pc.target;
            && Put(h, w.slot, w.obj) == h
            && (Examine(x, h[Child(x)]).Some? ==>
                  w.local == Conclude(t, l, ComponentOf(x), Examine(x, h[Child(x)]).value)
                  && (w.local.pc.Park? || OnTrack(t, h0, h, w.local)))
            && (Examine(x, h[Child(x)]).None? ==> w.local == l.(pc := Check(if x.TJwt? then TCreds else TJob)))
  {
    var x := l.pc.target;
    PutBack(h, Child(x));
    CheckShape(t, h, l, k);
    if Examine(x, h[Child(x)]).Some? { CheckOnTrack(t, h0, h, l, Examine(x, h[Child(x)]).value); }
  }

  lemma SuspendedMade(t: Tenant, spec: Spec, parent: Parent, ctx: Context, was: Option<Obj>, x: Target)
    requires spec.suspended && Mended(x)
    ensures Made(t, spec, parent, ctx, was, x)
            == if x.TDeploy? && was.Some? then Some(Patched(was.value, Scale(0))) else if x.TRoute? then None else was
  {
  }

  /** Two objects of a service are dealt with at once while the tenant is suspended. */
  lemma QuiescedOne(t: Tenant, h0: Home, h: Home, h': Home, l: Local, svc: Svc, x: Target)
    requires l.Pass? && l.cr.spec.suspended && (x == TDeploy(svc) || x == TService(svc))
    requires At(h, Child(x)) == At(h0, Child(x))
    requires At(h', Child(x)) == (if x.TDeploy? && Child(x) in h then Some(Patched(h[Child(x)], Scale(0))) else At(h, Child(x)))
    ensures Dealing(t, At(h0, Child(x)), At(h', Child(x)), l.cr.spec, l.parent, ContextFor(t, l), x)
  {
    SuspendedMade(t, l.cr.spec, l.parent, ContextFor(t, l), At(h0, Child(x)), x);
  }

  lemma QuiescedEach(t: Tenant, h0: Home, h: Home, h': Home, l: Local, svc: Svc, x: Target)
    requires l.Pass? && l.cr.spec.suspended && DealtUpTo(t, h0, h, l, 2 * Place(CService(svc))) && Turn(x) < UpTo(CService(svc))
    requires forall s :: s != Child(TDeploy(svc)) ==> At(h', s) == At(h, s)
    requires At(h', Child(TDeploy(svc))) == (if Child(TDeploy(svc)) in h then Some(Patched(h[Child(TDeploy(svc))], Scale(0))) else None)
    ensures Dealing(t, At(h0, Child(x)), At(h', Child(x)), l.cr.spec, l.parent, ContextFor(t, l), x)
  {
    if Turn(x) >= 2 * Place(CService(svc)) {
      if Turn(x) == Turn(TDeploy(svc)) { TurnUnique(x, TDeploy(svc)); } else { TurnUnique(x, TService(svc)); }
      QuiescedOne(t, h0, h, h', l, svc, x);
    }
  }

  lemma QuiescedDealt(t: Tenant, h0: Home, h: Home, h': Home, l: Local, svc: Svc)
    requires l.Pass? && l.cr.spec.suspended && DealtUpTo(t, h0, h, l, 2 * Place(CService(svc)))
    requires forall s :: s != Child(TDeploy(svc)) ==> At(h', s) == At(h, s)
    requires At(h', Child(TDeploy(svc))) == (if Child(TDeploy(svc)) in h then Some(Patched(h[Child(TDeploy(svc))], Scale(0))) else None)
    ensures DealtUpTo(t, h0, h', l, UpTo(CService(svc)))
  {
    forall x: Target | Turn(x) < UpTo(CService(svc))
      ensures Dealing(t, At(h0, Child(x)), At(h', Child(x)), l.cr.spec, l.parent, ContextFor(t, l), x)
    {
      QuiescedEach(t, h0, h, h', l, svc, x);
    }
  }

  lemma UnroutedDealt(t: Tenant, h0: Home, h: Home, l: Local)
    requires l.Pass? && l.cr.spec.suspended && DealtUpTo(t, h0, h, l, 16)
    ensures DealtUpTo(t, h0, h - {Child(TRoute)}, l, 17)
  {
    var h' := h - {Child(TRoute)};
    forall x: Target | Turn(x) < 17
      ensures Dealing(t, At(h0, Child(x)), At(h', Child(x)), l.cr.spec, l.parent, ContextFor(t, l), x)
    {
      if Turn(x) == 16 {
        TurnUnique(x, TRoute);
        SuspendedMade(t, l.cr.spec, l.parent, ContextFor(t, l), At(h0, Child(x)), x);
      }
    }
  }

  /** The route is gone afterwards, or is about to be deleted. */
  lemma UnrouteShape(t: Tenant, h: Home, l: Local, k: Tick)
    requires l.Pass? && CalmTick(k) && l.pc.Unroute? && (l.pc.act.Look? || Child(TRoute) in h)
    requires Child(TRoute) in h ==> h[Child(TRoute)].RouteObj?
    ensures Step(t, h, l, k) == if l.pc.act.Look? && Child(TRoute) in h
            then Write(Child(TRoute), At(h, Child(TRoute)), l.(pc := Unroute(Fix)))
            else Write(Child(TRoute), None, Conclude(t, l, CRouting, Healthy))
  {
  }

  lemma UnrouteOnTrack(t: Tenant, h0: Home, h: Home, l: Local)
    requires OnTrack(t, h0, h, l) && l.pc.Unroute?
    ensures OnTrack(t, h0, h - {Child(TRoute)}, Conclude(t, l, CRouting, Healthy))
  {
    var h' := h - {Child(TRoute)};
    UnroutedDealt(t, h0, h, l);
    ConcludeDealt(t, l, CRouting, Healthy);
    ConcludeOnTrack(t, h0, h', l, CRouting, Healthy);
  }

  // ---------------------------------------------------------------- what the conditions come to

  ghost predicate DatabaseUp(h: Home) {
    Child(TDatabase) in h && h[Child(TDatabase)].DatabaseObj? && h[Child(TDatabase)].applied != Some(false)
  }

  ghost predicate NamespaceUp(h: Home) {
    Child(TNamespace) in h && h[Child(TNamespace)].NamespaceObj? && h[Child(TNamespace)].phase.Active?
  }

  ghost predicate Health(h: Home, c: Component, suspended: bool) {
    match c
    case CNamespace => NamespaceUp(h)
    case CSecrets => true
    case CDatabase => DatabaseUp(h) && JobDone(h)
    case CService(svc) => suspended || (Child(TDeploy(svc)) in h && ReplicasReady(h[Child(TDeploy(svc))]))
    case CRouting => true
  }

  function ComponentAt(n: nat): (c: Component)
    requires n < 9
    ensures Place(c) == n
  {
    match n
    case 0 => CNamespace
    case 1 => CSecrets
    case 2 => CDatabase
    case 3 => CService(Auth)
    case 4 => CService(Rest)
    case 5 => CService(Realtime)
    case 6 => CService(Storage)
    case 7 => CService(Functions)
    case _ => CRouting
  }

  ghost function Observation(h: Home, c: Component, suspended: bool, generation: int): Condition {
    var up := Health(h, c, suspended);
    Condition(Of(c), up, if up then IsReady else NotReady, generation)
  }

  /** The conditions after the first `n` components have been recorded. */
  ghost function Expected(h: Home, cs: seq<Condition>, generation: int, suspended: bool, n: nat): seq<Condition>
    requires n <= 9
  {
    if n == 0 then cs
    else SetCondition(Expected(h, cs, generation, suspended, n - 1), Observation(h, ComponentAt(n - 1), suspended, generation))
  }

  ghost predicate ServicesUp(h: Home, suspended: bool, n: nat) {
    forall svc :: Place(CService(svc)) < n ==> Health(h, CService(svc), suspended)
  }

  ghost function ExpectedStatus(t: Tenant, h: Home, cr: TenantCR, parent: Parent): Status {
    Status(if cr.spec.suspended then Suspended else if ServicesUp(h, false, 9) then Ready else Provisioning,
           Expected(h, cr.status.conditions, cr.generation, cr.spec.suspended, 9),
           NamespaceName(t), Endpoint(t, parent), cr.generation)
  }

  /** What a calm pass has recorded so far. */
  ghost predicate Recording(t: Tenant, h: Home, l: Local) {
    && l.Pass?
    && (l.pc.Report? ==> l.status == ExpectedStatus(t, h, l.cr, l.parent) && NamespaceUp(h) && Health(h, CDatabase, false))
    && (l.pc.Ensure? || l.pc.Check? || l.pc.Quiesce? || l.pc.Unroute? ==>
          && l.status.conditions == Expected(h, l.cr.status.conditions, l.cr.generation, l.cr.spec.suspended, Concluded(l.pc))
          && l.servicesReady == ServicesUp(h, l.cr.spec.suspended, Concluded(l.pc))
          && (Concluded(l.pc) > 0 ==> NamespaceUp(h))
          && (Concluded(l.pc) > 2 ==> Health(h, CDatabase, false))
          && (l.pc == Check(TJob) ==> DatabaseUp(h)))
  }

  lemma HealthElsewhere(h: Home, h': Home, x: Target, c: Component, suspended: bool)
    requires forall s :: s != Child(x) ==> At(h', s) == At(h, s)
    requires c != ComponentOf(x)
    ensures Health(h', c, suspended) == Health(h, c, suspended)
  {
    assert forall y: Target :: y != x ==> At(h', Child(y)) == At(h, Child(y));
    match c
    case CNamespace => assert At(h', Child(TNamespace)) == At(h, Child(TNamespace));
    case CDatabase =>
      assert At(h', Child(TDatabase)) == At(h, Child(TDatabase)) && At(h', Child(TJob)) == At(h, Child(TJob));
    case CService(svc) => assert At(h', Child(TDeploy(svc))) == At(h, Child(TDeploy(svc)));
    case _ =>
  }

  lemma {:induction false} ExpectedElsewhere(h: Home, h': Home, x: Target, cs: seq<Condition>, generation: int, suspended: bool, n: nat)
    requires n <= Place(ComponentOf(x))
    requires forall s :: s != Child(x) ==> At(h', s) == At(h, s)
    ensures Expected(h', cs, generation, suspended, n) == Expected(h, cs, generation, suspended, n)
    ensures ServicesUp(h', suspended, n) == ServicesUp(h, suspended, n)
  {
    if n > 0 {
      ExpectedElsewhere(h, h', x, cs, generation, suspended, n - 1);
      HealthElsewhere(h, h', x, ComponentAt(n - 1), suspended);
    }
    forall svc | Place(CService(svc)) < n ensures Health(h', CService(svc), suspended) == Health(h, CService(svc), suspended) {
      HealthElsewhere(h, h', x, CService(svc), suspended);
    }
  }

  /** Writing an object of the component at hand does not disturb what has been recorded. */
  lemma RecordingElsewhere(t: Tenant, h: Home, h': Home, l: Local, x: Target)
    requires Recording(t, h, l) && (l.pc.Ensure? || l.pc.Quiesce? || l.pc.Unroute?)
    requires Concluded(l.pc) == Place(ComponentOf(x))
    requires forall s :: s != Child(x) ==> At(h', s) == At(h, s)
    ensures Recording(t, h', l)
  {
    ExpectedElsewhere(h, h', x, l.cr.status.conditions, l.cr.generation, l.cr.spec.suspended, Concluded(l.pc));
    if Concluded(l.pc) > 0 { HealthElsewhere(h, h', x, CNamespace, false); }
    if Concluded(l.pc) > 2 { HealthElsewhere(h, h', x, CDatabase, false); }
  }

  lemma ServicesUpMore(h: Home, suspended: bool, c: Component)
    ensures ServicesUp(h, suspended, Place(c) + 1)
            == (ServicesUp(h, suspended, Place(c)) && (c.CService? ==> Health(h, c, suspended)))
  {
    forall svc | Place(CService(svc)) == Place(c) ensures CService(svc) == c { PlaceUnique(CService(svc), c); }
  }

  /** Recording the verdict that the cluster warrants. */
  lemma ConcludeRecording(t: Tenant, h: Home, l: Local, c: Component, v: Verdict)
    requires Recording(t, h, l) && (l.pc.Ensure? || l.pc.Check? || l.pc.Quiesce? || l.pc.Unroute?)
    requires Concluded(l.pc) == Place(c)
    requires v == if Health(h, c, l.cr.spec.suspended) then Healthy else Unhealthy
    ensures var m := Conclude(t, l, c, v); m.pc.Park? || Recording(t, h, m)
  {
    var suspended, gen := l.cr.spec.suspended, l.cr.generation;
    PlaceUnique(c, ComponentAt(Place(c)));
    assert Recorded(l, c, v).status.conditions == Expected(h, l.cr.status.conditions, gen, suspended, Place(c) + 1);
    ServicesUpMore(h, suspended, c);
    ConcludeSteps(t, l, c, v);
    if c.CRouting? {
      RoutingRecording(t, h, l, v);
    }
  }

  /** Conclude, spelled out for what recording needs. */
  lemma ConcludeSteps(t: Tenant, l: Local, c: Component, v: Verdict)
    requires l.Pass?
    ensures var m, r := Conclude(t, l, c, v), Recorded(l, c, v);
            && m.status.conditions == r.status.conditions && m.cr == l.cr && m.parent == l.parent
            && (m.pc.Park? || m.servicesReady == (l.servicesReady && (c.CService? ==> v.Healthy?)))
            && (!m.pc.Park? && !c.CRouting? ==> Concluded(m.pc) == Place(c) + 1 && !m.pc.Report? && m.pc != Check(TJob))
            && (c.CRouting? ==> m == Reported(t, r, v.Healthy?) && m.pc.Report?)
            && (m.pc.Park? <==> (c.CNamespace? || c.CSecrets? || c.CDatabase?) && !v.Healthy?)
  {
  }

  lemma RoutingRecording(t: Tenant, h: Home, l: Local, v: Verdict)
    requires Recording(t, h, l) && v.Healthy?
    requires (l.pc.Ensure? || l.pc.Check? || l.pc.Quiesce? || l.pc.Unroute?) && Concluded(l.pc) == 8
    requires Recorded(l, CRouting, v).status.conditions
             == Expected(h, l.cr.status.conditions, l.cr.generation, l.cr.spec.suspended, 9)
    requires ServicesUp(h, l.cr.spec.suspended, 9) == ServicesUp(h, l.cr.spec.suspended, 8)
    ensures Recording(t, h, Conclude(t, l, CRouting, v))
  {
  }

  // ---------------------------------------------------------------- a calm step

  /** A component check failed and the pass gives up: what it has put in place stays, workloads are untouched. */
  ghost predicate GaveUp(h0: Home, h: Home) {
    && Around(h0, h)
    && (forall x: Target :: Child(x) in h0 ==> At(h, Child(x)) == At(h0, Child(x)))
    && (forall x: Target :: Mended(x) ==> At(h, Child(x)) == At(h0, Child(x)))
    && Child(TNamespace) in h
    && (NamespaceUp(h) ==> Child(TCreds) in h && Child(TDatabase) in h && Child(TJob) in h && !Health(h, CDatabase, false)
                           && (Child(TDatabase) !in h0 ==> DatabaseUp(h)))
  }

  ghost predicate AtComponent(l: Local) {
    l.Pass? && (l.pc.Ensure? || l.pc.Check? || l.pc.Quiesce? || l.pc.Unroute?)
  }

  /** Where a calm pass can stand, once the parent has been read. */
  ghost predicate Steady(t: Tenant, h0: Home, h: Home, l: Local) {
    && l.Pass? && Ready0(h0) && l.cr == h0[Claim].cr
    && ((AtComponent(l) || l.pc.Report?) ==> OnTrack(t, h0, h, l) && Recording(t, h, l))
    && (l.pc.Park? ==> GaveUp(h0, h) && At(h, Claim) == At(h0, Claim) && l.status.phase.Provisioning?)
    && (AtComponent(l) || l.pc.Report? || l.pc.Park?)
  }

  lemma SteadyFrom(t: Tenant, h0: Home, h: Home, l: Local)
    requires OnTrack(t, h0, h, l) && Recording(t, h, l) && (AtComponent(l) || l.pc.Report?)
    ensures Steady(t, h0, h, l)
  {
  }

  lemma MoveRecording(t: Tenant, h: Home, l: Local, m: Local)
    requires Recording(t, h, l) && AtComponent(l) && AtComponent(m) && Concluded(m.pc) == Concluded(l.pc)
    requires m.status == l.status && m.cr == l.cr && m.servicesReady == l.servicesReady
    requires m.pc == Check(TJob) ==> DatabaseUp(h)
    ensures Recording(t, h, m)
  {
  }

  lemma SameComponent(x: Target)
    ensures Concluded(AfterEnsure(x)) == Place(ComponentOf(x)) && AfterEnsure(x) != Check(TJob)
    ensures AfterEnsure(x).Ensure? || AfterEnsure(x).Check?
  {
  }

  /** Whether the holder of the object at hand can take it. */
  lemma HolderOpen(t: Tenant, h0: Home, h: Home, l: Local)
    requires Sound(t, h, l) && Working(l) && l.pc.Ensure? && OnTrack(t, h0, h, l)
    ensures Open(h, Child(l.pc.target))
  {
    WorkingFacts(t, h, l);
    var x := l.pc.target;
    if Inside(x) {
      assert Order(TNamespace) < Order(x);
      assert Fits(Child(TNamespace), h[Child(TNamespace)]);
    }
  }

  lemma LookSteps(t: Tenant, h: Home, l: Local, k: Tick)
    requires Running(l) && CalmTick(k) && l.pc.Ensure? && l.pc.act.Look?
    ensures var w := Step(t, h, l, k); var m := w.local;
            && m.status == l.status && m.cr == l.cr && m.servicesReady == l.servicesReady
            && (m.pc == AfterEnsure(l.pc.target) || (m.pc.Ensure? && m.pc.target == l.pc.target))
  {
  }

  lemma LookSteady(t: Tenant, h0: Home, h: Home, l: Local, k: Tick)
    requires OnTrack(t, h0, h, l) && Recording(t, h, l) && Typed(h) && CalmTick(k) && l.pc.Ensure? && l.pc.act.Look?
    ensures var w := Step(t, h, l, k);
            Put(h, w.slot, w.obj) == h && OnTrack(t, h0, h, w.local) && Recording(t, h, w.local) && AtComponent(w.local)
  {
    SameComponent(l.pc.target);
    CalmLook(t, h0, h, l, k);
    LookSteps(t, h, l, k);
    MoveRecording(t, h, l, Step(t, h, l, k).local);
  }

  lemma WroteRecording(t: Tenant, h: Home, h': Home, l: Local, x: Target)
    requires Recording(t, h, l) && l.pc.Ensure? && l.pc.target == x
    requires forall s :: s != Child(x) ==> At(h', s) == At(h, s)
    ensures Recording(t, h', l.(pc := AfterEnsure(x))) && AtComponent(l.(pc := AfterEnsure(x)))
  {
    SameComponent(x);
    RecordingElsewhere(t, h, h', l, x);
    MoveRecording(t, h', l, l.(pc := AfterEnsure(x)));
  }

  /** A fault-free write moves on to the next object, and touches its own only. */
  lemma WriteShape(t: Tenant, h: Home, l: Local, k: Tick)
    requires Running(l) && CalmTick(k) && l.pc.Ensure? && !l.pc.act.Look?
    ensures var w := Step(t, h, l, k); w.slot == Child(l.pc.target)
    ensures var w := Step(t, h, l, k); forall s :: s != Child(l.pc.target) ==> At(Put(h, w.slot, w.obj), s) == At(h, s)
  {
  }

  lemma WriteSteady(t: Tenant, h0: Home, h: Home, l: Local, k: Tick)
    requires OnTrack(t, h0, h, l) && Recording(t, h, l) && CalmTick(k) && l.pc.Ensure? && !l.pc.act.Look?
    requires Open(h, Child(l.pc.target))
    ensures var w := Step(t, h, l, k); var h' := Put(h, w.slot, w.obj);
            OnTrack(t, h0, h', w.local) && Recording(t, h', w.local) && AtComponent(w.local)
  {
    var w := Step(t, h, l, k);
    WriteShape(t, h, l, k);
    WroteRecording(t, h, Put(h, w.slot, w.obj), l, l.pc.target);
    if l.pc.act.Add? { CalmAdd(t, h0, h, l, k); } else { CalmFix(t, h0, h, l, k); }
  }

  lemma CalmEnsureSteady(t: Tenant, h0: Home, h: Home, l: Local, k: Tick)
    requires Sound(t, h, l) && Steady(t, h0, h, l) && CalmTick(k) && l.pc.Ensure?
    ensures var w := Step(t, h, l, k); Steady(t, h0, Put(h, w.slot, w.obj), w.local)
  {
    assert AtComponent(l);
    if l.pc.act.Look? {
      LookSteady(t, h0, h, l, k);
    } else {
      HolderOpen(t, h0, h, l);
      WriteSteady(t, h0, h, l, k);
    }
  }

  lemma CheckedExists(t: Tenant, h0: Home, h: Home, l: Local)
    requires Sound(t, h, l) && Steady(t, h0, h, l) && l.pc.Check?
    ensures Child(l.pc.target) in h
  {
    assert Working(l);
    WorkingFacts(t, h, l);
    var x := l.pc.target;
    if Mended(x) {
      assert Dealing(t, At(h0, Child(x)), At(h, Child(x)), l.cr.spec, l.parent, ContextFor(t, l), x);
    }
  }

  /** What a fault-free check says is what the health of the component is. */
  lemma VerdictIsHealth(t: Tenant, h0: Home, h: Home, l: Local)
    requires Steady(t, h0, h, l) && l.pc.Check? && Child(l.pc.target) in h && Typed(h)
    ensures var x := l.pc.target; var e := Examine(x, h[Child(x)]);
            && (e.Some? ==> e.value == if Health(h, ComponentOf(x), l.cr.spec.suspended) then Healthy else Unhealthy)
            && (e.None? && x.TDatabase? ==> DatabaseUp(h))
  {
    var x := l.pc.target;
    assert Fits(Child(x), h[Child(x)]);
  }

  /** Among prerequisites, what was there has not been changed. */
  lemma PrerequisiteKept(t: Tenant, h0: Home, h: Home, l: Local, x: Target)
    requires OnTrack(t, h0, h, l) && Child(x) in h0 && !Mended(x)
    ensures At(h, Child(x)) == At(h0, Child(x))
  {
    if Turn(x) < Dealt(l.pc) {
      assert Dealing(t, At(h0, Child(x)), At(h, Child(x)), l.cr.spec, l.parent, ContextFor(t, l), x);
    }
  }

  lemma WorkloadsLater(x: Target)
    ensures Mended(x) ==> Turn(x) >= 6
  {
  }

  lemma ParkedExists(t: Tenant, h: Home, l: Local)
    requires Sound(t, h, l) && Working(l) && l.pc.Check? && (l.pc.target.TNamespace? || l.pc.target.TDatabase? || l.pc.target.TJob?)
    ensures Child(TNamespace) in h
    ensures !l.pc.target.TNamespace? ==> Child(TCreds) in h && Child(TDatabase) in h && Child(TJob) in h
  {
    WorkingFacts(t, h, l);
    assert Order(TNamespace) == 0 && Order(TCreds) == 3 && Order(TDatabase) == 4 && Order(TJob) == 5;
  }

  lemma ParkedGaveUp(t: Tenant, h0: Home, h: Home, l: Local)
    requires OnTrack(t, h0, h, l) && l.pc.Check? && (l.pc.target.TNamespace? || l.pc.target.TDatabase? || l.pc.target.TJob?)
    requires !Health(h, ComponentOf(l.pc.target), false)
    requires Child(TNamespace) in h
    requires !l.pc.target.TNamespace? ==> Child(TCreds) in h && Child(TDatabase) in h && Child(TJob) in h
    ensures GaveUp(h0, h)
  {
    forall x: Target | Child(x) in h0 ensures At(h, Child(x)) == At(h0, Child(x)) {
      WorkloadsLater(x);
      if !Mended(x) { PrerequisiteKept(t, h0, h, l, x); }
    }
    forall x: Target | Mended(x) ensures At(h, Child(x)) == At(h0, Child(x)) {
      WorkloadsLater(x);
    }
    if !l.pc.target.TNamespace? && Child(TDatabase) !in h0 { NewDatabase(t, h0, h, l); }
  }

  /** A database that the pass has created is not refused. */
  lemma NewDatabase(t: Tenant, h0: Home, h: Home, l: Local)
    requires OnTrack(t, h0, h, l) && l.pc.Check? && (l.pc.target.TDatabase? || l.pc.target.TJob?) && Child(TDatabase) !in h0
    ensures DatabaseUp(h)
  {
    assert Dealing(t, At(h0, Child(TDatabase)), At(h, Child(TDatabase)), l.cr.spec, l.parent, ContextFor(t, l), TDatabase);
  }

  /** The check goes on to the second object of a component. */
  lemma CheckGoesOn(t: Tenant, h0: Home, h: Home, l: Local)
    requires Steady(t, h0, h, l) && l.pc.Check? && (l.pc.target.TJwt? || l.pc.target.TDatabase?)
    requires l.pc.target.TDatabase? ==> DatabaseUp(h)
    ensures Steady(t, h0, h, l.(pc := Check(if l.pc.target.TJwt? then TCreds else TJob)))
  {
    var m := l.(pc := Check(if l.pc.target.TJwt? then TCreds else TJob));
    assert AtComponent(l);
    MoveRecording(t, h, l, m);
    assert OnTrack(t, h0, h, m);
    SteadyFrom(t, h0, h, m);
  }

  lemma CheckConcludes(t: Tenant, h0: Home, h: Home, l: Local, v: Verdict)
    requires Sound(t, h, l) && Steady(t, h0, h, l) && l.pc.Check? && ComponentAtHand(l)
    requires v == if Health(h, ComponentOf(l.pc.target), l.cr.spec.suspended) then Healthy else Unhealthy
    requires var m := Conclude(t, l, ComponentOf(l.pc.target), v); m.pc.Park? || OnTrack(t, h0, h, m)
    ensures Steady(t, h0, h, Conclude(t, l, ComponentOf(l.pc.target), v))
  {
    var c := ComponentOf(l.pc.target);
    var m := Conclude(t, l, c, v);
    assert AtComponent(l);
    if m.pc.Park? {
      CheckParks(t, h0, h, l, v);
    } else {
      ConcludeRecording(t, h, l, c, v);
      ConcludeStays(t, l, c, v);
      SteadyFrom(t, h0, h, m);
    }
  }

  ghost predicate ComponentAtHand(l: Local)
    requires l.Pass? && l.pc.Check?
  {
    Concluded(l.pc) == Place(ComponentOf(l.pc.target))
  }

  lemma CalmCheckSteady(t: Tenant, h0: Home, h: Home, l: Local, k: Tick)
    requires Sound(t, h, l) && Steady(t, h0, h, l) && CalmTick(k) && l.pc.Check?
    ensures var w := Step(t, h, l, k); Steady(t, h0, Put(h, w.slot, w.obj), w.local)
  {
    var x := l.pc.target;
    assert AtComponent(l);
    CheckedExists(t, h0, h, l);
    VerdictIsHealth(t, h0, h, l);
    CalmCheck(t, h0, h, l, k);
    if Examine(x, h[Child(x)]).None? { CheckGoesOn(t, h0, h, l); }
    else { CheckConcludes(t, h0, h, l, Examine(x, h[Child(x)]).value); }
  }

  lemma CheckParks(t: Tenant, h0: Home, h: Home, l: Local, v: Verdict)
    requires Sound(t, h, l) && Steady(t, h0, h, l) && l.pc.Check?
    requires v == if Health(h, ComponentOf(l.pc.target), l.cr.spec.suspended) then Healthy else Unhealthy
    requires Conclude(t, l, ComponentOf(l.pc.target), v).pc.Park?
    ensures Steady(t, h0, h, Conclude(t, l, ComponentOf(l.pc.target), v))
  {
    var m := Conclude(t, l, ComponentOf(l.pc.target), v);
    assert AtComponent(l) && Working(l);
    ParkShape(t, l, ComponentOf(l.pc.target), v);
    HealthUnsuspended(h, ComponentOf(l.pc.target), l.cr.spec.suspended);
    ParkedExists(t, h, l);
    ParkedGaveUp(t, h0, h, l);
  }

  lemma HealthUnsuspended(h: Home, c: Component, suspended: bool)
    requires c.CNamespace? || c.CSecrets? || c.CDatabase?
    ensures Health(h, c, suspended) == Health(h, c, false)
    ensures c.CSecrets? ==> Health(h, c, false)
  {
  }

  lemma ParkShape(t: Tenant, l: Local, c: Component, v: Verdict)
    requires l.Pass? && Conclude(t, l, c, v).pc.Park?
    ensures var m := Conclude(t, l, c, v);
            m.status.phase == Provisioning && m.cr == l.cr && (c.CNamespace? || c.CSecrets? || c.CDatabase?) && !v.Healthy?
  {
  }

  lemma ConcludeStays(t: Tenant, l: Local, c: Component, v: Verdict)
    requires l.Pass? && !Conclude(t, l, c, v).pc.Park?
    ensures AtComponent(Conclude(t, l, c, v)) || Conclude(t, l, c, v).pc.Report?
  {
  }

  /** Recording goes on over a write to the object at hand. */
  lemma QuiescedRecording(t: Tenant, h: Home, h': Home, l: Local, x: Target, c: Component)
    requires Recording(t, h, l) && l.cr.spec.suspended && (l.pc.Quiesce? || l.pc.Unroute?)
    requires c == (if l.pc.Quiesce? then CService(l.pc.svc) else CRouting)
    requires x == (if l.pc.Quiesce? then TDeploy(l.pc.svc) else TRoute)
    requires forall s :: s != Child(x) ==> At(h', s) == At(h, s)
    ensures var m := Conclude(t, l, c, Healthy); Recording(t, h', m) && (AtComponent(m) || m.pc.Report?)
  {
    RecordingElsewhere(t, h, h', l, x);
    ConcludeRecording(t, h', l, c, Healthy);
    ConcludeSteps(t, l, c, Healthy);
    ConcludeStays(t, l, c, Healthy);
  }

  lemma FixComes(t: Tenant, h0: Home, h: Home, l: Local, pc: PC)
    requires OnTrack(t, h0, h, l) && Recording(t, h, l) && (l.pc.Quiesce? || l.pc.Unroute?)
    requires pc == (if l.pc.Quiesce? then Quiesce(l.pc.svc, Fix) else Unroute(Fix))
    requires Child(if l.pc.Quiesce? then TDeploy(l.pc.svc) else TRoute) in h
    ensures Steady(t, h0, h, l.(pc := pc))
  {
    var m := l.(pc := pc);
    assert OnTrack(t, h0, h, m);
    MoveRecording(t, h, l, m);
    SteadyFrom(t, h0, h, m);
  }

  lemma UnrouteRecording(t: Tenant, h: Home, l: Local)
    requires Recording(t, h, l) && l.cr.spec.suspended && l.pc.Unroute?
    ensures var m := Conclude(t, l, CRouting, Healthy); Recording(t, h - {Child(TRoute)}, m) && m.pc.Report?
  {
    QuiescedRecording(t, h, h - {Child(TRoute)}, l, TRoute, CRouting);
  }

  lemma UnrouteSteady(t: Tenant, h0: Home, h: Home, l: Local)
    requires OnTrack(t, h0, h, l) && Recording(t, h, l) && l.pc.Unroute?
    ensures Steady(t, h0, h - {Child(TRoute)}, Conclude(t, l, CRouting, Healthy))
  {
    var h', m := h - {Child(TRoute)}, Conclude(t, l, CRouting, Healthy);
    UnrouteRecording(t, h, l);
    UnrouteOnTrack(t, h0, h, l);
    SteadyFrom(t, h0, h', m);
  }

  lemma CalmUnrouteSteady(t: Tenant, h0: Home, h: Home, l: Local, k: Tick)
    requires OnTrack(t, h0, h, l) && Recording(t, h, l) && Typed(h) && CalmTick(k) && l.pc.Unroute?
    ensures var w := Step(t, h, l, k); Steady(t, h0, Put(h, w.slot, w.obj), w.local)
  {
    PutBack(h, Child(TRoute));
    if Child(TRoute) in h {
      assert Fits(Child(TRoute), h[Child(TRoute)]);
      FixComes(t, h0, h, l, Unroute(Fix));
    }
    UnrouteShape(t, h, l, k);
    UnrouteSteady(t, h0, h, l);
  }

  function Scaled(o: Obj): Obj { Patched(o, Scale(0)) }

  ghost function QuiescedHome(h: Home, svc: Svc): Home {
    var s := Child(TDeploy(svc));
    if s in h then h[s := Scaled(h[s])] else h
  }

  /** The deployment is scaled to zero, or about to be. */
  lemma QuiesceShape(t: Tenant, h: Home, l: Local, k: Tick)
    requires l.Pass? && CalmTick(k) && l.pc.Quiesce? && (l.pc.act.Look? || Child(TDeploy(l.pc.svc)) in h)
    ensures var w, s := Step(t, h, l, k), Child(TDeploy(l.pc.svc));
            if l.pc.act.Look? && s in h then w == Write(s, At(h, s), l.(pc := Quiesce(l.pc.svc, Fix)))
            else w.slot == s && w.obj == (if s in h then Some(Scaled(h[s])) else None) && w.local == Conclude(t, l, CService(l.pc.svc), Healthy)
  {
  }

  lemma QuiesceSteady(t: Tenant, h0: Home, h: Home, l: Local)
    requires OnTrack(t, h0, h, l) && Recording(t, h, l) && l.pc.Quiesce?
    ensures Steady(t, h0, QuiescedHome(h, l.pc.svc), Conclude(t, l, CService(l.pc.svc), Healthy))
  {
    var svc := l.pc.svc;
    var h', m := QuiescedHome(h, svc), Conclude(t, l, CService(svc), Healthy);
    QuiescedDealt(t, h0, h, h', l, svc);
    ConcludeDealt(t, l, CService(svc), Healthy);
    ConcludeOnTrack(t, h0, h', l, CService(svc), Healthy);
    QuiescedRecording(t, h, h', l, TDeploy(svc), CService(svc));
    SteadyFrom(t, h0, h', m);
  }

  lemma CalmQuiesceSteady(t: Tenant, h0: Home, h: Home, l: Local, k: Tick)
    requires OnTrack(t, h0, h, l) && Recording(t, h, l) && CalmTick(k) && l.pc.Quiesce?
    ensures var w := Step(t, h, l, k); Steady(t, h0, Put(h, w.slot, w.obj), w.local)
  {
    var s := Child(TDeploy(l.pc.svc));
    PutBack(h, s);
    if s in h { FixComes(t, h0, h, l, Quiesce(l.pc.svc, Fix)); }
    QuiesceShape(t, h, l, k);
    QuiesceSteady(t, h0, h, l);
  }

  lemma CalmComponentSteady(t: Tenant, h0: Home, h: Home, l: Local, k: Tick)
    requires Sound(t, h, l) && Steady(t, h0, h, l) && CalmTick(k) && AtComponent(l)
    ensures var w := Step(t, h, l, k); Steady(t, h0, Put(h, w.slot, w.obj), w.local)
  {
    if l.pc.Ensure? { CalmEnsureSteady(t, h0, h, l, k); }
    else if l.pc.Check? { CalmCheckSteady(t, h0, h, l, k); }
    else if l.pc.Quiesce? { CalmQuiesceSteady(t, h0, h, l, k); }
    else { CalmUnrouteSteady(t, h0, h, l, k); }
  }
}
