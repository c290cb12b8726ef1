/** The one tenant whose namespace is the platform's own: its deletion takes the platform namespace down. */
module Shared {
  import opened Options
  import opened Objects
  import opened Tenants
  import opened Machine
  import opened Safety
  import opened Orders
  import opened Leftovers
  import opened Runs
  import opened Passes
  import opened Outcomes
  import opened Finalization
  import opened Courses

  /** Two slots of this tenant share one name, and only these. */
  lemma SlotsMeet(t: Tenant, x: Slot, y: Slot)
    requires t.platform == NamespaceName(t) && KeyOf(t, x) == KeyOf(t, y) && x != Platform && y != Platform
    ensures x == y
  {
    assert |JwtName(t)| != |CredsName(t)|;
    if x.Child? && y.Child? {
      match (x.target, y.target) {
        case (TDeploy(a), TDeploy(b)) => ResourceNamesDiffer(t, a, b);
        case (TService(a), TService(b)) => ResourceNamesDiffer(t, a, b);
        case _ =>
      }
    }
  }

  /** The same, as far as the tenant's own machine looks: everything but the platform namespace. */
  ghost predicate SameView(h: Home, h': Home) {
    forall x: Slot :: x != Platform ==> At(h', x) == At(h, x)
  }

  lemma SharedView(t: Tenant, s: Store, x: Slot, o: Option<Obj>)
    requires t.platform == NamespaceName(t) && x != Platform
    ensures SameView(Put(HomeOf(t, s), x, o), HomeOf(t, PutKey(s, KeyOf(t, x), o)))
  {
    var s' := PutKey(s, KeyOf(t, x), o);
    forall y: Slot | y != Platform ensures At(HomeOf(t, s'), y) == At(Put(HomeOf(t, s), x, o), y) {
      HomeAt(t, s', y);
      HomeAt(t, s, y);
      if KeyOf(t, x) == KeyOf(t, y) { SlotsMeet(t, x, y); }
    }
  }

  lemma SharedTyped(t: Tenant, s: Store, h: Home)
    requires t.platform == NamespaceName(t) && Typed(h) && SameView(h, HomeOf(t, s))
    ensures Typed(HomeOf(t, s))
  {
    var h' := HomeOf(t, s);
    forall x | x in h' ensures Fits(x, h'[x]) {
      HomeAt(t, s, Child(TNamespace));
      HomeAt(t, s, Platform);
      var y := if x.Platform? then Child(TNamespace) else x;
      assert At(h', y) == At(h, y) && At(h', y) == At(h', x);
    }
  }

  /** A pass that takes the tenant down, with the namespace still there. */
  ghost predicate TakingDown(h: Home, l: Local) {
    Orderly(h, l) && Tidying(h, l) && Certain(h, l) && Child(TNamespace) in h
  }

  lemma SameTidying(h: Home, h': Home, l: Local)
    requires TakingDown(h, l) && SameView(h, h') && Typed(h')
    ensures TakingDown(h', l)
  {
    forall x: Slot | x != Platform ensures x in h' <==> x in h { assert At(h', x) == At(h, x); }
    assert At(h', Claim) == At(h, Claim) && At(h', Child(TNamespace)) == At(h, Child(TNamespace));
  }

  /** A call of such a pass never looks at the platform namespace as such, and the namespace stays. */
  lemma TakingStep(t: Tenant, h: Home, l: Local, k: Tick)
    requires TakingDown(h, l) && Running(l) && CalmTick(k)
    ensures var w := Step(t, h, l, k); TakingDown(Put(h, w.slot, w.obj), w.local) && w.slot != Platform
  {
    assert ReadAnswered(t, l, k);
    TidyingStep(t, h, l, k);
    CertainStep(t, h, l, k);
    StepKeepsOrderly(t, h, l, k);
    NamespaceThere(t, h, l, k);
  }

  lemma NamespaceThere(t: Tenant, h: Home, l: Local, k: Tick)
    requires TakingDown(h, l) && Running(l)
    ensures var w := Step(t, h, l, k); Child(TNamespace) in Put(h, w.slot, w.obj) && w.slot != Platform
  {
    if l.pc.Drop? {
      if l.pc.target.TNamespace? { NamespaceRemains(t, h, l, k); } else { DropStep(t, h, l, k); }
    } else {
      ClaimSet(t, h, l, k);
      var w := Step(t, h, l, k);
      SameStands(h, Put(h, w.slot, w.obj), TNamespace);
    }
  }

  lemma TakingNext(t: Tenant, y: System, k: Tick)
    requires t.platform == NamespaceName(t) && |y.locals| == 1 && TakingDown(HomeOf(t, y.store), y.locals[0]) && CalmTick(k)
    ensures var z := Next([t], y, OfTenant(0, PassStep(k))); TakingDown(HomeOf(t, z.store), z.locals[0])
    ensures Running(y.locals[0]) ==>
              var m := Next([t], y, OfTenant(0, PassStep(k))).locals[0]; m.Pass? && Rank(m.pc) < Rank(y.locals[0].pc)
    ensures !Running(y.locals[0]) ==> Next([t], y, OfTenant(0, PassStep(k))).locals[0] == y.locals[0]
  {
    var h, l := HomeOf(t, y.store), y.locals[0];
    var w := Happens(t, h, l, PassStep(k));
    PutBack(h, Claim);
    if Running(l) { TakingStep(t, h, l, k); StepDescends(t, h, l, k); }
    SharedView(t, y.store, w.slot, w.obj);
    var s := PutKey(y.store, KeyOf(t, w.slot), w.obj);
    SharedTyped(t, s, Put(h, w.slot, w.obj));
    SameTidying(Put(h, w.slot, w.obj), HomeOf(t, s), w.local);
  }

  lemma {:induction false} TakingRun(t: Tenant, y: System, ks: seq<Tick>)
    requires t.platform == NamespaceName(t) && |y.locals| == 1 && TakingDown(HomeOf(t, y.store), y.locals[0]) && Calm(ks)
    ensures var z := Run([t], y, Events(0, Steps(ks)));
            TakingDown(HomeOf(t, z.store), z.locals[0]) && (|ks| >= Rank(y.locals[0].pc) ==> z.locals[0].pc.Stop?)
    decreases |ks|
  {
    if |ks| > 0 {
      var z := Next([t], y, OfTenant(0, PassStep(ks[0])));
      TakingNext(t, y, ks[0]);
      assert Steps(ks)[1..] == Steps(ks[1..]);
      assert Events(0, Steps(ks))[1..] == Events(0, Steps(ks[1..]));
      TakingRun(t, z, ks[1..]);
    }
  }

  /** A tenant called after the rest of the platform namespace is on its way out, and its objects stand. One
      fault-free pass removes its custom resource and leaves the platform namespace terminating. */
  lemma PlatformGoesWithTenant(t: Tenant, y: System, ks: seq<Tick>)
    requires t.platform == "supabase-" + t.id && |y.locals| == 1 && Whole(ks)
    requires Typed(HomeOf(t, y.store)) && Leaving(HomeOf(t, y.store)) && ParentSlot in HomeOf(t, y.store)
    requires KeyOf(t, Platform) in y.store
    ensures var s, k := Run([t], y, [OfTenant(0, PassStart)] + Events(0, Steps(ks))).store, KeyOf(t, Platform);
            k in s && s[k].NamespaceObj? && s[k].phase.Terminating? && KeyOf(t, Claim) !in s
  {
    var h := HomeOf(t, y.store);
    HomeAt(t, y.store, Child(TNamespace));
    InitiallyOrderly(h);
    var y1 := Next([t], y, OfTenant(0, PassStart));
    StartsSame(t, y);
    RunFirst([t], y, OfTenant(0, PassStart), Events(0, Steps(ks)));
    TakingRun(t, y1, ks);
    TakenAtEnd(t, Run([t], y1, Events(0, Steps(ks))));
  }

  lemma StartsSame(t: Tenant, y: System)
    requires |y.locals| == 1
    ensures var z := Next([t], y, OfTenant(0, PassStart)); z.store == y.store && z.locals[0] == Begin()
  {
    HomeAt(t, y.store, Claim);
  }

  lemma TakenAtEnd(t: Tenant, z: System)
    requires t.platform == NamespaceName(t) && |z.locals| == 1 && TakingDown(HomeOf(t, z.store), z.locals[0]) && z.locals[0].pc.Stop?
    ensures var s, k := z.store, KeyOf(t, Platform);
            k in s && s[k].NamespaceObj? && s[k].phase.Terminating? && KeyOf(t, Claim) !in s
  {
    HomeAt(t, z.store, Claim);
    HomeAt(t, z.store, Child(TNamespace));
  }
}
