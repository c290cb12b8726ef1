/** What can happen to one tenant, one thing after the other, and the runs of the whole system that it is part of. */
module Courses {
  import opened Options
  import opened Objects
  import opened Tenants
  import opened Machine
  import opened Safety
  import opened Orders
  import opened Runs
  import opened Passes
  import opened Outcomes

  ghost function Evolve(t: Tenant, h: Home, l: Local, es: seq<Happening>): (Home, Local)
    decreases |es|
  {
    if |es| == 0 then (h, l)
    else var w := Happens(t, h, l, es[0]); Evolve(t, Put(h, w.slot, w.obj), w.local, es[1..])
  }

  /** The same as events of the system. */
  ghost function Events(i: nat, es: seq<Happening>): (r: seq<Event>)
    ensures |r| == |es| && forall k :: 0 <= k < |es| ==> r[k] == OfTenant(i, es[k])
  {
    if |es| == 0 then [] else [OfTenant(i, es[0])] + Events(i, es[1..])
  }

  lemma {:induction false} EvolveConcat(t: Tenant, h: Home, l: Local, a: seq<Happening>, b: seq<Happening>)
    ensures Evolve(t, h, l, a + b) == Evolve(t, Evolve(t, h, l, a).0, Evolve(t, h, l, a).1, b)
    decreases |a|
  {
    if |a| == 0 {
      assert a + b == b;
    } else {
      var w := Happens(t, h, l, a[0]);
      assert (a + b)[1..] == a[1..] + b;
      EvolveConcat(t, Put(h, w.slot, w.obj), w.local, a[1..], b);
    }
  }

  /** What a tenant sees of the run is how its own slots evolve. */
  lemma {:induction false} EvolveIsRun(ts: seq<Tenant>, y: System, i: nat, es: seq<Happening>)
    requires Family(ts) && |y.locals| == |ts| && i < |ts|
    ensures var z := Run(ts, y, Events(i, es));
            (HomeOf(ts[i], z.store), z.locals[i]) == Evolve(ts[i], HomeOf(ts[i], y.store), y.locals[i], es)
    decreases |es|
  {
    if |es| > 0 {
      var t := ts[i];
      var w := Happens(t, HomeOf(t, y.store), y.locals[i], es[0]);
      OwnView(t, y.store, w.slot, w.obj);
      assert Events(i, es)[1..] == Events(i, es[1..]);
      EvolveIsRun(ts, Next(ts, y, OfTenant(i, es[0])), i, es[1..]);
    }
  }

  lemma RunFirst(ts: seq<Tenant>, y: System, e: Event, es: seq<Event>)
    requires |y.locals| == |ts|
    ensures Run(ts, y, [e] + es) == Run(ts, Next(ts, y, e), es)
  {
    assert ([e] + es)[1..] == es;
  }

  lemma {:induction false} EvolveOrderly(t: Tenant, h: Home, l: Local, es: seq<Happening>)
    requires Orderly(h, l)
    ensures Orderly(Evolve(t, h, l, es).0, Evolve(t, h, l, es).1)
    decreases |es|
  {
    if |es| > 0 {
      HappeningKeepsOrderly(t, h, l, es[0]);
      var w := Happens(t, h, l, es[0]);
      EvolveOrderly(t, Put(h, w.slot, w.obj), w.local, es[1..]);
    }
  }

  // ---------------------------------------------------------------- from one state to another

  ghost predicate Goes(t: Tenant, h: Home, l: Local, es: seq<Happening>, h': Home, l': Local) {
    Evolve(t, h, l, es) == (h', l')
  }

  /** There is a course that takes the tenant from one state to another. */
  ghost predicate Leads(t: Tenant, h: Home, l: Local, es: seq<Happening>, h': Home) {
    Evolve(t, h, l, es).0 == h'
  }

  lemma GoesThen(t: Tenant, h0: Home, l0: Local, a: seq<Happening>, h: Home, l: Local, b: seq<Happening>, h': Home, l': Local)
    requires Goes(t, h0, l0, a, h, l) && Goes(t, h, l, b, h', l')
    ensures Goes(t, h0, l0, a + b, h', l')
  {
    EvolveConcat(t, h0, l0, a, b);
  }

  lemma GoesCall(t: Tenant, h: Home, l: Local, k: Tick, h': Home, m: Local)
    requires Running(l)
    requires var w := Step(t, h, l, k); h' == Put(h, w.slot, w.obj) && m == w.local
    ensures Goes(t, h, l, [PassStep(k)], h', m)
  {
    assert [PassStep(k)][1..] == [];
  }

  /** A course of the only tenant, in the system. */
  lemma OneTenant(t: Tenant, y: System, es: seq<Happening>, h: Home)
    requires NamespaceName(t) != t.platform && |y.locals| == 1 && Leads(t, HomeOf(t, y.store), y.locals[0], es, h)
    ensures HomeOf(t, Run([t], y, Events(0, es)).store) == h
  {
    var ts := [t];
    assert ts[0] == t && Family(ts);
    EvolveIsRun(ts, y, 0, es);
  }

  lemma EventLeads(t: Tenant, h0: Home, l0: Local, es: seq<Happening>, h: Home, e: Happening, h': Home) returns (more: seq<Happening>)
    requires Leads(t, h0, l0, es, h)
    requires forall l :: var w := Happens(t, h, l, e); Put(h, w.slot, w.obj) == h'
    ensures Leads(t, h0, l0, more, h') && more == es + [e]
  {
    more := es + [e];
    EvolveConcat(t, h0, l0, es, [e]);
    var l := Evolve(t, h0, l0, es).1;
    var w := Happens(t, h, l, e);
    assert [e][1..] == [];
    assert Evolve(t, h, l, [e]) == Evolve(t, h', w.local, []);
  }

  // ---------------------------------------------------------------- whole passes

  ghost function Steps(ks: seq<Tick>): (r: seq<Happening>)
    ensures forall e :: e in r ==> e.PassStep?
  {
    if |ks| == 0 then [] else [PassStep(ks[0])] + Steps(ks[1..])
  }

  lemma {:induction false} StepsAreBurst(t: Tenant, h: Home, l: Local, ks: seq<Tick>)
    ensures Evolve(t, h, l, Steps(ks)) == Burst(t, h, l, ks)
    decreases |ks|
  {
    if |ks| > 0 {
      assert Steps(ks)[1..] == Steps(ks[1..]);
      if Running(l) {
        var w := Step(t, h, l, ks[0]);
        StepsAreBurst(t, Put(h, w.slot, w.obj), w.local, ks[1..]);
      } else {
        PutBack(h, Claim);
        StepsAreBurst(t, h, l, ks[1..]);
      }
    }
  }

  /** A pass, as part of a course. */
  ghost function PassOf(ks: seq<Tick>): seq<Happening> { [PassStart] + Steps(ks) }

  lemma PassEvolves(t: Tenant, h: Home, l: Local, ks: seq<Tick>)
    ensures Evolve(t, h, l, PassOf(ks)).0 == AfterPass(t, h, ks)
  {
    PutBack(h, Claim);
    assert PassOf(ks)[1..] == Steps(ks);
    StepsAreBurst(t, h, Begin(), ks);
  }

  lemma PassLeads(t: Tenant, h0: Home, l0: Local, es: seq<Happening>, h: Home, ks: seq<Tick>) returns (more: seq<Happening>)
    requires Leads(t, h0, l0, es, h)
    ensures Leads(t, h0, l0, more, AfterPass(t, h, ks)) && more == es + PassOf(ks)
  {
    more := es + PassOf(ks);
    EvolveConcat(t, h0, l0, es, PassOf(ks));
    PassEvolves(t, h, Evolve(t, h0, l0, es).1, ks);
  }

  const LUCK := Luck(true, "", 0, 0, "", "", "", "")

  ghost function CalmTicks(): seq<Tick> { seq(112, _ => Tick(NoFault, LUCK)) }

  lemma CalmTicksWhole()
    ensures Whole(CalmTicks())
  {
  }

  // ---------------------------------------------------------------- the namespace goes

  const INSIDE: seq<Target> := [
    TPolicy, TJwt, TCreds,
    TDeploy(Auth), TDeploy(Rest), TDeploy(Realtime), TDeploy(Storage), TDeploy(Functions),
    TService(Auth), TService(Rest), TService(Realtime), TService(Storage), TService(Functions)]

  lemma InsideIs(x: Target)
    ensures x in INSIDE <==> Inside(x)
  {
    var s := INSIDE;
    match x
    case TPolicy => assert s[0] == x;
    case TJwt => assert s[1] == x;
    case TCreds => assert s[2] == x;
    case TDeploy(Auth) => assert s[3] == x;
    case TDeploy(Rest) => assert s[4] == x;
    case TDeploy(Realtime) => assert s[5] == x;
    case TDeploy(Storage) => assert s[6] == x;
    case TDeploy(Functions) => assert s[7] == x;
    case TService(Auth) => assert s[8] == x;
    case TService(Rest) => assert s[9] == x;
    case TService(Realtime) => assert s[10] == x;
    case TService(Storage) => assert s[11] == x;
    case TService(Functions) => assert s[12] == x;
    case _ =>
  }

  /** Nothing else is different. */
  ghost predicate OnlyWithout(h: Home, h': Home, gone: seq<Target>) {
    && (forall s: Slot :: !(s.Child? && s.target in gone) ==> At(h', s) == At(h, s))
    && (forall x: Target :: x in gone ==> Child(x) !in h')
  }

  lemma SweptDoomed(h: Home, x: Target)
    requires Doomed(h) && Inside(x)
    ensures Doomed(h - {Child(x)})
  {
    assert At(h - {Child(x)}, Child(TNamespace)) == At(h, Child(TNamespace));
  }

  /** No creation among what happens. */
  predicate Uncreating(es: seq<Happening>) { forall e :: e in es ==> !e.UserCreates? }

  /** Nothing but calm passes at work, and the namespace becoming active. */
  ghost predicate Undisturbed(es: seq<Happening>) {
    forall e :: e in es ==> e.PassStart? || (e.PassStep? && CalmTick(e.tick)) || e.NamespaceActivates?
  }

  lemma {:induction false} SweepAll(t: Tenant, h0: Home, l0: Local, es0: seq<Happening>, h: Home, xs: seq<Target>)
      returns (es: seq<Happening>, h': Home)
    requires Leads(t, h0, l0, es0, h) && Doomed(h) && forall x :: x in xs ==> Inside(x)
    ensures Leads(t, h0, l0, es, h') && OnlyWithout(h, h', xs) && (Uncreating(es0) ==> Uncreating(es))
    decreases |xs|
  {
    if |xs| == 0 {
      es, h' := es0, h;
    } else {
      var h1 := h - {Child(xs[0])};
      es := EventLeads(t, h0, l0, es0, h, Sweep(xs[0]), h1);
      SweptDoomed(h, xs[0]);
      es, h' := SweepAll(t, h0, l0, es, h1, xs[1..]);
      assert forall x :: x in xs <==> x == xs[0] || x in xs[1..];
    }
  }

  /** The namespace is gone with everything in it. */
  lemma NamespaceGoes(t: Tenant, h0: Home, l0: Local, es0: seq<Happening>, h: Home) returns (es: seq<Happening>, h': Home)
    requires Leads(t, h0, l0, es0, h) && Doomed(h)
    ensures Leads(t, h0, l0, es, h') && Child(TNamespace) !in h' && Emptied(h') && (Uncreating(es0) ==> Uncreating(es))
    ensures forall s: Slot :: !(s.Child? && (Inside(s.target) || s.target.TNamespace?)) ==> At(h', s) == At(h, s)
  {
    forall x: Target ensures x in INSIDE <==> Inside(x) { InsideIs(x); }
    var h1;
    es, h1 := SweepAll(t, h0, l0, es0, h, INSIDE);
    StillDoomed(h, h1);
    es := EventLeads(t, h0, l0, es, h1, NamespaceGone, h1 - {Child(TNamespace)});
    h' := h1 - {Child(TNamespace)};
  }

  lemma StillDoomed(h: Home, h': Home)
    requires Doomed(h) && OnlyWithout(h, h', INSIDE)
    ensures Doomed(h')
  {
    InsideIs(TNamespace);
    assert At(h', Child(TNamespace)) == At(h, Child(TNamespace));
  }
}
