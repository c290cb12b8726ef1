/** Exactly which leftovers make it safe to create a tenant again, judged by what one sees in the cluster. */
module Exact {
  import opened Options
  import opened Objects
  import opened Tenants
  import opened Machine
  import opened Safety
  import opened Orders
  import opened Leftovers
  import opened Runs
  import opened Passes
  import opened Outcomes
  import opened Convergence
  import opened Courses
  import opened Draws
  import Credentials

  // ---------------------------------------------------------------- what is promised

  /** Gate and credential agreement, as the cluster shows them. */
  ghost predicate Intact(t: Tenant, s: Store, strict: bool) {
    GateKept(t, s, strict) && AgreementKept(t, s)
  }

  predicate NoCreation(es: seq<Event>, i: nat) {
    forall e :: e in es ==> !Creates(e, i)
  }

  /** They hold whatever happens next, to whomever, as long as this tenant is not created once more. */
  ghost predicate Lasting(ts: seq<Tenant>, y: System, i: nat, strict: bool)
    requires |y.locals| == |ts| && i < |ts|
  {
    forall es :: NoCreation(es, i) ==> Intact(ts[i], Run(ts, y, es).store, strict)
  }

  // ---------------------------------------------------------------- the check is enough

  lemma {:induction false} SafeLasts(ts: seq<Tenant>, y: System, i: nat, es: seq<Event>, strict: bool)
    requires Family(ts) && |y.locals| == |ts| && i < |ts| && TenantSafe(ts[i], y, y.locals[i], strict) && NoCreation(es, i)
    ensures Intact(ts[i], Run(ts, y, es).store, strict)
    decreases |es|
  {
    if |es| == 0 {
      SafeGate(ts[i], y, y.locals[i], strict);
      SafeAgreement(ts[i], y, y.locals[i], strict);
    } else {
      EventKeepsSafe(ts, y, es[0], i, strict);
      SafeLasts(ts, Next(ts, y, es[0]), i, es[1..], strict);
    }
  }

  lemma SafeIsLasting(ts: seq<Tenant>, y: System, i: nat, strict: bool)
    requires Family(ts) && |y.locals| == |ts| && i < |ts| && TenantSafe(ts[i], y, y.locals[i], strict)
    ensures Lasting(ts, y, i, strict)
  {
    forall es | NoCreation(es, i) ensures Intact(ts[i], Run(ts, y, es).store, strict) { SafeLasts(ts, y, i, es, strict); }
  }

  // ---------------------------------------------------------------- how either can be seen broken

  ghost predicate Behind(h: Home) {
    (forall x: Target :: Order(x) < 6 ==> Child(x) in h) && JobDone(h)
  }

  /** A workload or the route of a wanted tenant lacks something. */
  ghost predicate GateBroken(h: Home, strict: bool) {
    && Claim in h && h[Claim].ClaimObj? && !h[Claim].cr.deleting && !Behind(h) && (strict || !Doomed(h))
    && exists x: Target :: Mended(x) && Child(x) in h
  }

  /** The init job disagrees with one of the stored secrets. */
  ghost predicate AgreementBroken(h: Home) {
    && Child(TJwt) in h && Child(TCreds) in h && Child(TJob) in h && h[Child(TJob)].JobObj?
    && (h[Child(TJob)].job.password != Password(SecretData(h[Child(TCreds)]))
        || h[Child(TJob)].job.sql.jwtSecret != SigningKey(SecretData(h[Child(TJwt)])))
  }

  lemma GateSeenBroken(t: Tenant, s: Store, strict: bool)
    requires GateBroken(HomeOf(t, s), strict)
    ensures !GateKept(t, s, strict)
  {
    var h := HomeOf(t, s);
    var x: Target :| Mended(x) && Child(x) in h;
    HomeAt(t, s, Claim);
    HomeAt(t, s, Child(x));
    HomeAt(t, s, Child(TNamespace));
    if EverythingBehind(t, s) { BehindInView(t, s); }
    assert Mended(x) && Stands(t, s, x);
  }

  lemma BehindInView(t: Tenant, s: Store)
    requires EverythingBehind(t, s)
    ensures Behind(HomeOf(t, s))
  {
    HomeAt(t, s, Child(TNamespace));
    HomeAt(t, s, Child(TPolicy));
    HomeAt(t, s, Child(TJwt));
    HomeAt(t, s, Child(TCreds));
    HomeAt(t, s, Child(TDatabase));
    HomeAt(t, s, Child(TJob));
  }

  lemma AgreementSeenBroken(t: Tenant, s: Store)
    requires AgreementBroken(HomeOf(t, s))
    ensures !AgreementKept(t, s)
  {
    var h := HomeOf(t, s);
    HomeAt(t, s, Child(TJwt));
    HomeAt(t, s, Child(TCreds));
    HomeAt(t, s, Child(TJob));
    OtherCredentials(t, s, h[Child(TJob)], SecretData(h[Child(TJwt)]), SecretData(h[Child(TCreds)]));
  }

  lemma OtherCredentials(t: Tenant, s: Store, o: Obj, jwt: Credentials.Data, creds: Credentials.Data)
    requires Stands(t, s, TJwt) && Stands(t, s, TCreds) && Stands(t, s, TJob) && s[KeyOf(t, Child(TJob))] == o && o.JobObj?
    requires jwt == SecretData(s[KeyOf(t, Child(TJwt))]) && creds == SecretData(s[KeyOf(t, Child(TCreds))])
    requires o.job.password != Password(creds) || o.job.sql.jwtSecret != SigningKey(jwt)
    ensures !CredentialsAgree(t, s)
  {
  }

  // ---------------------------------------------------------------- courses that break them

  /** An init job without one of the secrets: a pass draws that one anew. */
  ghost predicate Orphaned(h: Home) {
    Child(TJob) in h && (Child(TJwt) !in h || Child(TCreds) !in h)
  }

  lemma DrawBreaks(h0: Home, h: Home, l: Local, j: JobSpec)
    requires Stage(h0, h, l, OtherMaterial(j), Check(TJwt)) && Orphaned(h0) && h0[Child(TJob)].JobObj? && h0[Child(TJob)].job == j
    ensures AgreementBroken(h)
  {
    assert At(h, Child(TJob)) == At(h0, Child(TJob));
    Longer(j.password);
    Longer(j.sql.jwtSecret);
  }

  lemma MarkedWorkable(h: Home, h1: Home)
    requires Unmarked(h) && h1 == h[Claim := ClaimObj(h[Claim].cr.(finalizer := true))] && Typed(h1)
    requires ParentSlot in h && !Doomed(h) && Orphaned(h)
    ensures Workable(h1) && Orphaned(h1) && h1[Child(TJob)].JobObj?
  {
    assert At(h1, Child(TNamespace)) == At(h, Child(TNamespace));
    assert Fits(Child(TJob), h1[Child(TJob)]);
  }

  lemma ToWorkable(t: Tenant, h0: Home, l0: Local, es0: seq<Happening>, h: Home) returns (es: seq<Happening>, h1: Home)
    requires Orderly(h0, l0) && Leads(t, h0, l0, es0, h) && Uncreating(es0)
    requires Unmarked(h) && ParentSlot in h && !Doomed(h) && Orphaned(h)
    ensures Leads(t, h0, l0, es, h1) && Uncreating(es) && Workable(h1) && Orphaned(h1) && h1[Child(TJob)].JobObj?
  {
    CalmTicksWhole();
    FinalizerRound(t, h, CalmTicks());
    es := PassLeads(t, h0, l0, es0, h, CalmTicks());
    h1 := AfterPass(t, h, CalmTicks());
    EvolveOrderly(t, h0, l0, es);
    MarkedWorkable(h, h1);
  }

  lemma ToDisagreement(t: Tenant, h0: Home, l0: Local, es0: seq<Happening>, h: Home) returns (es: seq<Happening>, h': Home)
    requires Orderly(h0, l0) && Leads(t, h0, l0, es0, h) && Uncreating(es0)
    requires Unmarked(h) && ParentSlot in h && !Doomed(h) && Orphaned(h)
    ensures Leads(t, h0, l0, es, h') && Uncreating(es) && AgreementBroken(h')
  {
    var h1, more, m;
    es, h1 := ToWorkable(t, h0, l0, es0, h);
    var j := h1[Child(TJob)].job;
    more, h', m := ToSecrets(t, h1, Evolve(t, h0, l0, es).1, OtherMaterial(j));
    DrawBreaks(h1, h', m, j);
    EvolveConcat(t, h0, l0, es, more);
    es := es + more;
  }

  ghost predicate Broken(h: Home, strict: bool) {
    GateBroken(h, strict) || AgreementBroken(h)
  }

  /** What is left outside a namespace on its way out outlives it: the route stands without anything behind it,
      the job without the secrets. */
  lemma DoomedBreaks(t: Tenant, h: Home, l: Local, strict: bool) returns (es: seq<Happening>, h': Home)
    requires Orderly(h, l) && Unmarked(h) && ParentSlot in h && Doomed(h) && !(NoneOutside(h) && (strict ==> Vacant(h)))
    ensures Leads(t, h, l, es, h') && Uncreating(es) && Broken(h', strict)
  {
    if NoneOutside(h) {
      es, h' := [], h;
      var x: Target :| Mended(x) && Child(x) in h;
      assert Order(TJob) < 6;
    } else {
      es, h' := NamespaceGoes(t, h, l, [], h);
      assert At(h', Claim) == At(h, Claim) && At(h', ParentSlot) == At(h, ParentSlot);
      assert At(h', Child(TRoute)) == At(h, Child(TRoute)) && At(h', Child(TJob)) == At(h, Child(TJob));
      if Child(TRoute) in h {
        assert Mended(TRoute) && Order(TNamespace) < 6;
      } else {
        es, h' := ToDisagreement(t, h, l, es, h');
      }
    }
  }

  lemma OpenBreaks(t: Tenant, h: Home, l: Local, strict: bool) returns (es: seq<Happening>, h': Home)
    requires Orderly(h, l) && Unmarked(h) && ParentSlot in h && !Doomed(h) && !Gated(h)
    ensures Leads(t, h, l, es, h') && Uncreating(es) && Broken(h', strict)
  {
    es, h' := [], h;
    if Orphaned(h) {
      es, h' := ToDisagreement(t, h, l, [], h);
    } else {
      UngatedWorkload(h);
    }
  }

  lemma UngatedWorkload(h: Home)
    requires !Doomed(h) && !Gated(h) && !Orphaned(h)
    ensures !Behind(h) && exists x: Target :: Mended(x) && Child(x) in h
  {
    if forall x: Target, y: Target :: Child(x) in h && Needs(x, y) ==> Child(y) in h {
      var x: Target :| Child(x) in h && Order(x) == 6;
      assert Mended(x);
    } else {
      var x: Target, y: Target :| Child(x) in h && Needs(x, y) && Child(y) !in h;
      assert Mended(x) && Order(y) < 6;
    }
  }

  lemma UncheckedBreaks(t: Tenant, h: Home, l: Local, strict: bool) returns (es: seq<Happening>, h': Home)
    requires Orderly(h, l) && Unmarked(h) && ParentSlot in h && !Checked(h, strict)
    ensures Leads(t, h, l, es, h') && Uncreating(es) && Broken(h', strict)
  {
    if Doomed(h) { es, h' := DoomedBreaks(t, h, l, strict); } else { es, h' := OpenBreaks(t, h, l, strict); }
  }

  // ---------------------------------------------------------------- the same in the system

  ghost const SOME_PARENT: Option<Parent> := Some(Parent("", ""))

  lemma CheckedSame(h: Home, h': Home, strict: bool)
    requires SameChildren(h, h')
    ensures Checked(h', strict) == Checked(h, strict)
  {
    SameGated(h, h');
    forall x: Target ensures Child(x) in h' <==> Child(x) in h { SameStands(h, h', x); }
  }

  lemma CreatedView(ts: seq<Tenant>, y: System, i: nat, spec: Spec)
    requires Family(ts) && |y.locals| == |ts| && i < |ts| && Claim !in HomeOf(ts[i], y.store)
    ensures var z := Next(ts, y, OfTenant(i, UserCreates(spec)));
            HomeOf(ts[i], z.store) == Created(HomeOf(ts[i], y.store), spec) && z.locals[i] == y.locals[i]
  {
    var w := Happens(ts[i], HomeOf(ts[i], y.store), y.locals[i], UserCreates(spec));
    OwnView(ts[i], y.store, w.slot, w.obj);
  }

  /** The tenant after its creation, with a parent. */
  lemma CreatedWithParent(ts: seq<Tenant>, y: System, y1: System, i: nat, spec: Spec)
    requires Family(ts) && Ordered(ts, y) && i < |ts| && Claim !in HomeOf(ts[i], y.store)
    requires y1 == Next(ts, y, OfTenant(i, UserCreates(spec)))
    ensures var z := Next(ts, y1, ParentChanges(SOME_PARENT)); var h := HomeOf(ts[i], z.store);
            && Orderly(h, z.locals[i]) && Unmarked(h) && ParentSlot in h && SameChildren(HomeOf(ts[i], y.store), h)
  {
    CreatedView(ts, y, i, spec);
    NextOrdered(ts, y, OfTenant(i, UserCreates(spec)));
    NextOrdered(ts, y1, ParentChanges(SOME_PARENT));
    ParentView(ts, y1, SOME_PARENT, i);
    var z := Next(ts, y1, ParentChanges(SOME_PARENT));
    assert TenantOrderly(ts[i], z, z.locals[i]);
    ParentAdded(HomeOf(ts[i], y.store), spec);
  }

  lemma ParentAdded(h: Home, spec: Spec)
    ensures var h' := Put(Created(h, spec), ParentSlot, ParentNow(SOME_PARENT)); Unmarked(h') && ParentSlot in h' && SameChildren(h, h')
  {
  }

  lemma NoneCreates(i: nat, es: seq<Happening>)
    requires Uncreating(es)
    ensures NoCreation([ParentChanges(SOME_PARENT)] + Events(i, es), i)
  {
    var r := Events(i, es);
    forall e | e in r ensures !Creates(e, i) {
      var k :| 0 <= k < |r| && r[k] == e;
      assert es[k] in es;
    }
  }

  lemma NotLasting(ts: seq<Tenant>, y: System, i: nat, es: seq<Event>, strict: bool)
    requires |y.locals| == |ts| && i < |ts| && NoCreation(es, i) && !Intact(ts[i], Run(ts, y, es).store, strict)
    ensures !Lasting(ts, y, i, strict)
  {
  }

  lemma BreaksInSystem(ts: seq<Tenant>, z: System, i: nat, strict: bool) returns (hs: seq<Happening>)
    requires Family(ts) && |z.locals| == |ts| && i < |ts|
    requires var h := HomeOf(ts[i], z.store); Orderly(h, z.locals[i]) && Unmarked(h) && ParentSlot in h && !Checked(h, strict)
    ensures Uncreating(hs) && !Intact(ts[i], Run(ts, z, Events(i, hs)).store, strict)
  {
    var h';
    hs, h' := UncheckedBreaks(ts[i], HomeOf(ts[i], z.store), z.locals[i], strict);
    EvolveIsRun(ts, z, i, hs);
    var last := Run(ts, z, Events(i, hs)).store;
    if GateBroken(h', strict) { GateSeenBroken(ts[i], last, strict); } else { AgreementSeenBroken(ts[i], last); }
  }

  /** A tenant created over leftovers that do not pass the check: a run breaks gate or agreement. */
  lemma UncheckedFails(ts: seq<Tenant>, y: System, i: nat, spec: Spec, strict: bool)
    requires Family(ts) && Ordered(ts, y) && i < |ts| && Claim !in HomeOf(ts[i], y.store) && !Checked(HomeOf(ts[i], y.store), strict)
    ensures !Lasting(ts, Next(ts, y, OfTenant(i, UserCreates(spec))), i, strict)
  {
    var y1 := Next(ts, y, OfTenant(i, UserCreates(spec)));
    var z := Next(ts, y1, ParentChanges(SOME_PARENT));
    CreatedWithParent(ts, y, y1, i, spec);
    CheckedSame(HomeOf(ts[i], y.store), HomeOf(ts[i], z.store), strict);
    var hs := BreaksInSystem(ts, z, i, strict);
    NoneCreates(i, hs);
    RunFirst(ts, y1, ParentChanges(SOME_PARENT), Events(i, hs));
    NotLasting(ts, y1, i, [ParentChanges(SOME_PARENT)] + Events(i, hs), strict);
  }

  lemma CheckedSafe(t: Tenant, h: Home, l: Local, spec: Spec, strict: bool)
    requires Orderly(h, l) && Agreed(t, h) && Claim !in h && Checked(h, strict)
    ensures if strict then Strict(t, Created(h, spec), l) else Secure(t, Created(h, spec), l)
  {
    assert Sound(t, h, l);
    CreationSecure(t, h, l, spec);
    if strict && Vacant(h) { CreatedVacant(h, spec); }
  }

  /** Exactly when it is safe to create a tenant again. Over leftovers whose credentials agree, gate and
      agreement hold from the creation on, whatever happens - to this tenant and its siblings, in whatever
      interleaving and with whatever faults - short of yet another creation, if and only if the leftovers pass
      the check. */
  lemma CreationExact(ts: seq<Tenant>, y: System, i: nat, spec: Spec, strict: bool)
    requires Family(ts) && Ordered(ts, y) && i < |ts|
    requires Claim !in HomeOf(ts[i], y.store) && Agreed(ts[i], HomeOf(ts[i], y.store))
    ensures Lasting(ts, Next(ts, y, OfTenant(i, UserCreates(spec))), i, strict) <==> Checked(HomeOf(ts[i], y.store), strict)
  {
    var t, h, l := ts[i], HomeOf(ts[i], y.store), y.locals[i];
    if Checked(h, strict) {
      assert TenantOrderly(t, y, l);
      CheckedSafe(t, h, l, spec, strict);
      CreatedView(ts, y, i, spec);
      SafeIsLasting(ts, Next(ts, y, OfTenant(i, UserCreates(spec))), i, strict);
    } else {
      UncheckedFails(ts, y, i, spec, strict);
    }
  }

  // ---------------------------------------------------------------- every run

  /** In every state of the run, gate and agreement are there to stay for every tenant. */
  ghost predicate AlwaysLasting(ts: seq<Tenant>, y: System, es: seq<Event>, strict: bool)
    requires |y.locals| == |ts|
    decreases |es|
  {
    && (forall i: nat :: i < |ts| ==> Lasting(ts, y, i, strict))
    && (|es| > 0 ==> AlwaysLasting(ts, Next(ts, y, es[0]), es[1..], strict))
  }

  lemma {:induction false} RunExact(ts: seq<Tenant>, y: System, es: seq<Event>, strict: bool)
    requires Family(ts) && Ordered(ts, y) && Safe(ts, y, strict)
    ensures AlwaysLasting(ts, y, es, strict) <==> Careful(ts, y, es, strict)
    decreases |es|
  {
    forall i: nat | i < |ts| ensures Lasting(ts, y, i, strict) { SafeIsLasting(ts, y, i, strict); }
    if |es| > 0 {
      var z := Next(ts, y, es[0]);
      NextOrdered(ts, y, es[0]);
      if CarefulEvent(ts, y, es[0], strict) {
        NextSafe(ts, y, es[0], strict);
        RunExact(ts, z, es[1..], strict);
      } else {
        var i: nat :| i < |ts| && Creates(es[0], i) && Claim !in HomeOf(ts[i], y.store) && !Checked(HomeOf(ts[i], y.store), strict);
        UncheckedFails(ts, y, i, es[0].what.spec, strict);
        assert !Lasting(ts, z, i, strict);
      }
    }
  }

  /** From before the first tenant on: in every state of a run gate and agreement are there to stay, for every
      tenant, if and only if every creation of a tenant passed the check. */
  lemma EveryRunExact(ts: seq<Tenant>, y: System, es: seq<Event>, strict: bool)
    requires Family(ts) && Fresh(ts, y)
    ensures AlwaysLasting(ts, y, es, strict) <==> Careful(ts, y, es, strict)
  {
    FreshIsOrdered(ts, y);
    FreshIsSafe(ts, y, strict);
    RunExact(ts, y, es, strict);
  }
}
