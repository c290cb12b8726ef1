/** How a fault-free pass gets through the prerequisites: it takes those that stand as they are and creates
    those that are missing, secrets with the material it draws. */
module Draws {
  import opened Options
  import opened Objects
  import opened Tenants
  import opened Machine
  import opened Safety
  import opened Passes
  import opened Outcomes
  import opened Courses
  import Credentials

  ghost function LuckyTick(luck: Luck): Tick { Tick(NoFault, luck) }

  /** The password that the database credentials hold, and the key that signs. */
  ghost function Password(creds: Credentials.Data): string { Credentials.Val(creds, "postgres-password") }

  ghost function SigningKey(jwt: Credentials.Data): string { Credentials.Val(jwt, "jwt-secret") }

  /** Material that repeats neither the password nor the signing key that a job was given. */
  ghost function OtherMaterial(j: JobSpec): Luck {
    Luck(true, j.sql.jwtSecret + "x", 0, 0, j.password + "x", "", "", "")
  }

  lemma Longer(p: string)
    ensures p + "x" != p
  {
    assert |p + "x"| == |p| + 1;
  }

  // ---------------------------------------------------------------- an object that is missing

  lemma LookMissing(t: Tenant, h: Home, l: Local, k: Tick, x: Target)
    requires l.Pass? && l.pc == Ensure(x, Look) && Child(x) !in h && CalmTick(k)
    ensures var w, d := Step(t, h, l, k), Drawn(t, l, x, k.luck); Put(h, w.slot, w.obj) == h && d.Pass? && w.local == d.(pc := Ensure(x, Add))
  {
    PutBack(h, Child(x));
  }

  lemma SameWanted(t: Tenant, l: Local, pc: PC, x: Target)
    requires l.Pass?
    ensures DesiredBy(t, l.(pc := pc), x) == DesiredBy(t, l, x)
  {
  }

  /** What the pass remembers of the secrets, once it has created one. */
  ghost predicate Taught(l: Local, m: Local, luck: Luck, x: Target)
    requires l.Pass? && m.Pass?
  {
    && (if x.TJwt? then SigningKey(m.jwt) == luck.jwt else m.jwt == l.jwt)
    && (if x.TCreds? then Password(m.creds) == luck.postgres else m.creds == l.creds)
  }

  lemma DrawnTaught(t: Tenant, l: Local, x: Target, luck: Luck)
    requires l.Pass?
    ensures Taught(l, Drawn(t, l, x, luck), luck, x)
  {
  }

  /** It is created in two calls. */
  lemma GoesCalls(t: Tenant, h: Home, l: Local, luck: Luck, x: Target) returns (es: seq<Happening>, h': Home, m: Local)
    requires l.Pass? && l.pc == Ensure(x, Look) && Child(x) !in h && Open(h, Child(x)) && luck.drawn
    ensures Goes(t, h, l, es, h', m) && Undisturbed(es)
    ensures m.Pass? && m.pc == AfterEnsure(x) && m.cr == l.cr && m.parent == l.parent
    ensures Taught(l, m, luck, x)
    ensures h' == h[Child(x) := DesiredBy(t, m, x)]
  {
    var k := LuckyTick(luck);
    var drawn := Drawn(t, l, x, luck);
    DrawnTaught(t, l, x, luck);
    var d := drawn.(pc := Ensure(x, Add));
    LookMissing(t, h, l, k, x);
    GoesCall(t, h, l, k, h, d);
    m := d.(pc := AfterEnsure(x));
    AddShape(t, h, d, k);
    SameWanted(t, d, AfterEnsure(x), x);
    h' := h[Child(x) := DesiredBy(t, d, x)];
    GoesCall(t, h, d, k, h', m);
    es := [PassStep(k)] + [PassStep(k)];
    GoesThen(t, h, l, [PassStep(k)], h, d, [PassStep(k)], h', m);
  }

  /** What is known of a new object. */
  ghost predicate NewObject(m: Local, x: Target, o: Obj)
    requires m.Pass?
  {
    && Fits(Child(x), o)
    && (x.TNamespace? ==> o.phase == Pending) && (x.TDatabase? ==> o.applied == None)
    && (x.TJwt? ==> o.data == m.jwt) && (x.TCreds? ==> o.data == m.creds)
  }

  lemma DesiredSecret(t: Tenant, l: Local, x: Target)
    requires l.Pass? && (x.TJwt? || x.TCreds?)
    ensures DesiredBy(t, l, x) == SecretObj(PartLabels(t, "secrets"), if x.TJwt? then l.jwt else l.creds)
  {
  }

  lemma DesiredDatabase(t: Tenant, l: Local)
    requires l.Pass?
    ensures DesiredBy(t, l, TDatabase).DatabaseObj? && DesiredBy(t, l, TDatabase).applied == None
  {
  }

  lemma DesiredIsNew(t: Tenant, m: Local, x: Target)
    requires m.Pass?
    ensures NewObject(m, x, DesiredBy(t, m, x))
  {
    DesiredFits(t, m, x);
    if x.TJwt? || x.TCreds? { DesiredSecret(t, m, x); }
    if x.TDatabase? { DesiredDatabase(t, m); }
  }

  lemma GoesCreate(t: Tenant, h: Home, l: Local, luck: Luck, x: Target) returns (es: seq<Happening>, h': Home, m: Local, o: Obj)
    requires l.Pass? && l.pc == Ensure(x, Look) && Child(x) !in h && Open(h, Child(x)) && luck.drawn
    ensures Goes(t, h, l, es, h', m) && h' == h[Child(x) := o] && Undisturbed(es)
    ensures m.Pass? && m.pc == AfterEnsure(x) && m.cr == l.cr && NewObject(m, x, o) && Taught(l, m, luck, x)
  {
    es, h', m := GoesCalls(t, h, l, luck, x);
    o := DesiredBy(t, m, x);
    DesiredIsNew(t, m, x);
  }

  // ---------------------------------------------------------------- an object that is there

  /** It is taken as it is. */
  lemma GoesFind(t: Tenant, h: Home, l: Local, luck: Luck, x: Target) returns (es: seq<Happening>, m: Local)
    requires l.Pass? && l.pc == Ensure(x, Look) && Child(x) in h && Fits(Child(x), h[Child(x)]) && !Mended(x) && luck.drawn
    ensures Goes(t, h, l, es, h, m) && m.Pass? && m.pc == AfterEnsure(x) && m.cr == l.cr && Undisturbed(es)
    ensures m.jwt == (if x.TJwt? then h[Child(x)].data else l.jwt) && m.creds == (if x.TCreds? then h[Child(x)].data else l.creds)
  {
    var k := LuckyTick(luck);
    var d := Learn(l, x, h[Child(x)]);
    m := d.(pc := AfterEnsure(x));
    PutBack(h, Child(x));
    GoesCall(t, h, l, k, h, m);
    es := [PassStep(k)];
  }

  lemma PrerequisiteDone(t: Tenant, l: Local, c: Component)
    requires l.Pass? && (c.CNamespace? || c.CSecrets? || c.CDatabase?)
    ensures var m := Conclude(t, l, c, Healthy);
      m.cr == l.cr && m.jwt == l.jwt && m.creds == l.creds && m.pc == StartOf(NextComponent(c), l.cr.spec.suspended)
  {
  }

  /** Where a check leads that has found nothing wrong: to the second object of the component, or beyond it. */
  function Onward(x: Target, healthy: bool, suspended: bool): PC {
    if healthy then StartOf(NextComponent(ComponentOf(x)), suspended) else Check(if x.TJwt? then TCreds else TJob)
  }

  lemma GoesCheck(t: Tenant, h: Home, l: Local, luck: Luck, x: Target) returns (es: seq<Happening>, m: Local)
    requires l.Pass? && l.pc == Check(x) && Child(x) in h && luck.drawn && !Mended(x)
    requires Examine(x, h[Child(x)]) == None || Examine(x, h[Child(x)]) == Some(Healthy)
    ensures Goes(t, h, l, es, h, m) && Undisturbed(es)
    ensures m.Pass? && m.cr == l.cr && m.jwt == l.jwt && m.creds == l.creds
    ensures m.pc == Onward(x, Examine(x, h[Child(x)]).Some?, l.cr.spec.suspended)
  {
    var k := LuckyTick(luck);
    m := AfterCheck(t, l, x, Ok(h[Child(x)]));
    PutBack(h, Child(x));
    CheckShape(t, h, l, k);
    GoesCall(t, h, l, k, h, m);
    es := [PassStep(k)];
    PrerequisiteDone(t, l, ComponentOf(x));
  }

  // ---------------------------------------------------------------- points of the pass

  /** A tenant that a pass can build: its finalizer is in place, it is not being deleted, its parent can be
      read, and its namespace, if there, is not on its way out. */
  ghost predicate Workable(h: Home) {
    Typed(h) && Persisted(h) && !h[Claim].cr.deleting && ParentSlot in h && !Doomed(h)
  }

  ghost predicate Holds(h: Home, x: Target, data: Credentials.Data) {
    Child(x) in h && h[Child(x)].SecretObj? && h[Child(x)].data == data
  }

  /** The secrets that the pass has dealt with are those that it remembers, and what was missing is drawn. */
  ghost predicate Remembered(h0: Home, h: Home, l: Local, luck: Luck, n: nat)
    requires l.Pass?
  {
    && (n >= 3 ==> Holds(h, TJwt, l.jwt) && (Child(TJwt) !in h0 ==> SigningKey(l.jwt) == luck.jwt))
    && (n >= 4 ==> Holds(h, TCreds, l.creds) && (Child(TCreds) !in h0 ==> Password(l.creds) == luck.postgres))
  }

  /** What stood before stands as it was, and what the pass has not dealt with yet is as it was. */
  ghost predicate Spared(h0: Home, h: Home, n: nat) {
    forall x: Target :: x != TNamespace && (Child(x) in h0 || Turn(x) >= n) ==> At(h, Child(x)) == At(h0, Child(x))
  }

  ghost predicate Stage(h0: Home, h: Home, l: Local, luck: Luck, pc: PC) {
    && l.Pass? && l.pc == pc && Claim in h0 && h0[Claim].ClaimObj? && l.cr == h0[Claim].cr
    && Around(h0, h) && At(h, Claim) == At(h0, Claim) && Typed(h)
    && (Dealt(pc) >= 1 ==> NamespaceUp(h))
    && Spared(h0, h, Dealt(pc)) && Remembered(h0, h, l, luck, Dealt(pc))
  }

  lemma TurnsSpared(h0: Home, h: Home, n: nat, x: Target, o: Obj)
    requires Spared(h0, h, n) && Turn(x) >= n && Child(x) !in h
    ensures Spared(h0, h[Child(x) := o], Turn(x) + 1)
  {
    assert x == TNamespace || At(h, Child(x)) == At(h0, Child(x));
  }

  lemma NewRemembered(h0: Home, h: Home, l: Local, luck: Luck, x: Target, o: Obj, m: Local)
    requires l.Pass? && m.Pass? && Remembered(h0, h, l, luck, Turn(x)) && Child(x) !in h
    requires NewObject(m, x, o) && Taught(l, m, luck, x)
    ensures Remembered(h0, h[Child(x) := o], m, luck, Turn(x) + 1)
  {
  }

  lemma StageNew(h0: Home, h: Home, l: Local, luck: Luck, x: Target, o: Obj, m: Local)
    requires Stage(h0, h, l, luck, Ensure(x, Look)) && Child(x) !in h && !x.TNamespace?
    requires m.Pass? && m.pc == AfterEnsure(x) && m.cr == l.cr && NewObject(m, x, o) && Taught(l, m, luck, x)
    ensures Stage(h0, h[Child(x) := o], m, luck, AfterEnsure(x))
  {
    NextTurn(x);
    TypedPut(h, Child(x), o);
    TurnsSpared(h0, h, Turn(x), x, o);
    NewRemembered(h0, h, l, luck, x, o, m);
    assert Turn(x) >= 1;
    assert h[Child(x) := o][Child(TNamespace)] == h[Child(TNamespace)];
  }

  /** The object is created as the pass wants it. */
  lemma GoesAdd(t: Tenant, h0: Home, h: Home, l: Local, luck: Luck, x: Target) returns (es: seq<Happening>, h': Home, m: Local)
    requires Stage(h0, h, l, luck, Ensure(x, Look)) && luck.drawn && !x.TNamespace? && Child(x) !in h && Open(h, Child(x))
    ensures Goes(t, h, l, es, h', m) && Stage(h0, h', m, luck, AfterEnsure(x))
    ensures Child(x) in h' && h'[Child(x)] == DesiredBy(t, m, x)
  {
    es, h', m := GoesCalls(t, h, l, luck, x);
    var o := DesiredBy(t, m, x);
    DesiredIsNew(t, m, x);
    StageNew(h0, h, l, luck, x, o, m);
  }

  lemma StageFound(h0: Home, h: Home, l: Local, luck: Luck, x: Target, m: Local)
    requires Stage(h0, h, l, luck, Ensure(x, Look)) && Child(x) in h && !x.TNamespace? && Fits(Child(x), h[Child(x)])
    requires m.Pass? && m.pc == AfterEnsure(x) && m.cr == l.cr
    requires m.jwt == (if x.TJwt? then h[Child(x)].data else l.jwt) && m.creds == (if x.TCreds? then h[Child(x)].data else l.creds)
    ensures Stage(h0, h, m, luck, AfterEnsure(x))
  {
    NextTurn(x);
    assert At(h, Child(x)) == At(h0, Child(x));
    assert Turn(x) >= 1;
  }

  /** The object is found, or created. */
  lemma GoesEnsure(t: Tenant, h0: Home, h: Home, l: Local, luck: Luck, x: Target) returns (es: seq<Happening>, h': Home, m: Local)
    requires Stage(h0, h, l, luck, Ensure(x, Look)) && luck.drawn && !x.TNamespace? && !Mended(x)
    requires Inside(x) || OpenAt(At(h0, Platform))
    ensures Goes(t, h, l, es, h', m) && Stage(h0, h', m, luck, AfterEnsure(x)) && Undisturbed(es)
    ensures Child(x) in h' && (Child(x) in h ==> h' == h)
    ensures x.TDatabase? && Child(x) !in h ==> h'[Child(x)].DatabaseObj? && h'[Child(x)].applied == None
  {
    if Child(x) in h {
      h' := h;
      assert Fits(Child(x), h[Child(x)]);
      es, m := GoesFind(t, h, l, luck, x);
      StageFound(h0, h, l, luck, x, m);
    } else {
      var o;
      HolderUp(h0, h, l, luck, x);
      es, h', m, o := GoesCreate(t, h, l, luck, x);
      StageNew(h0, h, l, luck, x, o, m);
    }
  }

  lemma HolderUp(h0: Home, h: Home, l: Local, luck: Luck, x: Target)
    requires Stage(h0, h, l, luck, Ensure(x, Look)) && !x.TNamespace? && (Inside(x) || OpenAt(At(h0, Platform)))
    ensures Open(h, Child(x))
  {
    assert Turn(x) >= 1;
  }

  lemma GoesOn(t: Tenant, h0: Home, h: Home, l: Local, luck: Luck, x: Target) returns (es: seq<Happening>, m: Local)
    requires Stage(h0, h, l, luck, Check(x)) && luck.drawn && !Mended(x) && !x.TPolicy? && Child(x) in h
    requires Examine(x, h[Child(x)]) == None || Examine(x, h[Child(x)]) == Some(Healthy)
    ensures Goes(t, h, l, es, h, m) && m.Pass? && Stage(h0, h, m, luck, m.pc) && Undisturbed(es)
    ensures m.pc == Onward(x, Examine(x, h[Child(x)]).Some?, h0[Claim].cr.spec.suspended)
  {
    es, m := GoesCheck(t, h, l, luck, x);
    OnwardDealt(x, Examine(x, h[Child(x)]).Some?, l.cr.spec.suspended);
  }

  lemma OnwardDealt(x: Target, healthy: bool, suspended: bool)
    requires !Mended(x) && !x.TPolicy? && (healthy || x.TJwt? || x.TDatabase?)
    ensures Dealt(Onward(x, healthy, suspended)) == Dealt(Check(x))
  {
  }

  // ---------------------------------------------------------------- from the start to the secrets

  lemma BeginReads(t: Tenant, h: Home, k: Tick)
    requires Workable(h) && CalmTick(k)
    ensures var w := Step(t, h, Begin(), k); Put(h, w.slot, w.obj) == h && w.local.Pass? && w.local.pc.ReadParent? && w.local.cr == h[Claim].cr
  {
    PutBack(h, Claim);
  }

  lemma ParentReads(t: Tenant, h: Home, l: Local, k: Tick)
    requires ParentSlot in h && l.Pass? && l.pc.ReadParent? && CalmTick(k)
    ensures var w := Step(t, h, l, k); Put(h, w.slot, w.obj) == h && w.local.Pass? && w.local.pc == Ensure(TNamespace, Look) && w.local.cr == l.cr
  {
    PutBack(h, ParentSlot);
  }

  lemma GoesBegin(t: Tenant, h0: Home, l0: Local, luck: Luck) returns (es: seq<Happening>, l: Local)
    requires Workable(h0) && luck.drawn
    ensures Goes(t, h0, l0, es, h0, l) && Stage(h0, h0, l, luck, Ensure(TNamespace, Look)) && Undisturbed(es)
  {
    var k := LuckyTick(luck);
    BeginReads(t, h0, k);
    var r := Step(t, h0, Begin(), k).local;
    ParentReads(t, h0, r, k);
    l := Step(t, h0, r, k).local;
    GoesCall(t, h0, Begin(), k, h0, r);
    GoesCall(t, h0, r, k, h0, l);
    GoesThen(t, h0, Begin(), [PassStep(k)], h0, r, [PassStep(k)], h0, l);
    PutBack(h0, Claim);
    es := [PassStart] + ([PassStep(k)] + [PassStep(k)]);
    assert es[1..] == [PassStep(k)] + [PassStep(k)];
  }

  /** A namespace that is not on its way out becomes active. */
  lemma Activates(t: Tenant, h: Home, l: Local) returns (h': Home)
    requires Child(TNamespace) in h && Fits(Child(TNamespace), h[Child(TNamespace)]) && !Doomed(h)
    ensures Goes(t, h, l, [NamespaceActivates], h', l) && h' == h[Child(TNamespace) := h[Child(TNamespace)].(phase := Active)]
  {
    var o := h[Child(TNamespace)];
    h' := h[Child(TNamespace) := o.(phase := Active)];
    assert [NamespaceActivates][1..] == [];
    PutBack(h, Child(TNamespace));
    if o.phase.Active? { assert o.(phase := Active) == o; }
  }

  lemma GoesNamespace(t: Tenant, h0: Home, l0: Local, luck: Luck) returns (es: seq<Happening>, h: Home, l: Local)
    requires Workable(h0) && luck.drawn && Stage(h0, h0, l0, luck, Ensure(TNamespace, Look))
    ensures Goes(t, h0, l0, es, h, l) && Stage(h0, h, l, luck, Ensure(TPolicy, Look)) && Undisturbed(es)
  {
    var h1;
    if Child(TNamespace) in h0 {
      h1 := h0;
      assert Fits(Child(TNamespace), h0[Child(TNamespace)]);
      es, l := GoesFind(t, h0, l0, luck, TNamespace);
    } else {
      var o;
      es, h1, l, o := GoesCreate(t, h0, l0, luck, TNamespace);
      TypedPut(h0, Child(TNamespace), o);
    }
    assert Fits(Child(TNamespace), h1[Child(TNamespace)]);
    h := Activates(t, h1, l);
    GoesThen(t, h0, l0, es, h1, l, [NamespaceActivates], h, l);
    es := es + [NamespaceActivates];
    HousedStage(h0, h1, h, l, luck);
  }

  lemma HousedStage(h0: Home, h1: Home, h: Home, l: Local, luck: Luck)
    requires Workable(h0) && Typed(h1) && l.Pass? && l.pc == Ensure(TPolicy, Look) && l.cr == h0[Claim].cr
    requires forall s: Slot :: s != Child(TNamespace) ==> At(h1, s) == At(h0, s)
    requires Child(TNamespace) in h1 && h1[Child(TNamespace)].NamespaceObj?
    requires h == h1[Child(TNamespace) := h1[Child(TNamespace)].(phase := Active)]
    ensures Stage(h0, h, l, luck, Ensure(TPolicy, Look))
  {
    TypedPut(h1, Child(TNamespace), h[Child(TNamespace)]);
    assert forall s: Slot :: s != Child(TNamespace) ==> At(h, s) == At(h1, s);
  }

  /** Namespace and policy, and the check of the namespace. */
  lemma GoesHouse(t: Tenant, h0: Home, l0: Local, luck: Luck) returns (es: seq<Happening>, h: Home, l: Local)
    requires Workable(h0) && luck.drawn
    ensures Goes(t, h0, l0, es, h, l) && Stage(h0, h, l, luck, Ensure(TJwt, Look)) && Undisturbed(es)
  {
    var a, l1 := GoesBegin(t, h0, l0, luck);
    var b, h2, l2 := GoesNamespace(t, h0, l1, luck);
    GoesThen(t, h0, l0, a, h0, l1, b, h2, l2);
    var c, h3, l3 := GoesEnsure(t, h0, h2, l2, luck, TPolicy);
    GoesThen(t, h0, l0, a + b, h2, l2, c, h3, l3);
    var d, l4 := GoesOn(t, h0, h3, l3, luck, TNamespace);
    GoesThen(t, h0, l0, a + b + c, h3, l3, d, h3, l4);
    es, h, l := a + b + c + d, h3, l4;
  }

  /** A pass comes to the check of the secrets, with both of them in place: those that stood as they were, those
      that were missing with the new material. */
  lemma ToSecrets(t: Tenant, h0: Home, l0: Local, luck: Luck) returns (es: seq<Happening>, h: Home, l: Local)
    requires Workable(h0) && luck.drawn
    ensures Goes(t, h0, l0, es, h, l) && Stage(h0, h, l, luck, Check(TJwt)) && Undisturbed(es)
  {
    var a, h1, l1 := GoesHouse(t, h0, l0, luck);
    var b, h2, l2 := GoesEnsure(t, h0, h1, l1, luck, TJwt);
    GoesThen(t, h0, l0, a, h1, l1, b, h2, l2);
    var c, h3, l3 := GoesEnsure(t, h0, h2, l2, luck, TCreds);
    GoesThen(t, h0, l0, a + b, h2, l2, c, h3, l3);
    es, h, l := a + b + c, h3, l3;
  }
}
