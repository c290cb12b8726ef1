/** The persisted status: what `Ready` means at every point of every run. */
module Statuses {
  import opened Options
  import opened Objects
  import opened Tenants
  import opened Machine
  import opened Safety

  // ---------------------------------------------------------------- condition lists

  ghost predicate Distinct(cs: seq<Condition>) {
    forall i, j :: 0 <= i < j < |cs| ==> cs[i].kind != cs[j].kind
  }

  ghost predicate Shows(cs: seq<Condition>, kind: CondKind, generation: int) {
    exists i :: 0 <= i < |cs| && cs[i].kind == kind && cs[i].holds && cs[i].observed == generation
  }

  lemma {:induction false} SetKinds(cs: seq<Condition>, c: Condition, i: nat)
    requires i < |SetCondition(cs, c)|
    ensures SetCondition(cs, c)[i].kind == c.kind || (exists j :: 0 <= j < |cs| && cs[j].kind == SetCondition(cs, c)[i].kind)
  {
    if |cs| > 0 && cs[0].kind != c.kind {
      assert SetCondition(cs, c) == [cs[0]] + SetCondition(cs[1..], c);
      if i > 0 {
        SetKinds(cs[1..], c, i - 1);
        if SetCondition(cs, c)[i].kind != c.kind {
          var j :| 0 <= j < |cs[1..]| && cs[1..][j].kind == SetCondition(cs[1..], c)[i - 1].kind;
          assert cs[j + 1].kind == SetCondition(cs, c)[i].kind;
        }
      } else {
        assert cs[0].kind == SetCondition(cs, c)[0].kind;
      }
    } else if |cs| > 0 && i > 0 {
      assert cs[i].kind == SetCondition(cs, c)[i].kind;
    }
  }

  lemma {:induction false} SetKeepsDistinct(cs: seq<Condition>, c: Condition)
    requires Distinct(cs)
    ensures Distinct(SetCondition(cs, c))
  {
    if |cs| > 0 && cs[0].kind != c.kind {
      var rest := SetCondition(cs[1..], c);
      assert Distinct(cs[1..]);
      SetKeepsDistinct(cs[1..], c);
      forall i | 0 <= i < |rest| ensures rest[i].kind != cs[0].kind {
        SetKinds(cs[1..], c, i);
        if rest[i].kind != c.kind {
          var j :| 0 <= j < |cs[1..]| && cs[1..][j].kind == rest[i].kind;
          assert cs[j + 1].kind == rest[i].kind;
        }
      }
      assert SetCondition(cs, c) == [cs[0]] + rest;
    }
  }

  lemma {:induction false} SetShows(cs: seq<Condition>, c: Condition)
    requires c.holds
    ensures Shows(SetCondition(cs, c), c.kind, c.observed)
  {
    if |cs| > 0 && cs[0].kind != c.kind {
      SetShows(cs[1..], c);
      var i :| 0 <= i < |SetCondition(cs[1..], c)| && SetCondition(cs[1..], c)[i].kind == c.kind
               && SetCondition(cs[1..], c)[i].holds && SetCondition(cs[1..], c)[i].observed == c.observed;
      assert SetCondition(cs, c)[i + 1] == SetCondition(cs[1..], c)[i];
    } else {
      assert SetCondition(cs, c)[0] == c;
    }
  }

  /** Because the nine kinds differ, recording one component leaves the others as they were. */
  lemma {:induction false} SetLeavesOthers(cs: seq<Condition>, c: Condition, kind: CondKind, generation: int)
    requires kind != c.kind && Shows(cs, kind, generation)
    ensures Shows(SetCondition(cs, c), kind, generation)
  {
    var i :| 0 <= i < |cs| && cs[i].kind == kind && cs[i].holds && cs[i].observed == generation;
    if cs[0].kind == c.kind {
      assert SetCondition(cs, c)[i] == cs[i];
    } else if i == 0 {
      assert SetCondition(cs, c)[0] == cs[0];
    } else {
      assert cs[1..][i - 1] == cs[i];
      SetLeavesOthers(cs[1..], c, kind, generation);
      var j :| 0 <= j < |SetCondition(cs[1..], c)| && SetCondition(cs[1..], c)[j].kind == kind
               && SetCondition(cs[1..], c)[j].holds && SetCondition(cs[1..], c)[j].observed == generation;
      assert SetCondition(cs, c)[j + 1] == SetCondition(cs[1..], c)[j];
    }
  }

  /** The condition of a kind, as readers of the list find it. */
  function Latest(cs: seq<Condition>, kind: CondKind): Option<Condition> {
    if |cs| == 0 then None else if cs[0].kind == kind then Some(cs[0]) else Latest(cs[1..], kind)
  }

  lemma {:induction false} LatestSet(cs: seq<Condition>, c: Condition, kind: CondKind)
    ensures Latest(SetCondition(cs, c), kind) == if kind == c.kind then Some(c) else Latest(cs, kind)
  {
    if |cs| > 0 && cs[0].kind != c.kind {
      LatestSet(cs[1..], c, kind);
      assert SetCondition(cs, c)[1..] == SetCondition(cs[1..], c);
    }
  }

  /** The texts of the condition types; distinct kinds have distinct texts. */
  function TypeText(k: CondKind): string {
    match k
    case Of(CNamespace) => "NamespaceReady"
    case Of(CSecrets) => "SecretsReady"
    case Of(CDatabase) => "DatabaseReady"
    case Of(CService(Auth)) => "AuthReady"
    case Of(CService(Rest)) => "RESTReady"
    case Of(CService(Realtime)) => "RealtimeReady"
    case Of(CService(Storage)) => "StorageReady"
    case Of(CService(Functions)) => "FunctionsReady"
    case Of(CRouting) => "RoutingReady"
    case Overall => "Ready"
  }

  predicate SameButForCapitals(a: string, b: string) {
    |a| == |b| && forall i :: 0 <= i < |a| ==> a[i] == b[i] || ('A' <= a[i] <= 'Z' && a[i] as int + 32 == b[i] as int)
  }

  /** The condition type of a service is named after it, up to capitals. */
  lemma ServiceTypeText(svc: Svc)
    ensures var text, n := TypeText(Of(CService(svc))), |SvcName(svc)|;
            |text| > n && SameButForCapitals(text[..n], SvcName(svc)) && text[n..] == "Ready"
  {
    var text, n := TypeText(Of(CService(svc))), |SvcName(svc)|;
    assert text[n..] == "Ready";
  }

  lemma TypeTextsDistinct(a: CondKind, b: CondKind)
    requires TypeText(a) == TypeText(b)
    ensures a == b
  {
    assert |TypeText(a)| == |TypeText(b)| && TypeText(a)[0] == TypeText(b)[0];
    assert TypeText(a)[2] == TypeText(b)[2] && TypeText(a)[1] == TypeText(b)[1];
  }

  // ---------------------------------------------------------------- the invariant

  /** A status is honest when each condition type occurs at most once and `Ready` is backed by all nine
      component conditions, true and as current as the status itself. */
  ghost predicate Honest(st: Status) {
    && Distinct(st.conditions)
    && (st.phase.Ready? ==> forall c: Component :: Shows(st.conditions, Of(c), st.observed))
  }

  function Place(c: Component): nat {
    match c
    case CNamespace => 0
    case CSecrets => 1
    case CDatabase => 2
    case CService(Auth) => 3
    case CService(Rest) => 4
    case CService(Realtime) => 5
    case CService(Storage) => 6
    case CService(Functions) => 7
    case CRouting => 8
  }

  /** How many components a pass has concluded. */
  function Concluded(pc: PC): nat {
    match pc
    case Ensure(x, _) => Place(ComponentOf(x))
    case Check(x) => Place(ComponentOf(x))
    case Quiesce(svc, _) => Place(CService(svc))
    case Unroute(_) => 8
    case _ => 0
  }

  /** The components before place `n` are shown as true; services count only as long as all of them are. */
  ghost predicate Shown(cs: seq<Condition>, generation: int, n: nat, services: bool) {
    forall c: Component :: Place(c) < n && (Place(c) < 3 || services) ==> Shows(cs, Of(c), generation)
  }

  ghost predicate Sincere(l: Local) {
    l.Pass? ==>
      && Distinct(l.status.conditions)
      && Shown(l.status.conditions, l.cr.generation, Concluded(l.pc), l.servicesReady)
      && (l.pc.Report? ==> Honest(l.status))
      && (l.pc.ReportLost? || l.pc.Park? || l.pc.MarkDeleting? ==> !l.status.phase.Ready?)
  }

  ghost predicate Truthful(h: Home, l: Local) {
    (Claim in h && h[Claim].ClaimObj? ==> Honest(h[Claim].cr.status)) && Sincere(l)
  }

  lemma PlaceUnique(c: Component, d: Component)
    requires Place(c) == Place(d)
    ensures c == d
  {
  }

  /** Recording one more component extends what is shown, unless a prerequisite failed. */
  lemma RecordShows(l: Local, c: Component, v: Verdict)
    requires l.Pass? && Distinct(l.status.conditions)
    requires Shown(l.status.conditions, l.cr.generation, Place(c), l.servicesReady)
    ensures var cs := Recorded(l, c, v).status.conditions;
            && Distinct(cs)
            && (v.Healthy? || Place(c) >= 3 ==> Shown(cs, l.cr.generation, Place(c) + 1, l.servicesReady && v.Healthy?))
  {
    var cond := Condition(Of(c), v.Healthy?, ReasonOf(v), l.cr.generation);
    var cs := Recorded(l, c, v).status.conditions;
    SetKeepsDistinct(l.status.conditions, cond);
    if v.Healthy? { SetShows(l.status.conditions, cond); }
    forall d: Component | Place(d) < Place(c) + 1 && (Place(d) < 3 || (l.servicesReady && v.Healthy?)) && (v.Healthy? || Place(c) >= 3)
      ensures Shows(cs, Of(d), l.cr.generation)
    {
      if Place(d) == Place(c) { PlaceUnique(d, c); }
      else { SetLeavesOthers(l.status.conditions, cond, Of(d), l.cr.generation); }
    }
  }

  lemma NextPlace(c: Component, suspended: bool)
    requires c != CRouting
    ensures var pc := StartOf(NextComponent(c), suspended);
            Concluded(pc) == Place(c) + 1 && !pc.Report? && !pc.ReportLost? && !pc.Park? && !pc.MarkDeleting?
  {
  }

  lemma RoutingSincere(t: Tenant, l: Local, v: Verdict)
    requires l.Pass? && Sincere(l) && Concluded(l.pc) == 8
    ensures Sincere(Conclude(t, l, CRouting, v))
  {
    RecordShows(l, CRouting, v);
    var m := Conclude(t, l, CRouting, v);
    if m.status.phase.Ready? {
      forall d: Component ensures Shows(m.status.conditions, Of(d), m.status.observed) {
        assert Place(d) < 9;
      }
    }
  }

  lemma ConcludeSincere(t: Tenant, l: Local, c: Component, v: Verdict)
    requires l.Pass? && Sincere(l) && Concluded(l.pc) == Place(c)
    ensures Sincere(Conclude(t, l, c, v))
  {
    if c == CRouting {
      RoutingSincere(t, l, v);
    } else {
      RecordShows(l, c, v);
      NextPlace(c, l.cr.spec.suspended);
    }
  }

  // ---------------------------------------------------------------- steps

  /** A pass that goes on within a component, or stops, stays sincere. */
  lemma MoveSincere(l: Local, m: Local)
    requires l.Pass? && m.Pass? && Sincere(l)
    requires m.status == l.status && m.cr == l.cr && m.servicesReady == l.servicesReady
    requires Concluded(m.pc) <= Concluded(l.pc)
    requires !m.pc.Report? && !m.pc.ReportLost? && !m.pc.Park? && !m.pc.MarkDeleting?
    ensures Sincere(m)
  {
  }

  lemma SamePlace(x: Target)
    ensures Concluded(AfterEnsure(x)) == Place(ComponentOf(x))
    ensures AfterEnsure(x).Ensure? || AfterEnsure(x).Check?
  {
  }

  lemma LookSincere(t: Tenant, l: Local, x: Target, r: Resp, luck: Luck)
    requires l.Pass? && Sincere(l) && l.pc == Ensure(x, Look)
    ensures Sincere(AfterLook(t, l, x, r, luck))
  {
    var m := AfterLook(t, l, x, r, luck);
    if r.Failed? || (r.NotFound? && (x.TJwt? || x.TCreds?) && !luck.drawn) {
      ConcludeSincere(t, l, ComponentOf(x), ReconcileFailed);
    } else {
      SamePlace(x);
      MoveSincere(l, m);
    }
  }

  lemma WriteSincere(t: Tenant, l: Local, x: Target, r: Resp)
    requires l.Pass? && Sincere(l) && l.pc.Ensure? && l.pc.target == x
    ensures Sincere(AfterWrite(t, l, x, r))
  {
    if r.Ok? {
      SamePlace(x);
      MoveSincere(l, AfterWrite(t, l, x, r));
    } else {
      ConcludeSincere(t, l, ComponentOf(x), ReconcileFailed);
    }
  }

  lemma EnsureSincere(t: Tenant, l: Local, r: Resp, luck: Luck)
    requires Running(l) && Sincere(l) && l.pc.Ensure?
    ensures Sincere(Resume(t, l, r, luck))
  {
    if l.pc.act.Look? { LookSincere(t, l, l.pc.target, r, luck); } else { WriteSincere(t, l, l.pc.target, r); }
  }

  lemma CheckSincere(t: Tenant, l: Local, r: Resp, luck: Luck)
    requires Running(l) && Sincere(l) && l.pc.Check?
    ensures Sincere(Resume(t, l, r, luck))
  {
    var x := l.pc.target;
    CheckMoves(t, l, x, r);
    ConcludeSincere(t, l, ComponentOf(x), HealthcheckFailed);
    ConcludeSincere(t, l, ComponentOf(x), Unhealthy);
    ConcludeSincere(t, l, ComponentOf(x), Healthy);
    assert Resume(t, l, r, luck) == AfterCheck(t, l, x, r);
  }

  lemma SuspendedSincere(t: Tenant, l: Local, r: Resp, luck: Luck)
    requires Running(l) && Sincere(l) && (l.pc.Quiesce? || l.pc.Unroute?)
    ensures Sincere(Resume(t, l, r, luck))
  {
    var c := if l.pc.Quiesce? then CService(l.pc.svc) else CRouting;
    ConcludeSincere(t, l, c, Healthy);
    ConcludeSincere(t, l, c, ReconcileFailed);
  }

  lemma ClaimSincere(h: Home, l: Local, r: Resp)
    requires l.Pass? && Truthful(h, l) && Concluded(l.pc) == 0
    requires r.Ok? ==> Claim in h && r.obj == h[Claim]
    ensures Sincere(AfterClaim(l, r))
  {
  }

  lemma LostSincere(l: Local)
    requires l.Pass? && Sincere(l) && l.pc.ReadParent?
    ensures Sincere(Lost(l))
  {
    SetKeepsDistinct(l.status.conditions, Condition(Overall, false, SupabaseRefNotFound, l.cr.generation));
  }

  lemma QuietMove(t: Tenant, l: Local, r: Resp, luck: Luck)
    requires Running(l) && (l.pc.PutFinalizer? || l.pc.ReportLost? || l.pc.Park? || l.pc.Report?)
    ensures Resume(t, l, r, luck) == l.(pc := Resume(t, l, r, luck).pc) && Resume(t, l, r, luck).pc.Stop?
  {
  }

  ghost predicate Unspoken(l: Local, m: Local)
    requires l.Pass? && m.Pass?
  {
    && m.status == l.status && Concluded(m.pc) == 0
    && !m.pc.Report? && !m.pc.ReportLost? && !m.pc.Park? && !m.pc.MarkDeleting?
  }

  lemma DropMove(t: Tenant, l: Local, r: Resp, luck: Luck)
    requires Running(l) && l.pc.Drop?
    ensures Unspoken(l, Resume(t, l, r, luck))
  {
    assert Concluded(AfterDrop(l.pc.target)) == 0;
  }

  lemma EndingMove(t: Tenant, l: Local, r: Resp, luck: Luck)
    requires Running(l) && (l.pc.MarkDeleting? || l.pc.ReadParentToo? || l.pc.Drop? || l.pc.Release?)
    ensures Unspoken(l, Resume(t, l, r, luck))
  {
    if l.pc.Drop? { DropMove(t, l, r, luck); }
  }

  lemma ParentSincere(t: Tenant, l: Local, r: Resp, luck: Luck)
    requires Running(l) && l.pc.ReadParent? && Sincere(l)
    ensures Sincere(Resume(t, l, r, luck))
  {
    LostSincere(l);
  }

  lemma OtherSincere(t: Tenant, h: Home, l: Local, r: Resp, luck: Luck)
    requires Running(l) && Truthful(h, l)
    requires !l.pc.Ensure? && !l.pc.Check? && !l.pc.Quiesce? && !l.pc.Unroute?
    requires l.pc.ReadClaim? && r.Ok? ==> Claim in h && r.obj == h[Claim]
    ensures Sincere(Resume(t, l, r, luck))
  {
    if l.pc.ReadClaim? { ClaimSincere(h, l, r); }
    else if l.pc.ReadParent? { ParentSincere(t, l, r, luck); }
    else if l.pc.PutFinalizer? || l.pc.ReportLost? || l.pc.Park? || l.pc.Report? { QuietMove(t, l, r, luck); }
    else { EndingMove(t, l, r, luck); }
  }

  /** The answer to a call never concerns another object than the one asked about. */
  lemma ClaimAnswer(t: Tenant, h: Home, l: Local, k: Tick)
    requires Running(l) && l.pc.ReadClaim?
    ensures var r := Serve(At(h, Claim), Open(h, Claim), Get, k.fault).1; r.Ok? ==> Claim in h && r.obj == h[Claim]
  {
  }

  lemma StepSincere(t: Tenant, h: Home, l: Local, k: Tick)
    requires Running(l) && Truthful(h, l)
    ensures Sincere(Step(t, h, l, k).local)
  {
    var op := NextOp(t, l);
    var r := Serve(At(h, op.slot), Open(h, op.slot), op.verb, k.fault).1;
    assert Step(t, h, l, k).local == Resume(t, l, r, k.luck);
    if l.pc.Ensure? { EnsureSincere(t, l, r, k.luck); }
    else if l.pc.Check? { CheckSincere(t, l, r, k.luck); }
    else if l.pc.Quiesce? || l.pc.Unroute? { SuspendedSincere(t, l, r, k.luck); }
    else {
      if l.pc.ReadClaim? { ClaimAnswer(t, h, l, k); }
      OtherSincere(t, h, l, r, k.luck);
    }
  }

  ghost predicate WritesStatus(pc: PC) {
    pc.ReportLost? || pc.Park? || pc.Report? || pc.MarkDeleting?
  }

  /** The status that is stored changes only where a pass writes one. */
  lemma StoredStatus(t: Tenant, h: Home, l: Local, k: Tick)
    requires Running(l)
    ensures var w := Step(t, h, l, k); var h' := Put(h, w.slot, w.obj);
            Claim in h' && h'[Claim].ClaimObj? ==>
              || (WritesStatus(l.pc) && h'[Claim].cr.status == l.status)
              || (Claim in h && h[Claim].ClaimObj? && h'[Claim].cr.status == h[Claim].cr.status)
  {
    var op := NextOp(t, l);
    if op.slot != Claim {
      assert At(Put(h, op.slot, Step(t, h, l, k).obj), Claim) == At(h, Claim);
    }
  }

  lemma StepKeepsTruthful(t: Tenant, h: Home, l: Local, k: Tick)
    requires Running(l) && Truthful(h, l)
    ensures var w := Step(t, h, l, k); Truthful(Put(h, w.slot, w.obj), w.local)
  {
    StepSincere(t, h, l, k);
    StoredStatus(t, h, l, k);
  }

  /** Nothing that others do touches the status. */
  lemma HappeningKeepsTruthful(t: Tenant, h: Home, l: Local, e: Happening)
    requires Truthful(h, l)
    ensures var w := Happens(t, h, l, e); Truthful(Put(h, w.slot, w.obj), w.local)
  {
    match e
    case PassStep(k) => if Running(l) { StepKeepsTruthful(t, h, l, k); }
    case _ => assert Distinct(BLANK_STATUS.conditions);
  }
}
