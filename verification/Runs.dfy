/** Runs of the whole system: several tenants of one parent, their passes interleaved call by call. */
module Runs {
  import opened Options
  import opened Objects
  import opened Tenants
  import opened Machine
  import opened Safety
  import opened Orders
  import opened Leftovers
  import opened Statuses
  import opened Endings
  import Credentials
  import opened Contents

  type Store = map<Key, Obj>

  ghost function Lookup(s: Store, k: Key): Option<Obj> {
    if k in s then Some(s[k]) else None
  }

  ghost function PutKey(s: Store, k: Key, o: Option<Obj>): Store {
    if o.Some? then s[k := o.value] else s - {k}
  }

  // ---------------------------------------------------------------- a tenant's view of the cluster

  ghost const CHILDREN: set<Target> :=
    {TNamespace, TPolicy, TJwt, TCreds, TDatabase, TJob, TRoute,
     TDeploy(Auth), TDeploy(Rest), TDeploy(Realtime), TDeploy(Storage), TDeploy(Functions),
     TService(Auth), TService(Rest), TService(Realtime), TService(Storage), TService(Functions)}

  ghost const SLOTS: set<Slot> := {Claim, ParentSlot, Platform} + set x | x in CHILDREN :: Child(x)

  lemma EverySlot(s: Slot)
    ensures s in SLOTS
  {
    if s.Child? {
      match s.target {
        case TDeploy(Auth) => case TDeploy(Rest) => case TDeploy(Realtime) => case TDeploy(Storage) => case TDeploy(Functions) =>
        case TService(Auth) => case TService(Rest) => case TService(Realtime) => case TService(Storage) => case TService(Functions) =>
        case _ =>
      }
      assert s.target in CHILDREN;
    }
  }

  ghost function HomeOf(t: Tenant, s: Store): Home {
    map x | x in SLOTS && KeyOf(t, x) in s :: s[KeyOf(t, x)]
  }

  lemma HomeAt(t: Tenant, s: Store, x: Slot)
    ensures At(HomeOf(t, s), x) == Lookup(s, KeyOf(t, x))
  {
    EverySlot(x);
  }

  // ---------------------------------------------------------------- names

  lemma PrefixCancels(p: string, a: string, b: string)
    requires p + a == p + b
    ensures a == b
  {
    assert (p + a)[|p|..] == a && (p + b)[|p|..] == b;
  }

  lemma SuffixCancels(a: string, b: string, p: string)
    requires a + p == b + p
    ensures a == b
  {
    assert |a| == |b|;
    assert (a + p)[..|a|] == a && (b + p)[..|b|] == b;
  }

  lemma SvcNamesDiffer(a: Svc, b: Svc)
    requires SvcName(a) == SvcName(b)
    ensures a == b
  {
    assert |SvcName(a)| == |SvcName(b)| && SvcName(a)[0] == SvcName(b)[0];
  }

  lemma ResourceNamesDiffer(t: Tenant, a: Svc, b: Svc)
    requires ResourceName(t, a) == ResourceName(t, b)
    ensures a == b
  {
    assert ResourceName(t, a) == (t.id + "-") + SvcName(a) && ResourceName(t, b) == (t.id + "-") + SvcName(b);
    PrefixCancels(t.id + "-", SvcName(a), SvcName(b));
    SvcNamesDiffer(a, b);
  }

  /** Within one tenant no two slots share a name, unless its namespace is the platform's own. */
  lemma SlotsApart(t: Tenant, x: Slot, y: Slot)
    requires NamespaceName(t) != t.platform && KeyOf(t, x) == KeyOf(t, y)
    ensures x == y
  {
    assert |JwtName(t)| != |CredsName(t)|;
    if x.Child? && y.Child? {
      match (x.target, y.target) {
        case (TDeploy(a), TDeploy(b)) => ResourceNamesDiffer(t, a, b);
        case (TService(a), TService(b)) => ResourceNamesDiffer(t, a, b);
        case _ =>
      }
    }
  }

  /** Two tenants of one parent. */
  ghost predicate Siblings(a: Tenant, b: Tenant) {
    && a.parent == b.parent && a.platform == b.platform && a.id != b.id && a.cr != b.cr
    && NamespaceName(a) != a.platform && NamespaceName(b) != b.platform
  }

  /** A slot that a tenant owns, as opposed to the parent and the platform namespace, which it only reads. */
  predicate Own(x: Slot) { x.Claim? || x.Child? }

  lemma NamespacesDiffer(a: Tenant, b: Tenant)
    requires a.id != b.id
    ensures NamespaceName(a) != NamespaceName(b)
  {
    if NamespaceName(a) == NamespaceName(b) { PrefixCancels("supabase-", a.id, b.id); }
  }

  lemma PlatformNamesDiffer(a: Tenant, b: Tenant)
    requires a.id != b.id && a.parent == b.parent
    ensures DatabaseObjName(a) != DatabaseObjName(b) && JobName(a) != JobName(b) && RouteName(a) != RouteName(b)
  {
    if DatabaseObjName(a) == DatabaseObjName(b) { PrefixCancels(a.parent + "-db-", a.id, b.id); }
    if JobName(a) == JobName(b) { PrefixCancels(a.parent + "-db-init-", a.id, b.id); }
    if RouteName(a) == RouteName(b) { SuffixCancels(a.id, b.id, "-routes"); }
  }

  /** What one tenant owns is not among the names that its sibling reads or writes. */
  lemma TenantsApart(a: Tenant, b: Tenant, x: Slot, y: Slot)
    requires Siblings(a, b) && Own(x)
    ensures KeyOf(a, x) != KeyOf(b, y)
  {
    NamespacesDiffer(a, b);
    PlatformNamesDiffer(a, b);
  }

  predicate Letter(c: char) { 'a' <= c <= 'z' }

  predicate IdChar(c: char) { Letter(c) || '0' <= c <= '9' || c == '-' }

  /** A tenant id as the custom resource admits it: a letter first, a letter or digit last, letters, digits
      and dashes in between, 2 to 63 characters. */
  predicate ValidId(id: string) {
    && 2 <= |id| <= 63 && Letter(id[0]) && IdChar(id[|id| - 1]) && id[|id| - 1] != '-'
    && (forall k :: 0 <= k < |id| ==> IdChar(id[k]))
  }

  /** A string that a valid id can begin with. */
  predicate Lead(m: string) {
    |m| > 0 && Letter(m[0]) && forall k :: 0 <= k < |m| ==> IdChar(m[k])
  }

  /** Across parents in one namespace, database names can meet even though tenants and parents differ. */
  lemma DatabaseNamesCollide(parent: string, id: string, middle: string, c: Crypto, platform: string)
    requires ValidId(id) && Lead(middle) && |middle| + 4 + |id| <= 63
    ensures var a := Tenant(middle + "-db-" + id, parent, platform, "one", c);
            var b := Tenant(id, parent + "-db-" + middle, platform, "two", c);
            && KeyOf(a, Child(TDatabase)) == KeyOf(b, Child(TDatabase))
            && ValidId(a.id) && ValidId(b.id) && a.id != b.id && a.parent != b.parent
  {
    var a := Tenant(middle + "-db-" + id, parent, platform, "one", c);
    var b := Tenant(id, parent + "-db-" + middle, platform, "two", c);
    assert DatabaseObjName(a) == parent + "-db-" + (middle + "-db-" + id);
    assert DatabaseObjName(b) == parent + "-db-" + middle + "-db-" + id;
    assert DatabaseObjName(a) == DatabaseObjName(b);
    LongIdValid(middle, "-db-", id);
    assert |a.id| > |b.id| && |b.parent| > |a.parent|;
  }

  lemma LongIdValid(m: string, infix: string, id: string)
    requires Lead(m) && ValidId(id) && |m| + |infix| + |id| <= 63 && forall k :: 0 <= k < |infix| ==> IdChar(infix[k])
    ensures ValidId(m + infix + id)
  {
    var long := m + infix + id;
    forall k | 0 <= k < |long| ensures IdChar(long[k]) {
      assert long[k] == if k < |m| then m[k] else if k < |m + infix| then infix[k - |m|] else id[k - |m + infix|];
    }
  }

  /** A collision: tenant `b-db-cc` of parent `a`, and tenant `cc` of parent `a-db-b`. */
  lemma DatabaseNamesCollideFor()
    ensures ValidId("b-db-cc") && ValidId("cc") && "a" + "-db-" + "b-db-cc" == "a-db-b" + "-db-" + "cc"
  {
  }

  /** How one parent's name has to continue another's for valid ids to make up the difference: by the infix
      that the names of objects use, without its last character, or by the whole infix and something that a
      valid id can begin with, short enough to leave room. */
  predicate Extends(p: string, q: string, infix: string) {
    |infix| > 0
    && (q == p + infix[..|infix| - 1]
        || (p + infix <= q && Lead(q[|p + infix|..]) && |q| - |p| + 2 <= 63))
  }

  ghost predicate Clash(p: string, q: string, infix: string, i: string, j: string) {
    ValidId(i) && ValidId(j) && p + infix + i == q + infix + j
  }

  predicate Border(s: string, k: nat)
    requires k <= |s|
  {
    s[k..] <= s
  }

  /** A string overlaps itself in its outermost characters only. */
  predicate OneBorder(s: string) {
    |s| > 1 && s[0] == s[|s| - 1] && forall k: nat :: 0 < k < |s| - 1 ==> !Border(s, k)
  }

  lemma InfixesHaveOneBorder()
    ensures OneBorder("-db-") && OneBorder("-db-init-")
  {
    var d, i := "-db-", "-db-init-";
    forall k: nat | 0 < k < 3 ensures !Border(d, k) { assert d[k..][0] == d[k]; }
    forall k: nat | 0 < k < 8 ensures !Border(i, k) { assert i[k..][0] == i[k]; assert k == 3 ==> i[k..][1] == i[4]; }
  }

  lemma Overlap(s: string, i: string, x: string, j: string)
    requires OneBorder(s) && s + i == x + s + j && |x| > 0
    ensures x == s[..|s| - 1] || s <= x
  {
    var whole, n := s + i, |x|;
    assert whole[..|s|] == s && whole[..n] == x && whole[n..][..|s|] == s by { assert x + s + j == x + (s + j); }
    if n < |s| {
      assert s[n..] == whole[n..|s|];
      assert whole[n..|s|] == whole[n..][..|s| - n];
      assert whole[n..][..|s| - n] == s[..|s| - n];
      assert Border(s, n);
      assert s[..n] == x;
    } else {
      assert x[..|s|] == whole[..|s|];
    }
  }

  lemma LeadOfId(s: string, m: string, j: string)
    requires |s| > 0 && s[0] == '-' && ValidId(m + s + j) && ValidId(j)
    ensures Lead(m) && |m| + |s| + 2 <= 63
  {
    var i := m + s + j;
    assert i[0] == (m + s)[0];
    forall k | 0 <= k < |m| ensures IdChar(m[k]) { assert i[k] == m[k]; }
  }

  lemma ClashExtends(s: string, p: string, i: string, q: string, j: string)
    requires OneBorder(s) && s[0] == '-' && Clash(p, q, s, i, j) && |p| < |q|
    ensures Extends(p, q, s)
  {
    var x := q[|p|..];
    assert (p + s + i)[..|p|] == p && (q + s + j)[..|p|] == q[..|p|];
    assert q == p + x;
    assert p + s + i == p + (s + i) && q + s + j == p + (x + s + j);
    PrefixCancels(p, s + i, x + s + j);
    Overlap(s, i, x, j);
    if x != s[..|s| - 1] {
      var m := x[|s|..];
      assert x == s + m && s + i == s + (m + s + j);
      PrefixCancels(s, i, m + s + j);
      LeadOfId(s, m, j);
      assert q[|p + s|..] == m;
    }
  }

  /** The infixes of the database and of its job, as far as names depend on them. */
  predicate Infix(s: string) {
    OneBorder(s) && s[0] == '-' && Lead(s[1..]) && |s| + 1 <= 63 && forall k :: 0 <= k < |s| ==> IdChar(s[k])
  }

  lemma InfixesFit()
    ensures Infix("-db-") && Infix("-db-init-")
  {
    InfixesHaveOneBorder();
  }

  lemma ShortIdsFit(s: string)
    requires Infix(s) && |s| <= 20
    ensures ValidId("aa") && ValidId(s[1..] + "aa")
  {
    var i := s[1..] + "aa";
    forall k | 0 <= k < |i| ensures IdChar(i[k]) { assert i[k] == if k < |s| - 1 then s[k + 1] else 'a'; }
  }

  lemma ExtensionClashes(s: string, p: string, q: string) returns (i: string, j: string)
    requires Infix(s) && |s| <= 20 && Extends(p, q, s)
    ensures Clash(p, q, s, i, j)
  {
    ShortIdsFit(s);
    j := "aa";
    if q == p + s[..|s| - 1] {
      i := s[1..] + j;
      assert s == s[..|s| - 1] + [s[|s| - 1]] && s == [s[0]] + s[1..];
      assert p + s + i == p + s[..|s| - 1] + ([s[0]] + s[1..]) + j;
    } else {
      var m := q[|p + s|..];
      i := m + s + j;
      LongIdValid(m, s, j);
      assert q == p + s + m;
      assert p + s + i == p + s + m + s + j;
    }
  }

  /** Exactly which parents can have tenants, with ids that the custom resource admits, whose databases or
      init jobs share a name. The parents' names alone decide. */
  lemma DatabaseNamesClash(p: string, q: string, infix: string)
    requires p != q && (infix == "-db-" || infix == "-db-init-")
    ensures (exists i: string, j: string :: Clash(p, q, infix, i, j)) <==> Extends(p, q, infix) || Extends(q, p, infix)
  {
    InfixesFit();
    if i, j :| Clash(p, q, infix, i, j) {
      assert (p + infix + i)[..|p|] == p && (q + infix + j)[..|q|] == q;
      assert Clash(q, p, infix, j, i);
      if |p| < |q| { ClashExtends(infix, p, i, q, j); }
      if |q| < |p| { ClashExtends(infix, q, j, p, i); }
    }
    if Extends(p, q, infix) {
      var i, j := ExtensionClashes(infix, p, q);
    } else if Extends(q, p, infix) {
      var j, i := ExtensionClashes(infix, q, p);
      assert Clash(p, q, infix, i, j);
    }
  }

  /** What a clash of names is: two tenants of parents in one namespace have their databases, or their init jobs,
      under one key. */
  lemma ClashIsCollision(a: Tenant, b: Tenant)
    requires a.platform == b.platform && ValidId(a.id) && ValidId(b.id)
    ensures KeyOf(a, Child(TDatabase)) == KeyOf(b, Child(TDatabase)) <==> Clash(a.parent, b.parent, "-db-", a.id, b.id)
    ensures KeyOf(a, Child(TJob)) == KeyOf(b, Child(TJob)) <==> Clash(a.parent, b.parent, "-db-init-", a.id, b.id)
  {
  }

  /** The tenant's namespace is the platform's own exactly for a tenant named after the rest of the platform
      namespace. */
  lemma PlatformNamespaceTaken(t: Tenant)
    ensures KeyOf(t, Child(TNamespace)) == KeyOf(t, Platform) <==> t.platform == "supabase-" + t.id
  {
  }

  // ---------------------------------------------------------------- the system

  datatype System = System(store: Store, locals: seq<Local>)

  datatype Event =
    | OfTenant(i: nat, what: Happening)
    | ParentChanges(parent: Option<Parent>)         // created, edited or removed

  ghost predicate Family(ts: seq<Tenant>) {
    && (forall i, j :: 0 <= i < |ts| && 0 <= j < |ts| && i != j ==> Siblings(ts[i], ts[j]))
    && (forall i :: 0 <= i < |ts| ==> NamespaceName(ts[i]) != ts[i].platform)
  }

  ghost function Next(ts: seq<Tenant>, y: System, e: Event): (z: System)
    requires |y.locals| == |ts|
    ensures |z.locals| == |ts|
  {
    match e
    case OfTenant(i, what) =>
      if i < |ts| then
        var w := Happens(ts[i], HomeOf(ts[i], y.store), y.locals[i], what);
        System(PutKey(y.store, KeyOf(ts[i], w.slot), w.obj), y.locals[i := w.local])
      else y
    case ParentChanges(p) =>
      if |ts| > 0 then
        System(PutKey(y.store, KeyOf(ts[0], ParentSlot), if p.Some? then Some(ParentObj(p.value)) else None), y.locals)
      else y
  }

  ghost function Run(ts: seq<Tenant>, y: System, es: seq<Event>): (z: System)
    requires |y.locals| == |ts|
    ensures |z.locals| == |ts|
    decreases |es|
  {
    if |es| == 0 then y else Run(ts, Next(ts, y, es[0]), es[1..])
  }

  /** An event of one tenant, seen by that tenant, is what its own machine says. */
  lemma OwnView(t: Tenant, s: Store, x: Slot, o: Option<Obj>)
    requires NamespaceName(t) != t.platform
    ensures HomeOf(t, PutKey(s, KeyOf(t, x), o)) == Put(HomeOf(t, s), x, o)
  {
    EverySlot(x);
    var s' := PutKey(s, KeyOf(t, x), o);
    forall y: Slot ensures At(HomeOf(t, s'), y) == At(Put(HomeOf(t, s), x, o), y) {
      HomeAt(t, s', y);
      HomeAt(t, s, y);
      if KeyOf(t, y) == KeyOf(t, x) { SlotsApart(t, x, y); }
    }
    SameHome(HomeOf(t, s'), Put(HomeOf(t, s), x, o));
  }

  lemma SameHome(a: Home, b: Home)
    requires forall y: Slot :: At(a, y) == At(b, y)
    ensures a == b
  {
    forall y: Slot ensures y in a <==> y in b {
      assert At(a, y) == At(b, y);
    }
    forall y: Slot | y in a ensures a[y] == b[y] {
      assert At(a, y) == At(b, y);
    }
  }

  /** ... and a sibling does not see it at all. */
  lemma SiblingView(a: Tenant, b: Tenant, s: Store, x: Slot, o: Option<Obj>)
    requires Siblings(a, b) && (Own(x) || o == Lookup(s, KeyOf(a, x)))
    ensures HomeOf(b, PutKey(s, KeyOf(a, x), o)) == HomeOf(b, s)
  {
    var s' := PutKey(s, KeyOf(a, x), o);
    forall y: Slot ensures At(HomeOf(b, s'), y) == At(HomeOf(b, s), y) {
      HomeAt(b, s', y);
      HomeAt(b, s, y);
      if Own(x) { TenantsApart(a, b, x, y); }
    }
    SameHome(HomeOf(b, s'), HomeOf(b, s));
  }

  /** Whatever happens to a tenant writes an own slot, or nothing. */
  lemma WritesOwn(t: Tenant, h: Home, l: Local, e: Happening)
    ensures var w := Happens(t, h, l, e); Own(w.slot) || w.obj == At(h, w.slot)
  {
    if e.PassStep? && Running(l) {
      var op := NextOp(t, l);
      assert Own(op.slot) || op.verb.Get?;
    }
  }

  /** One tenant's event leaves every sibling's objects, and its pass, as they were. */
  lemma OthersUntouched(ts: seq<Tenant>, y: System, i: nat, j: nat, what: Happening)
    requires Family(ts) && |y.locals| == |ts| && i < |ts| && j < |ts| && i != j
    ensures var z := Next(ts, y, OfTenant(i, what));
            HomeOf(ts[j], z.store) == HomeOf(ts[j], y.store) && z.locals[j] == y.locals[j]
  {
    var h := HomeOf(ts[i], y.store);
    var w := Happens(ts[i], h, y.locals[i], what);
    WritesOwn(ts[i], h, y.locals[i], what);
    HomeAt(ts[i], y.store, w.slot);
    assert Siblings(ts[i], ts[j]);
    SiblingView(ts[i], ts[j], y.store, w.slot, w.obj);
  }

  // ---------------------------------------------------------------- the platform namespace

  /** For that one tenant, the call with which finalization deletes its namespace terminates the platform's,
      unless it fails without effect. */
  lemma PlatformNamespaceDeleted(t: Tenant, s: Store, l: Local, k: Tick)
    requires t.platform == "supabase-" + t.id && Running(l) && l.pc == Drop(TNamespace, Fix)
    requires KeyOf(t, Platform) in s && s[KeyOf(t, Platform)].NamespaceObj?
    ensures var z := Next([t], System(s, [l]), OfTenant(0, PassStep(k))).store;
      && KeyOf(t, Platform) in z && z[KeyOf(t, Platform)].NamespaceObj?
      && (k.fault != Transient(false) ==> z[KeyOf(t, Platform)].phase.Terminating?)
  {
    PlatformNamespaceTaken(t);
    HomeAt(t, s, Child(TNamespace));
    DeletesNamespace(t, HomeOf(t, s), l, k);
  }

  lemma DeletesNamespace(t: Tenant, h: Home, l: Local, k: Tick)
    requires Running(l) && l.pc == Drop(TNamespace, Fix) && Child(TNamespace) in h && h[Child(TNamespace)].NamespaceObj?
    ensures var w := Step(t, h, l, k);
      && w.slot == Child(TNamespace) && w.obj.Some? && w.obj.value.NamespaceObj?
      && (k.fault != Transient(false) ==> w.obj.value.phase.Terminating?)
  {
  }

  /** For any other tenant, nothing that happens to it touches the platform namespace. */
  lemma PlatformNamespaceUntouched(ts: seq<Tenant>, y: System, i: nat, what: Happening)
    requires |y.locals| == |ts| && i < |ts| && ts[i].platform != "supabase-" + ts[i].id
    ensures var k := KeyOf(ts[i], Platform); Lookup(Next(ts, y, OfTenant(i, what)).store, k) == Lookup(y.store, k)
  {
    var t, h := ts[i], HomeOf(ts[i], y.store);
    var w := Happens(t, h, y.locals[i], what);
    WritesOwn(t, h, y.locals[i], what);
    HomeAt(t, y.store, w.slot);
    if KeyOf(t, w.slot) == KeyOf(t, Platform) { SlotsApart(t, w.slot, Platform); }
  }

  // ---------------------------------------------------------------- what every run keeps

  /** What holds of a tenant in every run, whatever it is created on. */
  ghost predicate TenantOrderly(t: Tenant, y: System, l: Local) {
    var h := HomeOf(t, y.store);
    Orderly(h, l) && Housed(h) && Truthful(h, l) && TakenDown(h, l)
  }

  ghost predicate Ordered(ts: seq<Tenant>, y: System) {
    |y.locals| == |ts| && forall i :: 0 <= i < |ts| ==> TenantOrderly(ts[i], y, y.locals[i])
  }

  /** Before the operator starts: no tenant yet, or none of its objects. */
  ghost predicate Fresh(ts: seq<Tenant>, y: System) {
    && |y.locals| == |ts|
    && forall i :: 0 <= i < |ts| ==> y.locals[i] == Idle && Typed(HomeOf(ts[i], y.store))
                                     && Claim !in HomeOf(ts[i], y.store) && Bare(HomeOf(ts[i], y.store))
  }

  lemma FreshIsOrdered(ts: seq<Tenant>, y: System)
    requires Fresh(ts, y)
    ensures Ordered(ts, y)
  {
  }

  lemma TenantEventOrdered(ts: seq<Tenant>, y: System, i: nat, what: Happening)
    requires Family(ts) && Ordered(ts, y) && i < |ts|
    ensures Ordered(ts, Next(ts, y, OfTenant(i, what)))
  {
    var z := Next(ts, y, OfTenant(i, what));
    var h, l := HomeOf(ts[i], y.store), y.locals[i];
    assert TenantOrderly(ts[i], y, l);
    var w := Happens(ts[i], h, l, what);
    OwnView(ts[i], y.store, w.slot, w.obj);
    HappeningKeepsOrderly(ts[i], h, l, what);
    HappeningKeepsHoused(ts[i], h, l, what);
    HappeningKeepsTruthful(ts[i], h, l, what);
    HappeningKeepsTakenDown(ts[i], h, l, what);
    assert TenantOrderly(ts[i], z, z.locals[i]);
    forall j | 0 <= j < |ts| && j != i ensures TenantOrderly(ts[j], z, z.locals[j]) {
      assert TenantOrderly(ts[j], y, y.locals[j]);
      OthersUntouched(ts, y, i, j, what);
    }
  }

  function ParentNow(p: Option<Parent>): Option<Obj> {
    if p.Some? then Some(ParentObj(p.value)) else None
  }

  lemma SharedParent(a: Tenant, b: Tenant)
    requires a.parent == b.parent && a.platform == b.platform
    ensures KeyOf(a, ParentSlot) == KeyOf(b, ParentSlot)
  {
  }

  /** All siblings see the same parent change, and nothing else. */
  lemma ParentView(ts: seq<Tenant>, y: System, p: Option<Parent>, i: nat)
    requires Family(ts) && |y.locals| == |ts| && i < |ts|
    ensures var z := Next(ts, y, ParentChanges(p));
            HomeOf(ts[i], z.store) == Put(HomeOf(ts[i], y.store), ParentSlot, ParentNow(p)) && z.locals == y.locals
  {
    if i != 0 { assert Siblings(ts[0], ts[i]); }
    SharedParent(ts[0], ts[i]);
    OwnView(ts[i], y.store, ParentSlot, ParentNow(p));
  }

  /** The invariants do not look at the parent. */
  lemma ParentIrrelevant(t: Tenant, h: Home, l: Local, p: Option<Parent>)
    requires Orderly(h, l)
    ensures var h' := Put(h, ParentSlot, ParentNow(p));
      && Orderly(h', l) && SameChildren(h, h') && At(h', Claim) == At(h, Claim)
      && (Housed(h) ==> Housed(h')) && (Truthful(h, l) ==> Truthful(h', l)) && (TakenDown(h, l) ==> TakenDown(h', l))
  {
    var h' := Put(h, ParentSlot, ParentNow(p));
    forall x: Target ensures At(h', Child(x)) == At(h, Child(x)) && (Child(x) in h' <==> Child(x) in h) {}
  }

  lemma ParentEventOrdered(ts: seq<Tenant>, y: System, p: Option<Parent>)
    requires Family(ts) && Ordered(ts, y)
    ensures Ordered(ts, Next(ts, y, ParentChanges(p)))
  {
    var z := Next(ts, y, ParentChanges(p));
    forall j | 0 <= j < |ts| ensures TenantOrderly(ts[j], z, z.locals[j]) {
      assert TenantOrderly(ts[j], y, y.locals[j]);
      ParentView(ts, y, p, j);
      ParentIrrelevant(ts[j], HomeOf(ts[j], y.store), y.locals[j], p);
    }
  }

  lemma NextOrdered(ts: seq<Tenant>, y: System, e: Event)
    requires Family(ts) && Ordered(ts, y)
    ensures Ordered(ts, Next(ts, y, e))
  {
    match e
    case OfTenant(i, what) => if i < |ts| { TenantEventOrdered(ts, y, i, what); }
    case ParentChanges(p) => ParentEventOrdered(ts, y, p);
  }

  /** Every state of every run: objects are of their kinds, passes act only behind the finalizer, statuses are
      honest, and what finalization took down stays down. No condition on what tenants are created on. */
  lemma {:induction false} EveryRunOrdered(ts: seq<Tenant>, y: System, es: seq<Event>)
    requires Family(ts) && Ordered(ts, y)
    ensures Ordered(ts, Run(ts, y, es))
    decreases |es|
  {
    if |es| > 0 {
      NextOrdered(ts, y, es[0]);
      EveryRunOrdered(ts, Next(ts, y, es[0]), es[1..]);
    }
  }

  // ---------------------------------------------------------------- safety of careful runs

  /** The gate and the agreement. Strictly: at every moment; otherwise except for what stands in an old
      namespace that is closing. */
  ghost predicate TenantSafe(t: Tenant, y: System, l: Local, strict: bool) {
    var h := HomeOf(t, y.store); if strict then Strict(t, h, l) else Secure(t, h, l)
  }

  ghost predicate Safe(ts: seq<Tenant>, y: System, strict: bool) {
    |y.locals| == |ts| && forall i :: 0 <= i < |ts| ==> TenantSafe(ts[i], y, y.locals[i], strict)
  }

  /** What the user has checked about the leftovers. */
  ghost predicate Checked(h: Home, strict: bool) {
    if strict then StrictlyRecreatable(h) else Recreatable(h)
  }

  /** The event creates the tenant. */
  predicate Creates(e: Event, i: nat) {
    e.OfTenant? && e.i == i && e.what.UserCreates?
  }

  /** The user creates tenants only on leftovers that pass the check. */
  ghost predicate CarefulEvent(ts: seq<Tenant>, y: System, e: Event, strict: bool) {
    forall i: nat :: i < |ts| && Creates(e, i) && Claim !in HomeOf(ts[i], y.store) ==> Checked(HomeOf(ts[i], y.store), strict)
  }

  ghost predicate Careful(ts: seq<Tenant>, y: System, es: seq<Event>, strict: bool)
    requires |y.locals| == |ts|
    decreases |es|
  {
    |es| > 0 ==> CarefulEvent(ts, y, es[0], strict) && Careful(ts, Next(ts, y, es[0]), es[1..], strict)
  }

  lemma FreshIsSafe(ts: seq<Tenant>, y: System, strict: bool)
    requires Fresh(ts, y)
    ensures Safe(ts, y, strict)
  {
    forall i | 0 <= i < |ts| ensures TenantSafe(ts[i], y, y.locals[i], strict) {
      InitiallySound(ts[i], HomeOf(ts[i], y.store));
    }
  }

  lemma OwnEventSafe(t: Tenant, h: Home, l: Local, what: Happening, strict: bool)
    requires if strict then Strict(t, h, l) else Secure(t, h, l)
    requires what.UserCreates? && Claim !in h ==> Checked(h, strict)
    ensures var w := Happens(t, h, l, what); var h' := Put(h, w.slot, w.obj);
      if strict then Strict(t, h', w.local) else Secure(t, h', w.local)
  {
    if strict { HappeningKeepsStrict(t, h, l, what); } else { HappeningKeepsSecure(t, h, l, what); }
  }

  /** Whatever happens anywhere keeps a tenant safe, except that this very tenant is created carelessly. */
  lemma EventKeepsSafe(ts: seq<Tenant>, y: System, e: Event, i: nat, strict: bool)
    requires Family(ts) && |y.locals| == |ts| && i < |ts| && TenantSafe(ts[i], y, y.locals[i], strict)
    requires Creates(e, i) && Claim !in HomeOf(ts[i], y.store) ==> Checked(HomeOf(ts[i], y.store), strict)
    ensures var z := Next(ts, y, e); TenantSafe(ts[i], z, z.locals[i], strict)
  {
    var t, h, l := ts[i], HomeOf(ts[i], y.store), y.locals[i];
    match e
    case OfTenant(j, what) =>
      if j == i {
        var w := Happens(t, h, l, what);
        OwnView(t, y.store, w.slot, w.obj);
        OwnEventSafe(t, h, l, what, strict);
      } else if j < |ts| {
        OthersUntouched(ts, y, j, i, what);
      }
    case ParentChanges(p) =>
      ParentView(ts, y, p, i);
      ParentKeepsSafe(t, h, l, p);
  }

  lemma ParentKeepsSafe(t: Tenant, h: Home, l: Local, p: Option<Parent>)
    requires Secure(t, h, l)
    ensures var h' := Put(h, ParentSlot, ParentNow(p)); Secure(t, h', l) && (Strict(t, h, l) ==> Strict(t, h', l))
  {
    var h' := Put(h, ParentSlot, ParentNow(p));
    SecureIsOrderly(t, h, l);
    ParentIrrelevant(t, h, l, p);
    if Sound(t, h, l) { ParentKeepsSound(t, h, h', l); } else {
      WaningMove(t, h, h', l, l);
      forall x: Target ensures Child(x) in h' <==> Child(x) in h { SameStands(h, h', x); }
    }
  }

  lemma ParentKeepsSound(t: Tenant, h: Home, h': Home, l: Local)
    requires Sound(t, h, l) && SameChildren(h, h') && At(h', Claim) == At(h, Claim) && Typed(h')
    ensures Sound(t, h', l)
  {
    SameAgreed(t, h, h');
    SameGated(h, h');
    SameMemory(t, h, h', l);
  }

  lemma SameMemory(t: Tenant, h: Home, h': Home, l: Local)
    requires SameChildren(h, h') && At(h, Claim) == At(h', Claim) && Memory(t, h, l)
    ensures Memory(t, h', l)
  {
    forall x: Target ensures (Child(x) in h' <==> Child(x) in h) && (Child(x) in h ==> h'[Child(x)] == h[Child(x)]) { SameStands(h, h', x); }
    SameGated(h, h');
  }

  lemma NextSafe(ts: seq<Tenant>, y: System, e: Event, strict: bool)
    requires Family(ts) && Safe(ts, y, strict) && CarefulEvent(ts, y, e, strict)
    ensures Safe(ts, Next(ts, y, e), strict)
  {
    var z := Next(ts, y, e);
    forall i: nat | i < |ts| ensures TenantSafe(ts[i], z, z.locals[i], strict) { EventKeepsSafe(ts, y, e, i, strict); }
  }

  /** Every state of a careful run is safe for every tenant - whatever the interleaving of API calls, the
      faults they meet, the crashes of the operator, and the doings of users, of other controllers and of the
      parent. */
  lemma {:induction false} EveryRunSafe(ts: seq<Tenant>, y: System, es: seq<Event>, strict: bool)
    requires Family(ts) && Safe(ts, y, strict) && Careful(ts, y, es, strict)
    ensures Safe(ts, Run(ts, y, es), strict)
    decreases |es|
  {
    if |es| > 0 {
      NextSafe(ts, y, es[0], strict);
      EveryRunSafe(ts, Next(ts, y, es[0]), es[1..], strict);
    }
  }

  lemma CarefulRunSafe(ts: seq<Tenant>, y: System, es: seq<Event>, strict: bool)
    requires Family(ts) && Fresh(ts, y) && Careful(ts, y, es, strict)
    ensures Safe(ts, Run(ts, y, es), strict)
  {
    FreshIsSafe(ts, y, strict);
    EveryRunSafe(ts, y, es, strict);
  }

  // ---------------------------------------------------------------- what safety says about the cluster

  ghost predicate Stands(t: Tenant, s: Store, x: Target) {
    KeyOf(t, Child(x)) in s
  }

  ghost predicate NamespaceClosing(t: Tenant, s: Store) {
    var k := KeyOf(t, Child(TNamespace)); k in s && s[k].NamespaceObj? && s[k].phase.Terminating?
  }

  ghost predicate EverythingBehind(t: Tenant, s: Store) {
    && Stands(t, s, TNamespace) && Stands(t, s, TPolicy) && Stands(t, s, TJwt) && Stands(t, s, TCreds)
    && Stands(t, s, TDatabase) && Stands(t, s, TJob)
    && s[KeyOf(t, Child(TJob))].JobObj? && s[KeyOf(t, Child(TJob))].succeeded > 0
  }

  /** A tenant that its user wants, as the custom resource says. */
  ghost predicate Wanting(t: Tenant, s: Store) {
    var k := KeyOf(t, Claim); k in s && s[k].ClaimObj? && !s[k].cr.deleting
  }

  /** The gate, as one sees it in the cluster: no Deployment, Service or route of a wanted tenant without its
      namespace, policy, both secrets, database and a finished init job; not strictly, what stands in a
      namespace on its way out is excepted. */
  ghost predicate GateKept(t: Tenant, s: Store, strict: bool) {
    Wanting(t, s) ==>
      forall x :: Mended(x) && Stands(t, s, x) ==> EverythingBehind(t, s) || (!strict && NamespaceClosing(t, s))
  }

  /** Gating, in every state of every careful run. */
  lemma GateOfEveryRun(ts: seq<Tenant>, y: System, es: seq<Event>, i: nat, strict: bool)
    requires Family(ts) && Fresh(ts, y) && Careful(ts, y, es, strict) && i < |ts|
    ensures GateKept(ts[i], Run(ts, y, es).store, strict)
  {
    CarefulRunSafe(ts, y, es, strict);
    var z := Run(ts, y, es);
    assert TenantSafe(ts[i], z, z.locals[i], strict);
    SafeGate(ts[i], z, z.locals[i], strict);
  }

  lemma SafeGate(t: Tenant, y: System, l: Local, strict: bool)
    requires TenantSafe(t, y, l, strict)
    ensures GateKept(t, y.store, strict)
  {
    var h := HomeOf(t, y.store);
    if Wanting(t, y.store) {
      forall x | Mended(x) && Stands(t, y.store, x)
        ensures EverythingBehind(t, y.store) || (!strict && NamespaceClosing(t, y.store))
      {
        HomeAt(t, y.store, Child(x));
        if Sound(t, h, l) { GateInView(t, y.store, l, x); } else { ClosingInView(t, y.store, l, x); }
      }
    }
  }

  lemma GateInView(t: Tenant, s: Store, l: Local, x: Target)
    requires Sound(t, HomeOf(t, s), l) && Mended(x) && Stands(t, s, x) && Wanting(t, s)
    ensures EverythingBehind(t, s)
  {
    var h := HomeOf(t, s);
    HomeAt(t, s, Child(x));
    HomeAt(t, s, Claim);
    assert Live(h, l);
    GateReads(h, x);
    HomeAt(t, s, Child(TNamespace));
    HomeAt(t, s, Child(TPolicy));
    HomeAt(t, s, Child(TJwt));
    HomeAt(t, s, Child(TCreds));
    HomeAt(t, s, Child(TDatabase));
    HomeAt(t, s, Child(TJob));
  }

  lemma ClosingInView(t: Tenant, s: Store, l: Local, x: Target)
    requires Waning(t, HomeOf(t, s), l) && Mended(x) && Stands(t, s, x)
    ensures NamespaceClosing(t, s)
  {
    HomeAt(t, s, Child(x));
    HomeAt(t, s, Child(TNamespace));
    assert Inside(x) || x.TRoute?;
  }

  lemma GateReads(h: Home, x: Target)
    requires Gated(h) && Child(x) in h && Mended(x)
    ensures Child(TNamespace) in h && Child(TPolicy) in h && Child(TJwt) in h && Child(TCreds) in h
    ensures Child(TDatabase) in h && Child(TJob) in h && JobDone(h)
  {
    assert Needs(x, TNamespace) && Needs(x, TPolicy) && Needs(x, TJwt) && Needs(x, TCreds) && Needs(x, TDatabase) && Needs(x, TJob);
  }

  /** Credential agreement. In every state of every careful run, while both secrets exist, the anonymous and
      service keys are signed by the stored signing key, the init job has been given the stored password and
      signing key, and every service finds each stored credential under the name by which it looks for it. */
  lemma CredentialsOfEveryRun(ts: seq<Tenant>, y: System, es: seq<Event>, i: nat)
    requires Family(ts) && Fresh(ts, y) && Careful(ts, y, es, false) && i < |ts|
    ensures AgreementKept(ts[i], Run(ts, y, es).store)
  {
    CarefulRunSafe(ts, y, es, false);
    var z := Run(ts, y, es);
    assert TenantSafe(ts[i], z, z.locals[i], false);
    SafeAgreement(ts[i], z, z.locals[i], false);
  }

  ghost predicate AgreementKept(t: Tenant, s: Store) {
    Stands(t, s, TJwt) && Stands(t, s, TCreds) ==> CredentialsAgree(t, s)
  }

  lemma SafeAgreement(t: Tenant, y: System, l: Local, strict: bool)
    requires TenantSafe(t, y, l, strict)
    ensures AgreementKept(t, y.store)
  {
    SecureIsOrderly(t, HomeOf(t, y.store), l);
    if Stands(t, y.store, TJwt) && Stands(t, y.store, TCreds) { AgreedInView(t, y.store); }
  }

  ghost predicate CredentialsAgree(t: Tenant, s: Store)
    requires Stands(t, s, TJwt) && Stands(t, s, TCreds)
  {
    var jwt, creds := SecretData(s[KeyOf(t, Child(TJwt))]), SecretData(s[KeyOf(t, Child(TCreds))]);
    var ctx := ContextOf(t.crypto, jwt, creds);
    && SignedBy(t.crypto, jwt)
    && (Stands(t, s, TJob) ==> s[KeyOf(t, Child(TJob))].JobObj? && JobAgrees(t, s[KeyOf(t, Child(TJob))].job, ctx))
    && (forall svc :: Stands(t, s, TDeploy(svc)) ==>
          && s[KeyOf(t, Child(TDeploy(svc)))].DeploymentObj?
          && CarriesKeys(t, svc, s[KeyOf(t, Child(TDeploy(svc)))].deployment, jwt, creds))
  }

  lemma AgreedInView(t: Tenant, s: Store)
    requires Agreed(t, HomeOf(t, s)) && Typed(HomeOf(t, s)) && Stands(t, s, TJwt) && Stands(t, s, TCreds)
    ensures CredentialsAgree(t, s)
  {
    var h := HomeOf(t, s);
    HomeAt(t, s, Child(TJwt));
    HomeAt(t, s, Child(TCreds));
    HomeAt(t, s, Child(TJob));
    forall svc | Stands(t, s, TDeploy(svc))
      ensures Child(TDeploy(svc)) in h && h[Child(TDeploy(svc))] == s[KeyOf(t, Child(TDeploy(svc)))]
    {
      HomeAt(t, s, Child(TDeploy(svc)));
    }
    AgreedReads(t, h);
    forall svc | Stands(t, s, TDeploy(svc))
      ensures s[KeyOf(t, Child(TDeploy(svc)))].DeploymentObj?
           && CarriesKeys(t, svc, s[KeyOf(t, Child(TDeploy(svc)))].deployment, SecretData(h[Child(TJwt)]), SecretData(h[Child(TCreds)]))
    {
      ContextCarries(t, svc, h[Child(TDeploy(svc))].deployment, SecretData(h[Child(TJwt)]), SecretData(h[Child(TCreds)]), Stored(t, h));
    }
  }

  lemma AgreedReads(t: Tenant, h: Home)
    requires Agreed(t, h) && Typed(h) && Child(TJwt) in h && Child(TCreds) in h
    ensures Child(TJob) in h ==> h[Child(TJob)].JobObj? && JobAgrees(t, h[Child(TJob)].job, Stored(t, h))
    ensures forall svc :: Child(TDeploy(svc)) in h ==>
              h[Child(TDeploy(svc))].DeploymentObj? && DeploymentAgrees(t, svc, h[Child(TDeploy(svc))].deployment, Stored(t, h))
  {
    forall svc | Child(TDeploy(svc)) in h
      ensures h[Child(TDeploy(svc))].DeploymentObj? && DeploymentAgrees(t, svc, h[Child(TDeploy(svc))].deployment, Stored(t, h))
    {
      assert Carries(t, TDeploy(svc), h[Child(TDeploy(svc))], Stored(t, h));
    }
  }

  /** A persisted `Ready` is backed by nine conditions, each present exactly once, true and up to date. */
  lemma ReadyOfEveryRun(ts: seq<Tenant>, y: System, es: seq<Event>, i: nat)
    requires Family(ts) && Fresh(ts, y) && i < |ts|
    requires var s, k := Run(ts, y, es).store, KeyOf(ts[i], Claim); k in s && s[k].ClaimObj? && s[k].cr.status.phase.Ready?
    ensures var st := Run(ts, y, es).store[KeyOf(ts[i], Claim)].cr.status;
      && Distinct(st.conditions) && forall c: Component :: Shows(st.conditions, Of(c), st.observed)
  {
    FreshIsOrdered(ts, y);
    EveryRunOrdered(ts, y, es);
    var z := Run(ts, y, es);
    assert TenantOrderly(ts[i], z, z.locals[i]);
    HomeAt(ts[i], z.store, Claim);
  }

  /** In every run, a child object appears only at the hands of a pass, and only while the custom resource
      stands with its finalizer: the finalizer is persisted before any child is created. */
  lemma FinalizerOfEveryRun(ts: seq<Tenant>, y: System, es: seq<Event>, e: Event, i: nat, x: Target)
    requires Family(ts) && Fresh(ts, y) && i < |ts|
    requires var z := Run(ts, y, es); !Stands(ts[i], z.store, x) && Stands(ts[i], Next(ts, z, e).store, x)
    ensures e.OfTenant? && e.i == i && e.what.PassStep?
    ensures var s, k := Run(ts, y, es).store, KeyOf(ts[i], Claim); k in s && s[k].ClaimObj? && s[k].cr.finalizer
  {
    FreshIsOrdered(ts, y);
    EveryRunOrdered(ts, y, es);
    AppearsWithFinalizer(ts, Run(ts, y, es), e, i, x);
  }

  lemma AppearsWithFinalizer(ts: seq<Tenant>, z: System, e: Event, i: nat, x: Target)
    requires Family(ts) && Ordered(ts, z) && i < |ts| && !Stands(ts[i], z.store, x) && Stands(ts[i], Next(ts, z, e).store, x)
    ensures e.OfTenant? && e.i == i && e.what.PassStep?
    ensures var s, k := z.store, KeyOf(ts[i], Claim); k in s && s[k].ClaimObj? && s[k].cr.finalizer
  {
    var t := ts[i];
    var h, l := HomeOf(t, z.store), z.locals[i];
    assert TenantOrderly(t, z, l);
    HomeAt(t, z.store, Child(x));
    HomeAt(t, Next(ts, z, e).store, Child(x));
    HomeAt(t, z.store, Claim);
    match e
    case OfTenant(j, what) =>
      if j == i {
        var w := Happens(t, h, l, what);
        OwnView(t, z.store, w.slot, w.obj);
        ChildNeedsFinalizer(t, h, l, what, x);
      } else if j < |ts| {
        OthersUntouched(ts, z, j, i, what);
      }
    case ParentChanges(p) => ParentView(ts, z, p, i);
  }

  /** Once a tenant is going and no earlier pass is at work on it, its objects only disappear, over any
      continuation of the run in which the user does not create it anew. */
  lemma {:induction false} DeletionOfEveryRun(ts: seq<Tenant>, y: System, es: seq<Event>, i: nat)
    requires Family(ts) && Ordered(ts, y) && i < |ts| && Retired(HomeOf(ts[i], y.store), y.locals[i])
    requires forall e :: e in es && e.OfTenant? && e.i == i ==> !e.what.UserCreates?
    ensures var z := Run(ts, y, es);
            NoMore(HomeOf(ts[i], y.store), HomeOf(ts[i], z.store)) && Retired(HomeOf(ts[i], z.store), z.locals[i])
    decreases |es|
  {
    if |es| > 0 {
      NextOrdered(ts, y, es[0]);
      RetiredNext(ts, y, es[0], i);
      DeletionOfEveryRun(ts, Next(ts, y, es[0]), es[1..], i);
    }
  }

  lemma RetiredNext(ts: seq<Tenant>, y: System, e: Event, i: nat)
    requires Family(ts) && Ordered(ts, y) && i < |ts| && Retired(HomeOf(ts[i], y.store), y.locals[i])
    requires e.OfTenant? && e.i == i ==> !e.what.UserCreates?
    ensures var z := Next(ts, y, e);
            NoMore(HomeOf(ts[i], y.store), HomeOf(ts[i], z.store)) && Retired(HomeOf(ts[i], z.store), z.locals[i])
  {
    match e
    case OfTenant(j, what) =>
      if j == i { RetiredOwn(ts, y, i, what); }
      else if j < |ts| { OthersUntouched(ts, y, j, i, what); }
    case ParentChanges(p) => RetiredParent(ts, y, p, i);
  }

  lemma RetiredOwn(ts: seq<Tenant>, y: System, i: nat, what: Happening)
    requires Family(ts) && Ordered(ts, y) && i < |ts| && Retired(HomeOf(ts[i], y.store), y.locals[i]) && !what.UserCreates?
    ensures var z := Next(ts, y, OfTenant(i, what));
            NoMore(HomeOf(ts[i], y.store), HomeOf(ts[i], z.store)) && Retired(HomeOf(ts[i], z.store), z.locals[i])
  {
    var t, h, l := ts[i], HomeOf(ts[i], y.store), y.locals[i];
    assert TenantOrderly(t, y, l);
    var w := Happens(t, h, l, what);
    OwnView(t, y.store, w.slot, w.obj);
    NoResurrection(t, h, l, what);
  }

  lemma RetiredParent(ts: seq<Tenant>, y: System, p: Option<Parent>, i: nat)
    requires Family(ts) && |y.locals| == |ts| && i < |ts| && Retired(HomeOf(ts[i], y.store), y.locals[i])
    ensures var z := Next(ts, y, ParentChanges(p));
            NoMore(HomeOf(ts[i], y.store), HomeOf(ts[i], z.store)) && Retired(HomeOf(ts[i], z.store), z.locals[i])
  {
    ParentView(ts, y, p, i);
    ParentPut(HomeOf(ts[i], y.store), ParentNow(p), y.locals[i]);
  }

  lemma ParentPut(h: Home, o: Option<Obj>, l: Local)
    requires Retired(h, l)
    ensures NoMore(h, Put(h, ParentSlot, o)) && Retired(Put(h, ParentSlot, o), l)
  {
  }
}
