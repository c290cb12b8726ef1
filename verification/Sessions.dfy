/** The API server as one pass meets it: a mutable store that others change between its calls, and that may
    fail any of them. */
module Sessions {
  import opened Options
  import opened Objects
  import opened Tenants
  import opened Machine
  import opened Safety
  import opened Leftovers
  import opened Runs

  /** Faults, random material, and what others do to the store before each call. */
  datatype World = World(faults: nat -> Fault, lucks: nat -> Luck, others: nat -> Store -> Store)

  /** The cluster and the pass after `n` calls: others act, then the pass takes one step of the machine. */
  ghost function Replay(t: Tenant, first: Store, w: World, n: nat): (Store, Local) {
    if n == 0 then (first, Begin())
    else
      var (s, l) := Replay(t, first, w, n - 1);
      if !Running(l) then (s, l)
      else
        var before := w.others(n - 1)(s);
        var st := Step(t, HomeOf(t, before), l, Tick(w.faults(n - 1), w.lucks(n - 1)));
        (PutKey(before, KeyOf(t, st.slot), st.obj), st.local)
  }

  /** What is between two calls: others act, then the pass takes one step. */
  ghost predicate Moves(t: Tenant, w: World, n: nat, was: (Store, Local), now: (Store, Local)) {
    && Running(was.1)
    && var before := w.others(n)(was.0);
       var st := Step(t, HomeOf(t, before), was.1, Tick(w.faults(n), w.lucks(n)));
       now == (PutKey(before, KeyOf(t, st.slot), st.obj), st.local)
  }

  ghost predicate Link(t: Tenant, w: World, past: seq<(Store, Local)>, n: nat)
    requires n + 1 < |past|
  {
    Moves(t, w, n, past[n], past[n + 1])
  }

  /** The places where a history does not follow the machine. */
  ghost function Breaks(t: Tenant, w: World, past: seq<(Store, Local)>, calls: nat): set<nat>
    requires calls < |past|
  {
    set n | 0 <= n < calls && !Link(t, w, past, n)
  }

  class Session {
    const t: Tenant
    const world: World
    ghost const first: Store
    var store: Store
    var calls: nat
    ghost var local: Local
    ghost var past: seq<(Store, Local)>

    ghost predicate Valid()
      reads this
    {
      && local.Pass? && |past| == calls + 1 && past[0] == (first, Begin()) && past[calls] == (store, local)
      && Breaks(t, world, past, calls) == {}
    }

    constructor (t: Tenant, world: World, store: Store)
      ensures Valid() && local == Begin() && calls == 0
      ensures this.t == t && this.world == world && this.store == store && this.first == store
    {
      this.t, this.world, this.store, this.calls := t, world, store, 0;
      this.first := store;
      this.local := Begin();
      this.past := [(store, Begin())];
    }

    /** One API call. Its contract admits only the call that the machine makes at this point. */
    method Call(op: Op) returns (r: Resp)
      requires Valid() && Running(local) && op == NextOp(t, local)
      modifies this
      ensures Valid() && calls == old(calls) + 1
      ensures local == Resume(t, old(local), r, world.lucks(old(calls)))
      // what the answer says of the store at that moment
      ensures Reflects(store, KeyOf(t, op.slot), op.verb, r)
    {
      var n, before := calls, world.others(calls)(store);
      ghost var was, earlier := (store, local), past;
      var o: Option<Obj>;
      o, r := Answer(t, before, op, world.faults(n));
      var key := KeyOf(t, op.slot);
      store := if o.Some? then before[key := o.value] else before - {key};
      local := Resume(t, local, r, world.lucks(n));
      calls := n + 1;
      past := past + [(store, local)];
      AnswerReflects(before, key, op.verb, o, r, world.faults(n));
      CallMoves(t, world, n, was, op, o, r, (store, local));
      Extended(t, world, earlier, past, n);
    }
  }

  /** What the server makes of a call, given the store at that moment. */
  method Answer(t: Tenant, before: Store, op: Op, fault: Fault) returns (o: Option<Obj>, r: Resp)
    ensures (o, r) == Serve(At(HomeOf(t, before), op.slot), Open(HomeOf(t, before), op.slot), op.verb, fault)
    ensures exists open :: (o, r) == Serve(Lookup(before, KeyOf(t, op.slot)), open, op.verb, fault)
  {
    var key := KeyOf(t, op.slot);
    var cur := if key in before then Some(before[key]) else None;
    var open := true;
    var holder := HolderOf(op.slot);
    if holder.Some? {
      var k := KeyOf(t, holder.value);
      open := k in before && before[k].NamespaceObj? && before[k].phase != Terminating;
      HomeAt(t, before, holder.value);
    }
    HomeAt(t, before, op.slot);
    var answer := Serve(cur, open, op.verb, fault);
    o, r := answer.0, answer.1;
  }

  /** A read answers with what is there; a creation or a change that is acknowledged is there. */
  ghost predicate Reflects(s: Store, key: Key, verb: Verb, r: Resp) {
    && (r.Ok? && (verb.Get? || verb.Create? || verb.Patch?) ==> key in s && s[key] == r.obj)
    && (r.NotFound? && verb.Get? ==> key !in s)
    && (r.Ok? && verb.Create? ==> r.obj == verb.obj)
    && (r.Ok? && verb.Patch? ==> exists cur :: r.obj == Patched(cur, verb.patch))
  }

  lemma AnswerReflects(before: Store, key: Key, verb: Verb, o: Option<Obj>, r: Resp, fault: Fault)
    requires exists open :: (o, r) == Serve(Lookup(before, key), open, verb, fault)
    ensures Reflects(PutKey(before, key, o), key, verb, r)
  {
  }

  lemma CallMoves(t: Tenant, w: World, n: nat, was: (Store, Local), op: Op, o: Option<Obj>, r: Resp, now: (Store, Local))
    requires Running(was.1) && op == NextOp(t, was.1)
    requires var h := HomeOf(t, w.others(n)(was.0)); (o, r) == Serve(At(h, op.slot), Open(h, op.slot), op.verb, w.faults(n))
    requires now == (PutKey(w.others(n)(was.0), KeyOf(t, op.slot), o), Resume(t, was.1, r, w.lucks(n)))
    ensures Moves(t, w, n, was, now)
  {
    var h := HomeOf(t, w.others(n)(was.0));
    StepIs(t, h, was.1, Tick(w.faults(n), w.lucks(n)), op, At(h, op.slot), Open(h, op.slot), o, r);
  }

  lemma Extended(t: Tenant, w: World, earlier: seq<(Store, Local)>, past: seq<(Store, Local)>, calls: nat)
    requires |earlier| == calls + 1 && |past| == calls + 2 && past[..calls + 1] == earlier
    requires Breaks(t, w, earlier, calls) == {}
    requires Moves(t, w, calls, earlier[calls], past[calls + 1])
    ensures Breaks(t, w, past, calls + 1) == {}
  {
    forall n: nat | n < calls + 1 ensures Link(t, w, past, n) {
      assert past[n] == earlier[n];
      if n < calls {
        assert n !in Breaks(t, w, earlier, calls);
        assert past[n + 1] == earlier[n + 1];
      }
    }
  }

  lemma StepIs(t: Tenant, h: Home, l: Local, k: Tick, op: Op, cur: Option<Obj>, open: bool, o: Option<Obj>, r: Resp)
    requires Running(l) && op == NextOp(t, l) && cur == At(h, op.slot) && open == Open(h, op.slot)
    requires (o, r) == Serve(cur, open, op.verb, k.fault)
    ensures Step(t, h, l, k) == Write(op.slot, o, Resume(t, l, r, k.luck))
  {
  }

  /** The session has replayed the machine, call by call. */
  lemma {:induction false} PastIsReplay(t: Tenant, first: Store, w: World, past: seq<(Store, Local)>, n: nat)
    requires n < |past| && past[0] == (first, Begin())
    requires forall k: nat {:trigger Link(t, w, past, k)} :: k < n ==> Link(t, w, past, k)
    ensures past[n] == Replay(t, first, w, n)
  {
    if n > 0 {
      PastIsReplay(t, first, w, past, n - 1);
      assert Link(t, w, past, n - 1);
    }
  }

  lemma SessionIsReplay(s: Session)
    requires s.Valid()
    ensures (s.store, s.local) == Replay(s.t, s.first, s.world, s.calls)
  {
    forall n: nat | n < s.calls ensures Link(s.t, s.world, s.past, n) { assert n !in Breaks(s.t, s.world, s.past, s.calls); }
    PastIsReplay(s.t, s.first, s.world, s.past, s.calls);
  }

  /** Others keep the tenant secure, whatever point the pass has reached. */
  ghost predicate Benign(t: Tenant, w: World) {
    forall n: nat, s: Store, l: Local {:trigger w.others(n)(s), Secure(t, HomeOf(t, s), l)} ::
      Secure(t, HomeOf(t, s), l) ==> Secure(t, HomeOf(t, w.others(n)(s)), l)
  }

  lemma StepSecure(t: Tenant, before: Store, l: Local, k: Tick)
    requires NamespaceName(t) != t.platform && Secure(t, HomeOf(t, before), l) && Running(l)
    ensures var st := Step(t, HomeOf(t, before), l, k);
            Secure(t, HomeOf(t, PutKey(before, KeyOf(t, st.slot), st.obj)), st.local)
  {
    var st := Step(t, HomeOf(t, before), l, k);
    HappeningKeepsSecure(t, HomeOf(t, before), l, PassStep(k));
    OwnView(t, before, st.slot, st.obj);
  }

  lemma BeginSecure(t: Tenant, h: Home)
    requires Secure(t, h, Idle)
    ensures Secure(t, h, Begin())
  {
    HappeningKeepsSecure(t, h, Idle, PassStart);
    PutBack(h, Claim);
  }

  ghost predicate SecureAt(t: Tenant, at: (Store, Local)) {
    Secure(t, HomeOf(t, at.0), at.1)
  }

  lemma LinkSecure(t: Tenant, w: World, past: seq<(Store, Local)>, n: nat)
    requires NamespaceName(t) != t.platform && Benign(t, w) && n + 1 < |past|
    requires SecureAt(t, past[n]) && Link(t, w, past, n)
    ensures SecureAt(t, past[n + 1])
  {
    var was := past[n];
    StepSecure(t, w.others(n)(was.0), was.1, Tick(w.faults(n), w.lucks(n)));
  }

  // ---------------------------------------------------------------- ordinary worlds

  /** What can be done to the store from outside a pass: something to the tenant itself, a write to an object
      that a sibling owns, a change of the parent. */
  datatype Change =
    | ToTenant(e: Happening)
    | OfSibling(b: Tenant, x: Slot, o: Option<Obj>)
    | OfParent(p: Option<Parent>)

  /** What the platform and the user do to the tenant itself. */
  predicate External(e: Happening) {
    !e.PassStep? && !e.PassStart? && !e.Crash?
  }

  ghost predicate Permitted(t: Tenant, s: Store, c: Change) {
    match c
    case ToTenant(e) => External(e) && (e.UserCreates? && Claim !in HomeOf(t, s) ==> Recreatable(HomeOf(t, s)))
    case OfSibling(b, x, _) => Siblings(b, t) && Own(x)
    case OfParent(_) => true
  }

  ghost function Changed(t: Tenant, s: Store, c: Change): Store
    requires Permitted(t, s, c)
  {
    match c
    case ToTenant(e) => var w := Outside(t, HomeOf(t, s), Idle, e); PutKey(s, KeyOf(t, w.slot), w.obj)
    case OfSibling(b, x, o) => PutKey(s, KeyOf(b, x), o)
    case OfParent(p) => PutKey(s, KeyOf(t, ParentSlot), ParentNow(p))
  }

  lemma OutsideIgnoresPass(t: Tenant, h: Home, l: Local, e: Happening)
    requires External(e)
    ensures var w, v := Outside(t, h, l, e), Outside(t, h, Idle, e); w.slot == v.slot && w.obj == v.obj && w.local == l
  {
  }

  lemma ChangeKeepsSecure(t: Tenant, s: Store, c: Change, l: Local)
    requires Permitted(t, s, c) && NamespaceName(t) != t.platform && Secure(t, HomeOf(t, s), l)
    ensures Secure(t, HomeOf(t, Changed(t, s, c)), l)
  {
    var h := HomeOf(t, s);
    match c
    case ToTenant(e) =>
      OutsideIgnoresPass(t, h, l, e);
      HappeningKeepsSecure(t, h, l, e);
      var w := Outside(t, h, Idle, e);
      OwnView(t, s, w.slot, w.obj);
    case OfSibling(b, x, o) => SiblingView(b, t, s, x, o);
    case OfParent(p) =>
      OwnView(t, s, ParentSlot, ParentNow(p));
      ParentKeepsSafe(t, h, l, p);
  }

  /** Any number of permitted changes, one after the other. */
  ghost predicate Ordinary(t: Tenant, s: Store, cs: seq<Change>, s': Store)
    decreases |cs|
  {
    if |cs| == 0 then s' == s else Permitted(t, s, cs[0]) && Ordinary(t, Changed(t, s, cs[0]), cs[1..], s')
  }

  lemma {:induction false} OrdinaryKeepsSecure(t: Tenant, s: Store, cs: seq<Change>, s': Store, l: Local)
    requires Ordinary(t, s, cs, s') && NamespaceName(t) != t.platform && Secure(t, HomeOf(t, s), l)
    ensures Secure(t, HomeOf(t, s'), l)
    decreases |cs|
  {
    if |cs| > 0 {
      ChangeKeepsSecure(t, s, cs[0], l);
      OrdinaryKeepsSecure(t, Changed(t, s, cs[0]), cs[1..], s', l);
    }
  }

  ghost predicate OrdinaryWorld(t: Tenant, w: World) {
    forall n: nat, s: Store {:trigger w.others(n)(s)} :: exists cs :: Ordinary(t, s, cs, w.others(n)(s))
  }

  /** In an ordinary world - between any two calls any number of changes to the tenant, its siblings and its
      parent - the others keep the tenant secure. */
  lemma OrdinaryIsBenign(t: Tenant, w: World)
    requires NamespaceName(t) != t.platform && OrdinaryWorld(t, w)
    ensures Benign(t, w)
  {
    forall n: nat, s: Store, l: Local | Secure(t, HomeOf(t, s), l) ensures Secure(t, HomeOf(t, w.others(n)(s)), l) {
      var cs :| Ordinary(t, s, cs, w.others(n)(s));
      OrdinaryKeepsSecure(t, s, cs, w.others(n)(s), l);
    }
  }

  /** What every link keeps holds all along. */
  lemma {:induction false} AllAlong<T>(p: T -> bool, past: seq<T>, n: nat)
    requires n < |past| && p(past[0])
    requires forall k: nat {:trigger past[k]} :: k < n && p(past[k]) ==> p(past[k + 1])
    ensures p(past[n])
  {
    if n > 0 { AllAlong(p, past, n - 1); }
  }

  /** A session in which others keep the tenant secure keeps it so too, at every point. */
  lemma SessionSecure(s: Session)
    requires s.Valid() && NamespaceName(s.t) != s.t.platform && Benign(s.t, s.world)
    requires Secure(s.t, HomeOf(s.t, s.first), Idle)
    ensures SecureAt(s.t, (s.store, s.local))
  {
    BeginSecure(s.t, HomeOf(s.t, s.first));
    var t := s.t;
    var p := (at: (Store, Local)) => SecureAt(t, at);
    forall n: nat {:trigger s.past[n]} | n < s.calls && p(s.past[n]) ensures p(s.past[n + 1]) {
      assert n !in Breaks(s.t, s.world, s.past, s.calls);
      LinkSecure(s.t, s.world, s.past, n);
    }
    AllAlong(p, s.past, s.calls);
  }
}
