/** A session with nobody else around is a burst of the machine: what is proved of whole passes holds of the
    reconciler as it is written. */
module Quiet {
  import opened Options
  import opened Objects
  import opened Tenants
  import opened Machine
  import opened Safety
  import opened Runs
  import opened Passes
  import opened Outcomes
  import opened Sessions

  /** Nobody interferes. */
  ghost predicate Alone(w: World) {
    forall n: nat, s: Store {:trigger w.others(n)(s)} :: w.others(n)(s) == s
  }

  /** Nobody interferes and nothing fails. */
  ghost predicate Peaceful(w: World) {
    Alone(w) && forall n: nat {:trigger w.faults(n)} {:trigger w.lucks(n)} :: w.faults(n).NoFault? && w.lucks(n).drawn
  }

  ghost function TickAt(w: World, n: nat): Tick { Tick(w.faults(n), w.lucks(n)) }

  ghost function Ticks(w: World, n: nat): seq<Tick> {
    if n == 0 then [] else Ticks(w, n - 1) + [TickAt(w, n - 1)]
  }

  lemma {:induction false} TicksAre(w: World, n: nat)
    ensures |Ticks(w, n)| == n && forall i :: 0 <= i < n ==> Ticks(w, n)[i] == TickAt(w, i)
  {
    if n > 0 { TicksAre(w, n - 1); }
  }

  ghost function Onward(t: Tenant, at: (Home, Local), k: Tick): (Home, Local) {
    if !Running(at.1) then at
    else var w := Step(t, at.0, at.1, k); (Put(at.0, w.slot, w.obj), w.local)
  }

  /** A burst can be extended at its end. */
  lemma {:induction false} BurstMore(t: Tenant, h: Home, l: Local, ks: seq<Tick>, k: Tick)
    ensures Burst(t, h, l, ks + [k]) == Onward(t, Burst(t, h, l, ks), k)
    decreases |ks|
  {
    if |ks| == 0 {
      assert (ks + [k])[1..] == [];
    } else if Running(l) {
      var w := Step(t, h, l, ks[0]);
      assert (ks + [k])[1..] == ks[1..] + [k];
      BurstMore(t, Put(h, w.slot, w.obj), w.local, ks[1..], k);
    }
  }

  ghost function Seen(t: Tenant, at: (Store, Local)): (Home, Local) { (HomeOf(t, at.0), at.1) }

  lemma ReplayOnward(t: Tenant, first: Store, w: World, n: nat)
    requires n > 0 && Alone(w) && NamespaceName(t) != t.platform
    ensures Seen(t, Replay(t, first, w, n)) == Onward(t, Seen(t, Replay(t, first, w, n - 1)), TickAt(w, n - 1))
  {
    var (s, l) := Replay(t, first, w, n - 1);
    if Running(l) {
      assert w.others(n - 1)(s) == s;
      var st := Step(t, HomeOf(t, s), l, TickAt(w, n - 1));
      OwnView(t, s, st.slot, st.obj);
    }
  }

  lemma {:induction false} ReplayIsBurst(t: Tenant, first: Store, w: World, n: nat)
    requires Alone(w) && NamespaceName(t) != t.platform
    ensures Seen(t, Replay(t, first, w, n)) == Burst(t, HomeOf(t, first), Begin(), Ticks(w, n))
  {
    if n > 0 {
      ReplayIsBurst(t, first, w, n - 1);
      ReplayOnward(t, first, w, n);
      BurstMore(t, HomeOf(t, first), Begin(), Ticks(w, n - 1), TickAt(w, n - 1));
    }
  }

  /** Once a pass has ended, more ticks change nothing. */
  lemma {:induction false} BurstEnded(t: Tenant, h: Home, l: Local, ks: seq<Tick>, n: nat)
    requires n <= |ks| && !Running(Burst(t, h, l, ks[..n]).1)
    ensures Burst(t, h, l, ks) == Burst(t, h, l, ks[..n])
    decreases n
  {
    if n > 0 && Running(l) {
      var w := Step(t, h, l, ks[0]);
      assert ks[..n][1..] == ks[1..][..n - 1];
      BurstEnded(t, Put(h, w.slot, w.obj), w.local, ks[1..], n - 1);
    }
  }

  lemma TicksPrefix(w: World, n: nat, m: nat)
    requires n <= m
    ensures |Ticks(w, m)| == m && Ticks(w, m)[..n] == Ticks(w, n)
  {
    TicksAre(w, n);
    TicksAre(w, m);
  }

  lemma TicksCalm(w: World, n: nat)
    requires Peaceful(w)
    ensures Calm(Ticks(w, n))
  {
    TicksAre(w, n);
    forall i | 0 <= i < n ensures CalmTick(Ticks(w, n)[i]) {
      assert w.faults(i).NoFault? && w.lucks(i).drawn;
    }
  }

  lemma LongerBurst(t: Tenant, h: Home, w: World, n: nat, m: nat)
    requires n <= m && !Running(Burst(t, h, Begin(), Ticks(w, n)).1)
    ensures AfterPass(t, h, Ticks(w, m)) == Burst(t, h, Begin(), Ticks(w, n)).0
  {
    TicksPrefix(w, n, m);
    BurstEnded(t, h, Begin(), Ticks(w, m), n);
  }

  lemma LonelyReplay(s: Session)
    requires s.Valid() && Alone(s.world) && NamespaceName(s.t) != s.t.platform
    ensures (HomeOf(s.t, s.store), s.local) == Burst(s.t, HomeOf(s.t, s.first), Begin(), Ticks(s.world, s.calls))
  {
    SessionIsReplay(s);
    ReplayIsBurst(s.t, s.first, s.world, s.calls);
  }

  /** Fault-free ticks are those of a whole calm pass. */
  lemma TicksWhole(w: World, n: nat)
    requires Peaceful(w) && n >= 112
    ensures Whole(Ticks(w, n))
  {
    TicksCalm(w, n);
    TicksAre(w, n);
  }

  /** A finished session with nobody else around has done to the tenant's slots what the pass with the same
      ticks does; in a peaceful world that is a whole calm pass. */
  lemma LonelySession(s: Session, h: Home, n: nat)
    requires s.Valid() && s.local.pc.Stop? && Alone(s.world) && NamespaceName(s.t) != s.t.platform
    requires h == HomeOf(s.t, s.first) && n >= s.calls
    ensures HomeOf(s.t, s.store) == AfterPass(s.t, h, Ticks(s.world, n))
  {
    LonelyReplay(s);
    LongerBurst(s.t, h, s.world, s.calls, n);
  }
}
