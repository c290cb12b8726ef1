/** Passes over different tenants commute call by call, so every interleaving has a sequential equivalent. */
module Serial {
  import opened Options
  import opened Objects
  import opened Tenants
  import opened Machine
  import opened Safety
  import opened Runs

  lemma PutKeysCommute(s: Store, a: Key, o: Option<Obj>, b: Key, p: Option<Obj>)
    requires a != b || (o == Lookup(s, a) && p == Lookup(s, b))
    ensures PutKey(PutKey(s, a, o), b, p) == PutKey(PutKey(s, b, p), a, o)
  {
  }

  /** A write that changes nothing. */
  lemma PutSame(s: Store, k: Key)
    ensures PutKey(s, k, Lookup(s, k)) == s
  {
  }

  lemma NextIs(ts: seq<Tenant>, y: System, i: nat, e: Happening, h: Home, l: Local, w: Write)
    requires |y.locals| == |ts| && i < |ts|
    requires h == HomeOf(ts[i], y.store) && l == y.locals[i] && w == Happens(ts[i], h, l, e)
    ensures Next(ts, y, OfTenant(i, e)) == System(PutKey(y.store, KeyOf(ts[i], w.slot), w.obj), y.locals[i := w.local])
  {
  }

  lemma WritesCommute(a: Tenant, b: Tenant, s: Store, x: Slot, o: Option<Obj>, y: Slot, p: Option<Obj>)
    requires Siblings(a, b) && Siblings(b, a)
    requires Own(x) || o == Lookup(s, KeyOf(a, x))
    requires Own(y) || p == Lookup(s, KeyOf(b, y))
    ensures PutKey(PutKey(s, KeyOf(a, x), o), KeyOf(b, y), p) == PutKey(PutKey(s, KeyOf(b, y), p), KeyOf(a, x), o)
  {
    if Own(x) {
      TenantsApart(a, b, x, y);
    } else if Own(y) {
      TenantsApart(b, a, y, x);
    } else {
      PutSame(s, KeyOf(a, x));
      PutSame(s, KeyOf(b, y));
    }
    if Own(x) || Own(y) { PutKeysCommute(s, KeyOf(a, x), o, KeyOf(b, y), p); }
  }

  /** What an event writes, with the facts that let it be moved. */
  lemma EventWrite(ts: seq<Tenant>, y: System, i: nat, e: Happening) returns (w: Write)
    requires |y.locals| == |ts| && i < |ts|
    ensures w == Happens(ts[i], HomeOf(ts[i], y.store), y.locals[i], e)
    ensures Own(w.slot) || w.obj == Lookup(y.store, KeyOf(ts[i], w.slot))
  {
    w := Happens(ts[i], HomeOf(ts[i], y.store), y.locals[i], e);
    WritesOwn(ts[i], HomeOf(ts[i], y.store), y.locals[i], e);
    HomeAt(ts[i], y.store, w.slot);
  }

  /** Two events of different tenants, one after the other: the second writes what it would have written first. */
  lemma InSequence(ts: seq<Tenant>, y: System, i: nat, e: Happening, j: nat, f: Happening, wa: Write, wb: Write)
    requires Family(ts) && |y.locals| == |ts| && i < |ts| && j < |ts| && i != j
    requires wa == Happens(ts[i], HomeOf(ts[i], y.store), y.locals[i], e)
    requires wb == Happens(ts[j], HomeOf(ts[j], y.store), y.locals[j], f)
    ensures Next(ts, Next(ts, y, OfTenant(i, e)), OfTenant(j, f))
            == System(PutKey(PutKey(y.store, KeyOf(ts[i], wa.slot), wa.obj), KeyOf(ts[j], wb.slot), wb.obj),
                      y.locals[i := wa.local][j := wb.local])
  {
    var z := Next(ts, y, OfTenant(i, e));
    OthersUntouched(ts, y, i, j, e);
    NextIs(ts, y, i, e, HomeOf(ts[i], y.store), y.locals[i], wa);
    NextIs(ts, z, j, f, HomeOf(ts[j], z.store), z.locals[j], wb);
  }

  /** Two events of different tenants can be swapped: same cluster, same passes. */
  lemma EventsCommute(ts: seq<Tenant>, y: System, i: nat, e: Happening, j: nat, f: Happening)
    requires Family(ts) && |y.locals| == |ts| && i < |ts| && j < |ts| && i != j
    ensures Next(ts, Next(ts, y, OfTenant(i, e)), OfTenant(j, f)) == Next(ts, Next(ts, y, OfTenant(j, f)), OfTenant(i, e))
  {
    assert Siblings(ts[i], ts[j]) && Siblings(ts[j], ts[i]);
    var wa := EventWrite(ts, y, i, e);
    var wb := EventWrite(ts, y, j, f);
    InSequence(ts, y, i, e, j, f, wa, wb);
    InSequence(ts, y, j, f, i, e, wb, wa);
    WritesCommute(ts[i], ts[j], y.store, wa.slot, wa.obj, wb.slot, wb.obj);
    LocalsCommute(y.locals, i, wa.local, j, wb.local);
  }

  lemma LocalsCommute(ls: seq<Local>, i: nat, a: Local, j: nat, b: Local)
    requires i < |ls| && j < |ls| && i != j
    ensures ls[i := a][j := b] == ls[j := b][i := a]
  {
  }

  // ---------------------------------------------------------------- rearranging a run

  ghost predicate TenantEvents(ts: seq<Tenant>, es: seq<Event>) {
    forall e :: e in es ==> e.OfTenant? && e.i < |ts|
  }

  ghost function Only(es: seq<Event>, i: nat): seq<Event> {
    if |es| == 0 then []
    else (if es[0].OfTenant? && es[0].i == i then [es[0]] else []) + Only(es[1..], i)
  }

  ghost function Without(es: seq<Event>, i: nat): seq<Event> {
    if |es| == 0 then []
    else (if es[0].OfTenant? && es[0].i == i then [] else [es[0]]) + Without(es[1..], i)
  }

  lemma {:induction false} OnlyOf(es: seq<Event>, i: nat)
    ensures forall e :: e in Only(es, i) ==> e in es && e.OfTenant? && e.i == i
    ensures forall e :: e in Without(es, i) ==> e in es && !(e.OfTenant? && e.i == i)
  {
    if |es| > 0 { OnlyOf(es[1..], i); }
  }

  lemma {:induction false} RunConcat(ts: seq<Tenant>, y: System, a: seq<Event>, b: seq<Event>)
    requires |y.locals| == |ts|
    ensures Run(ts, y, a + b) == Run(ts, Run(ts, y, a), b)
    decreases |a|
  {
    if |a| == 0 {
      assert a + b == b;
    } else {
      assert (a + b)[1..] == a[1..] + b;
      RunConcat(ts, Next(ts, y, a[0]), a[1..], b);
    }
  }

  /** One event moves past any number of events of another tenant. */
  lemma {:induction false} EventPasses(ts: seq<Tenant>, y: System, e: Event, es: seq<Event>, i: nat)
    requires Family(ts) && |y.locals| == |ts| && TenantEvents(ts, es)
    requires e.OfTenant? && e.i < |ts| && e.i != i && forall f :: f in es ==> f.OfTenant? && f.i == i
    ensures Run(ts, Next(ts, y, e), es) == Next(ts, Run(ts, y, es), e)
    decreases |es|
  {
    if |es| > 0 {
      var f := es[0];
      assert f in es && forall g :: g in es[1..] ==> g in es;
      EventsCommute(ts, y, e.i, e.what, f.i, f.what);
      EventPasses(ts, Next(ts, y, f), e, es[1..], i);
    }
  }

  /** All of one tenant's events can be moved to the front, in their own order. */
  lemma {:induction false} Extract(ts: seq<Tenant>, y: System, es: seq<Event>, i: nat)
    requires Family(ts) && |y.locals| == |ts| && TenantEvents(ts, es)
    ensures Run(ts, y, es) == Run(ts, Run(ts, y, Only(es, i)), Without(es, i))
    decreases |es|
  {
    if |es| > 0 {
      var e, rest := es[0], es[1..];
      assert e in es && forall g :: g in rest ==> g in es;
      Extract(ts, Next(ts, y, e), rest, i);
      OnlyOf(rest, i);
      if e.i == i {
        assert Only(es, i) == [e] + Only(rest, i) && Without(es, i) == Without(rest, i);
        assert ([e] + Only(rest, i))[1..] == Only(rest, i);
      } else {
        assert Only(es, i) == Only(rest, i) && Without(es, i) == [e] + Without(rest, i);
        EventPasses(ts, y, e, Only(rest, i), i);
        assert ([e] + Without(rest, i))[1..] == Without(rest, i);
      }
    }
  }

  /** The events of the first `n` tenants named by `order`, one tenant after the other. */
  ghost function OneByOne(es: seq<Event>, order: seq<nat>): seq<Event> {
    if |order| == 0 then [] else Only(es, order[0]) + OneByOne(es, order[1..])
  }

  lemma {:induction false} OneByOneWithout(es: seq<Event>, order: seq<nat>, i: nat)
    requires i !in order
    ensures OneByOne(Without(es, i), order) == OneByOne(es, order)
  {
    if |order| > 0 {
      OnlyWithout(es, i, order[0]);
      OneByOneWithout(es, order[1..], i);
    }
  }

  lemma {:induction false} OnlyWithout(es: seq<Event>, i: nat, j: nat)
    requires i != j
    ensures Only(Without(es, i), j) == Only(es, j)
  {
    if |es| > 0 {
      OnlyWithout(es[1..], i, j);
      var w := Without(es, i);
      if es[0].OfTenant? && es[0].i == i {
        assert w == Without(es[1..], i);
      } else {
        assert w[0] == es[0] && w[1..] == Without(es[1..], i);
      }
    }
  }

  /** Serializability: running the tenants one after the other, in any order, each with its own events in
      their own order, ends in the very same cluster and passes as the interleaved run. */
  lemma {:induction false} Serializable(ts: seq<Tenant>, y: System, es: seq<Event>, order: seq<nat>)
    requires Family(ts) && |y.locals| == |ts| && TenantEvents(ts, es)
    requires forall a, b :: 0 <= a < b < |order| ==> order[a] != order[b]
    requires forall e :: e in es ==> e.i in order
    ensures Run(ts, y, es) == Run(ts, y, OneByOne(es, order))
    decreases |order|
  {
    assert |es| > 0 ==> es[0] in es;
    if |order| > 0 {
      var i, rest := order[0], order[1..];
      var first, others := Only(es, i), Without(es, i);
      OnlyOf(es, i);
      assert i !in rest by {
        forall a | 0 <= a < |rest| ensures rest[a] != i { assert rest[a] == order[a + 1]; }
      }
      forall e | e in others ensures e.i in rest {
        var a :| 0 <= a < |order| && order[a] == e.i;
        assert rest[a - 1] == e.i;
      }
      Extract(ts, y, es, i);
      Serializable(ts, Run(ts, y, first), others, rest);
      OneByOneWithout(es, rest, i);
      RunConcat(ts, y, first, OneByOne(es, rest));
    }
  }

  // ---------------------------------------------------------------- when the parent changes meanwhile

  /** The position of the first change of the parent. */
  ghost function FirstParent(es: seq<Event>): (n: nat)
    ensures n <= |es| && (n < |es| ==> es[n].ParentChanges?) && forall k :: 0 <= k < n ==> es[k].OfTenant?
  {
    if |es| == 0 || es[0].ParentChanges? then 0 else 1 + FirstParent(es[1..])
  }

  /** One tenant after the other between any two changes of the parent, which stay where they are. */
  ghost function Segmented(es: seq<Event>, order: seq<nat>): seq<Event>
    decreases |es|
  {
    var n := FirstParent(es);
    if n == |es| then OneByOne(es, order) else OneByOne(es[..n], order) + ([es[n]] + Segmented(es[n + 1..], order))
  }

  /** Serializability with a changing parent: between its changes, any order of the tenants will do. */
  lemma {:induction false} SerializableBetween(ts: seq<Tenant>, y: System, es: seq<Event>, order: seq<nat>)
    requires Family(ts) && |y.locals| == |ts|
    requires forall e :: e in es && e.OfTenant? ==> e.i < |ts| && e.i in order
    requires forall a, b :: 0 <= a < b < |order| ==> order[a] != order[b]
    ensures Run(ts, y, es) == Run(ts, y, Segmented(es, order))
    decreases |es|
  {
    var n := FirstParent(es);
    var head := es[..n];
    forall e | e in head ensures e.OfTenant? && e in es {
      var k :| 0 <= k < n && head[k] == e;
      assert e == es[k];
    }
    if n == |es| {
      assert head == es;
      Serializable(ts, y, es, order);
    } else {
      var rest := es[n + 1..];
      assert es == head + ([es[n]] + rest);
      Serializable(ts, y, head, order);
      RunConcat(ts, y, head, [es[n]] + rest);
      RunConcat(ts, y, OneByOne(head, order), [es[n]] + Segmented(rest, order));
      OneThenRest(ts, Run(ts, y, head), es[n], rest);
      OneThenRest(ts, Run(ts, y, head), es[n], Segmented(rest, order));
      SerializableBetween(ts, Next(ts, Run(ts, y, head), es[n]), rest, order);
    }
  }

  lemma OneThenRest(ts: seq<Tenant>, y: System, e: Event, rest: seq<Event>)
    requires |y.locals| == |ts|
    ensures Run(ts, y, [e] + rest) == Run(ts, Next(ts, y, e), rest)
  {
    assert ([e] + rest)[1..] == rest;
  }
}
