/** Deleting a secret to rotate it: the init job is create-only, so it keeps the old password for good. */
module Rotation {
  import opened Options
  import opened Objects
  import opened Tenants
  import opened Machine
  import opened Safety
  import opened Passes
  import opened Courses
  import opened Draws
  import Credentials

  /** The stored database password and the one that the init job was given. */
  ghost predicate Split(h: Home) {
    && Child(TCreds) in h && h[Child(TCreds)].SecretObj? && Child(TJob) in h && h[Child(TJob)].JobObj?
    && h[Child(TJob)].job.password != Credentials.Val(h[Child(TCreds)].data, "postgres-password")
  }

  /** The stored signing key and the one in the parameters of the SQL that the init job runs. */
  ghost predicate KeySplit(h: Home) {
    && Child(TJwt) in h && h[Child(TJwt)].SecretObj? && Child(TJob) in h && h[Child(TJob)].JobObj?
    && h[Child(TJob)].job.sql.jwtSecret != Credentials.Val(h[Child(TJwt)].data, "jwt-secret")
  }

  /** Secrets and job are never rewritten by a pass; only finalization removes the job. */
  lemma CreateOnly(t: Tenant, h: Home, l: Local, k: Tick, x: Target)
    requires Running(l) && Child(x) in h && (x.TJwt? || x.TCreds? || x.TJob?)
    requires !(l.pc.Drop? && l.pc.target == x)
    ensures var w := Step(t, h, l, k); At(Put(h, w.slot, w.obj), Child(x)) == At(h, Child(x))
  {
  }

  /** A pass that finds a secret gone draws a new one ... */
  lemma Redrawn(t: Tenant, h: Home, l: Local, k: Tick, x: Target)
    requires l.Pass? && l.pc == Ensure(x, Look) && (x.TJwt? || x.TCreds?) && Child(x) !in h && CalmTick(k)
    ensures var w := Step(t, h, l, k); Put(h, w.slot, w.obj) == h && w.local == Drawing(t, l, x, k)
  {
    PutBack(h, Child(x));
  }

  ghost function Drawing(t: Tenant, l: Local, x: Target, k: Tick): (m: Local)
    requires l.Pass?
    ensures m.Pass?
  {
    var d := Drawn(t, l, x, k.luck); d.(pc := Ensure(x, Add))
  }

  lemma Restored(t: Tenant, h: Home, l: Local, k: Tick, x: Target)
    requires l.Pass? && l.pc == Ensure(x, Add) && (x.TJwt? || x.TCreds?) && Child(x) !in h && Open(h, Child(x)) && CalmTick(k)
    ensures var w := Step(t, h, l, k);
            w.slot == Child(x) && w.obj == Some(SecretObj(PartLabels(t, "secrets"), if x.TJwt? then l.jwt else l.creds))
  {
  }

  lemma Replaced(t: Tenant, h: Home, l: Local, k1: Tick, k2: Tick, x: Target)
    requires l.Pass? && l.pc == Ensure(x, Look) && (x.TJwt? || x.TCreds?) && Child(x) !in h && CalmTick(k1) && CalmTick(k2)
    requires Open(h, Child(x))
    ensures Burst(t, h, l, [k1, k2]).0
            == h[Child(x) := SecretObj(PartLabels(t, "secrets"), if x.TJwt? then JwtData(t.crypto, k1.luck) else CredsData(k1.luck))]
  {
    var m := Drawing(t, l, x, k1);
    Redrawn(t, h, l, k1, x);
    assert [k1] + [k2] == [k1, k2];
    BurstFirst(t, h, l, k1, [k2], h, m);
    PutBackDrawn(t, h, m, k2, x);
    DrawnData(t, l, x, k1);
  }

  lemma PutBackDrawn(t: Tenant, h: Home, m: Local, k: Tick, x: Target)
    requires m.Pass? && m.pc == Ensure(x, Add) && (x.TJwt? || x.TCreds?) && Child(x) !in h && Open(h, Child(x)) && CalmTick(k)
    ensures Burst(t, h, m, [k]).0 == h[Child(x) := SecretObj(PartLabels(t, "secrets"), if x.TJwt? then m.jwt else m.creds)]
  {
    Restored(t, h, m, k, x);
    LastCall(t, h, m, k);
  }

  lemma DrawnData(t: Tenant, l: Local, x: Target, k: Tick)
    requires l.Pass? && (x.TJwt? || x.TCreds?)
    ensures x.TJwt? ==> Drawing(t, l, x, k).jwt == JwtData(t.crypto, k.luck)
    ensures x.TCreds? ==> Drawing(t, l, x, k).creds == CredsData(k.luck)
  {
  }

  lemma LastCall(t: Tenant, h: Home, l: Local, k: Tick)
    requires Running(l)
    ensures var w := Step(t, h, l, k); Burst(t, h, l, [k]).0 == Put(h, w.slot, w.obj)
  {
    var w := Step(t, h, l, k);
    assert [k] + [] == [k];
    BurstFirst(t, h, l, k, [], Put(h, w.slot, w.obj), w.local);
  }

  lemma PasswordOf(luck: Luck)
    ensures Password(CredsData(luck)) == luck.postgres
  {
  }

  lemma SigningKeyOf(c: Crypto, luck: Luck)
    ensures SigningKey(JwtData(c, luck)) == luck.jwt
  {
  }

  lemma SplitWith(h: Home, labels: Labels, data: Credentials.Data)
    requires Child(TJob) in h && h[Child(TJob)].JobObj?
    ensures Split(h[Child(TCreds) := SecretObj(labels, data)]) <==> h[Child(TJob)].job.password != Password(data)
    ensures KeySplit(h[Child(TJwt) := SecretObj(labels, data)]) <==> h[Child(TJob)].job.sql.jwtSecret != SigningKey(data)
  {
  }

  /** ... and, unless the draw repeats the old password, ends up with a secret that the init job disagrees
      with: rotating by deletion needs the job to be deleted as well. */
  lemma DeletingSecretSplits(t: Tenant, h: Home, l: Local, k1: Tick, k2: Tick)
    requires l.Pass? && l.pc == Ensure(TCreds, Look) && Child(TCreds) !in h && CalmTick(k1) && CalmTick(k2)
    requires Open(h, Child(TCreds)) && Child(TJob) in h && h[Child(TJob)].JobObj?
    ensures Split(Burst(t, h, l, [k1, k2]).0) <==> h[Child(TJob)].job.password != k1.luck.postgres
  {
    Replaced(t, h, l, k1, k2, TCreds);
    PasswordOf(k1.luck);
    SplitWith(h, PartLabels(t, "secrets"), CredsData(k1.luck));
  }

  /** The same for the signing key and the parameters of the job's SQL. */
  lemma DeletingKeySplits(t: Tenant, h: Home, l: Local, k1: Tick, k2: Tick)
    requires l.Pass? && l.pc == Ensure(TJwt, Look) && Child(TJwt) !in h && CalmTick(k1) && CalmTick(k2)
    requires Open(h, Child(TJwt)) && Child(TJob) in h && h[Child(TJob)].JobObj?
    ensures KeySplit(Burst(t, h, l, [k1, k2]).0) <==> h[Child(TJob)].job.sql.jwtSecret != k1.luck.jwt
  {
    Replaced(t, h, l, k1, k2, TJwt);
    SigningKeyOf(t.crypto, k1.luck);
    SplitWith(h, PartLabels(t, "secrets"), JwtData(t.crypto, k1.luck));
  }

  /** What a pass does to a healthy tenant one of whose secrets has been deleted. Before, job and secrets agree;
      the pass comes to where both secrets stand again, and they disagree with the job exactly when the draw
      differs. */
  lemma DeletedOutside(t: Tenant, h: Home, l: Local, luck: Luck, x: Target) returns (es: seq<Happening>, h': Home)
    requires Sound(t, h, l) && Persisted(h) && !h[Claim].cr.deleting && ParentSlot in h
    requires (x.TJwt? || x.TCreds?) && Child(TJob) in h && luck.drawn
    ensures Child(TJwt) in h && Child(TCreds) in h && !Split(h) && !KeySplit(h)
    ensures Leads(t, h - {Child(x)}, l, es, h') && Undisturbed(es)
    ensures x.TCreds? ==> !KeySplit(h') && (Split(h') <==> luck.postgres != h[Child(TJob)].job.password)
    ensures x.TJwt? ==> !Split(h') && (KeySplit(h') <==> luck.jwt != h[Child(TJob)].job.sql.jwtSecret)
  {
    Agreeing(t, h, l);
    WorkableWithout(t, h, l, x);
    var m;
    es, h', m := ToSecrets(t, h - {Child(x)}, l, luck);
    DrawnAgain(h, h - {Child(x)}, h', m, luck, x);
  }

  lemma Agreeing(t: Tenant, h: Home, l: Local)
    requires Sound(t, h, l) && Persisted(h) && !h[Claim].cr.deleting && Child(TJob) in h
    ensures Child(TJwt) in h && Child(TCreds) in h && !Split(h) && !KeySplit(h)
    ensures h[Child(TJwt)].SecretObj? && h[Child(TCreds)].SecretObj? && h[Child(TJob)].JobObj?
  {
    assert Live(h, l);
    assert Needs(TJob, TJwt) && Needs(TJob, TCreds);
    assert Fits(Child(TJwt), h[Child(TJwt)]) && Fits(Child(TCreds), h[Child(TCreds)]);
    assert Carries(t, TJob, h[Child(TJob)], Stored(t, h));
  }

  lemma WorkableWithout(t: Tenant, h: Home, l: Local, x: Target)
    requires Sound(t, h, l) && Persisted(h) && !h[Claim].cr.deleting && ParentSlot in h && (x.TJwt? || x.TCreds?)
    ensures Workable(h - {Child(x)})
  {
    assert Live(h, l);
    assert forall s :: s in h - {Child(x)} ==> s in h;
  }

  lemma DrawnAgain(h: Home, h0: Home, h': Home, m: Local, luck: Luck, x: Target)
    requires (x.TJwt? || x.TCreds?) && h0 == h - {Child(x)} && Stage(h0, h', m, luck, Check(TJwt))
    requires Child(TJwt) in h && Child(TCreds) in h && Child(TJob) in h && !Split(h) && !KeySplit(h)
    requires h[Child(TJwt)].SecretObj? && h[Child(TCreds)].SecretObj? && h[Child(TJob)].JobObj?
    ensures x.TCreds? ==> !KeySplit(h') && (Split(h') <==> luck.postgres != h[Child(TJob)].job.password)
    ensures x.TJwt? ==> !Split(h') && (KeySplit(h') <==> luck.jwt != h[Child(TJob)].job.sql.jwtSecret)
  {
    var kept := if x.TCreds? then TJwt else TCreds;
    assert At(h', Child(TJob)) == At(h0, Child(TJob)) && At(h', Child(kept)) == At(h0, Child(kept));
  }

  /** No pass that is not taking the tenant down ever repairs either split. */
  lemma SplitStays(t: Tenant, h: Home, l: Local, k: Tick)
    requires Running(l) && !l.pc.Drop?
    ensures var w := Step(t, h, l, k); var h' := Put(h, w.slot, w.obj);
            (Split(h) ==> Split(h')) && (KeySplit(h) ==> KeySplit(h'))
  {
    if Child(TJwt) in h { CreateOnly(t, h, l, k, TJwt); }
    if Child(TCreds) in h { CreateOnly(t, h, l, k, TCreds); }
    if Child(TJob) in h { CreateOnly(t, h, l, k, TJob); }
  }
}
