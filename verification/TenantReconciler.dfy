/** The reconciler's methods as the source writes them: calls on a client and on the store, each of
    which may fail at any time.  Every method is proved to be an uninterrupted piece of the machine of
    module Reconciler, so what is proved about the machine holds of Reconcile. */
module TenantReconcilers {
  import opened Drift
  import opened Tenants
  import opened ApiServer
  import opened Reconciler
  import Convergence
  import Store = TenantStore

  // ---------------------------------------------------------------- pieces of a run

  lemma OneStep(cfg: Config, name: string, w: World, pc: Pc, now: nat)
    ensures var (w', pc') := Advance(cfg, w, w.server, now, name, pc); Leads(cfg, name, w, pc, w', pc')
  {
    hide Advance;
    LeadsNowhere(cfg, name, w, pc);
    LeadsStep(cfg, name, w, pc, w, pc, now);
  }

  lemma {:induction false} AloneAppend(cfg: Config, name: string, w: World, pc: Pc, a: seq<nat>, b: seq<nat>)
    ensures var (w', pc') := Alone(cfg, w, name, pc, a);
            Alone(cfg, w, name, pc, a + b) == Alone(cfg, w', name, pc', b)
  {
    hide Advance;
    if b == [] {
      assert a + b == a;
    } else {
      AloneAppend(cfg, name, w, pc, a, b[..|b|-1]);
      assert (a + b)[..|a + b|-1] == a + b[..|b|-1];
    }
  }

  lemma LeadsOn(cfg: Config, name: string, w: World, pc: Pc, w1: World, pc1: Pc, w2: World, pc2: Pc)
    requires Leads(cfg, name, w, pc, w1, pc1) && Leads(cfg, name, w1, pc1, w2, pc2)
    ensures Leads(cfg, name, w, pc, w2, pc2)
  {
    var a :| Alone(cfg, w, name, pc, a) == (w1, pc1);
    var b :| Alone(cfg, w1, name, pc1, b) == (w2, pc2);
    AloneAppend(cfg, name, w, pc, a, b);
  }

  /** The first n requests of createOrUpdate, on a fresh cache. */
  ghost function AttemptAlone(s: Server, d: Desired, n: nat): (Server, Attempt) {
    if n == 0 then (s, Creating) else var (s', a) := AttemptAlone(s, d, n-1); AttemptStep(s', s', a, d)
  }

  ghost function PcAfter(t: Tenant, i: nat, a: Attempt): Pc {
    if !a.Finished? then Providing(t, i, a) else if a.outcome.Failed? then Broken else Onward(t, i+1)
  }

  lemma {:induction false} AttemptLeads(cfg: Config, w: World, t: Tenant, i: nat, n: nat)
    requires i < 9 && Plan(cfg, t)[i].Ensure?
    ensures var (s, a) := AttemptAlone(w.server, Plan(cfg, t)[i].d, n);
            Leads(cfg, t.name, w, Providing(t, i, Creating), w.(server := s), PcAfter(t, i, a))
  {
    hide Plan, AttemptStep;
    var d, pc := Plan(cfg, t)[i].d, Providing(t, i, Creating);
    if n == 0 {
      LeadsNowhere(cfg, t.name, w, pc);
    } else {
      AttemptLeads(cfg, w, t, i, n-1);
      var (s, a) := AttemptAlone(w.server, d, n-1);
      if a.Finished? {
        FinishedStays(s, a, d);
      } else {
        LeadsStep(cfg, t.name, w, pc, w.(server := s), Providing(t, i, a), 0);
      }
    }
  }

  lemma FinishedStays(s: Server, a: Attempt, d: Desired)
    requires a.Finished?
    ensures AttemptStep(s, s, a, d) == (s, a)
  {
  }

  // ---------------------------------------------------------------- the client

  ghost predicate Typed(s: Server) {
    Named(s) && forall k | k in s.objects :: s.objects[k].obj.Kind() == k.kind
  }

  class Client {
    const reliable: bool  // no request fails for reasons of its own
    var server: Server

    constructor (server: Server, reliable: bool)
      ensures this.server == server && this.reliable == reliable
    {
      this.server, this.reliable := server, reliable;
    }

    /** `down` stands for every failure that is not an answer of the server. */
    method Fails() returns (down: bool)
      ensures reliable ==> !down
    {
      down := *;
      down := down && !reliable;
    }

    method GetTenant(name: string) returns (down: bool, found: Option<Tenant>)
      ensures reliable ==> !down
      ensures !down ==> found == (if name in server.tenants then Some(server.tenants[name]) else None)
    {
      down := Fails();
      found := if name in server.tenants then Some(server.tenants[name]) else None;
    }

    method Get(key: Key) returns (down: bool, found: Option<Stored>)
      ensures reliable ==> !down
      ensures !down ==> found == (if key in server.objects then Some(server.objects[key]) else None)
    {
      down := Fails();
      found := if key in server.objects then Some(server.objects[key]) else None;
    }

    method CreateObject(d: Desired) returns (down: bool, reply: Reply)
      modifies this
      ensures reliable ==> !down
      ensures if down then server == old(server) else (server, reply) == Create(old(server), d)
    {
      down := Fails();
      reply := NotFound;
      if !down { server, reply := Create(server, d).0, Create(server, d).1; }
    }

    method UpdateObject(d: Desired, version: nat) returns (down: bool, reply: Reply)
      modifies this
      ensures reliable ==> !down
      ensures if down then server == old(server) else (server, reply) == Update(old(server), d, version)
    {
      down := Fails();
      reply := NotFound;
      if !down { server, reply := Update(server, d, version).0, Update(server, d, version).1; }
    }

    method UpdateCR(t: Tenant) returns (down: bool, reply: Reply)
      modifies this
      ensures reliable ==> !down
      ensures if down then server == old(server) else (server, reply) == UpdateTenant(old(server), t)
    {
      down := Fails();
      reply := NotFound;
      if !down { server, reply := UpdateTenant(server, t).0, UpdateTenant(server, t).1; }
    }

    method UpdateCRStatus(t: Tenant) returns (down: bool, reply: Reply)
      modifies this
      ensures reliable ==> !down
      ensures if down then server == old(server) else (server, reply) == UpdateStatus(old(server), t)
    {
      down := Fails();
      reply := NotFound;
      if !down { server, reply := UpdateStatus(server, t).0, UpdateStatus(server, t).1; }
    }
  }

  // ---------------------------------------------------------------- the reconciler

  class TenantReconciler {
    const cfg: Config
    const client: Client
    const store: Store.Database

    constructor (cfg: Config, client: Client, store: Store.Database)
      ensures this.cfg == cfg && this.client == client && this.store == store
    {
      this.cfg, this.client, this.store := cfg, client, store;
    }

    ghost function W(): World
      reads client, store
    {
      World(client.server, store.State())
    }

    ghost predicate Reliable() { client.reliable && store.reliable }

    /** What was done since (w0, pc0) is a run of the machine: a complete one up to `goal` without an error;
        up to where it breaks with one, unless a call failed for reasons of its own. */
    ghost predicate Arrives(name: string, w0: World, pc0: Pc, w: World, err: bool, goal: Pc) {
      && (exists pc :: Leads(cfg, name, w0, pc0, w, pc))
      && (!err ==> Leads(cfg, name, w0, pc0, w, goal))
      && (err && Reliable() ==> Leads(cfg, name, w0, pc0, w, Broken))
    }

    /** The requests it makes are the first ones of the machine's attempt, and on success all of them. */
    method CreateOrUpdate(d: Desired) returns (ok: bool)
      requires Typed(client.server) && d.key.kind == d.obj.Kind()
      modifies client
      ensures Typed(client.server) && client.server.tenants == old(client.server.tenants)
      ensures exists n, a :: AttemptAlone(old(client.server), d, n) == (client.server, a)
                             && (ok ==> a.Finished? && !a.outcome.Failed?)
                             && (client.reliable && !ok ==> a == Finished(Failed))
    {
      ghost var s0 := client.server;
      assert AttemptAlone(s0, d, 0) == (s0, Creating);
      var down, reply := client.CreateObject(d);
      if down { return false; }
      assert AttemptAlone(s0, d, 1) == AttemptStep(s0, s0, Creating, d);
      if reply.Done? { return true; }
      if !reply.AlreadyExists? { return false; }
      var found;
      down, found := client.Get(d.key);
      if down { return false; }
      assert AttemptAlone(s0, d, 2) == AttemptStep(s0, s0, Reading, d);
      if found.None? { return false; }
      var needed := NeedsUpdate(found.value.obj, d.obj);
      if !needed { return true; }
      down, reply := client.UpdateObject(d, found.value.version);
      if down { return false; }
      assert AttemptAlone(s0, d, 3) == AttemptStep(s0, s0, Writing(found.value), d);
      return reply.Done?;
    }

    method AddFinalizer(t: Tenant) returns (requeue: bool, err: bool)
      requires Typed(client.server)
      modifies client
      ensures Typed(client.server)
      ensures Arrives(t.name, old(W()), Claiming(t), W(), err, Succeeded(requeue))
    {
      ghost var w0 := W();
      LeadsNowhere(cfg, t.name, w0, Claiming(t));
      OneStep(cfg, t.name, w0, Claiming(t), 0);
      var down, reply := client.UpdateCR(t.(finalizers := t.finalizers + [FINALIZER]));
      assert Leads(cfg, t.name, w0, Claiming(t), W(),
                   if down then Claiming(t) else if reply.Done? then Succeeded(true) else Broken);
      return true, down || !reply.Done?;
    }

    method ReconcileDelete(t: Tenant) returns (requeue: bool, err: bool)
      requires Typed(client.server) && Store.Valid(store.State())
      modifies client, store
      ensures Typed(client.server) && Store.Valid(store.State())
      ensures Arrives(t.name, old(W()), Purging(t), W(), err, Succeeded(requeue))
    {
      ghost var w0 := W();
      LeadsNowhere(cfg, t.name, w0, Purging(t));
      var now: nat := *;
      var r := store.DeleteTenant(now, t.uid);
      if r.Err? {
        assert W() == w0;
        return false, true;
      }
      OneStep(cfg, t.name, w0, Purging(t), now);
      LeadsStep(cfg, t.name, w0, Purging(t), W(), Releasing(t), now);
      var left := RemoveString(t.finalizers, FINALIZER);
      var down, reply := client.UpdateCR(t.(finalizers := left));
      assert Leads(cfg, t.name, w0, Purging(t), W(),
                   if down then Releasing(t) else if reply.Done? then Succeeded(false) else Broken);
      return false, down || !reply.Done?;
    }

    /** The i-th createOrUpdate of a reconcile that has come this far from (w0, pc0). */
    method Provide(t: Tenant, d: Desired, ghost i: nat, ghost w0: World, ghost pc0: Pc) returns (ok: bool)
      requires Typed(client.server) && d.key.kind == d.obj.Kind()
      requires i < 9 && Plan(cfg, t)[i] == Ensure(d)
      requires Leads(cfg, t.name, w0, pc0, W(), Onward(t, i))
      modifies client
      ensures Typed(client.server)
      ensures Arrives(t.name, w0, pc0, W(), !ok, Onward(t, i+1))
    {
      hide Plan, Leads, AttemptAlone;
      ghost var w := W();
      ok := CreateOrUpdate(d);
      ghost var n, a :| AttemptAlone(w.server, d, n) == (client.server, a)
                        && (ok ==> a.Finished? && !a.outcome.Failed?)
                        && (client.reliable && !ok ==> a == Finished(Failed));
      AttemptLeads(cfg, w, t, i, n);
      assert W() == w.(server := client.server);
      LeadsOn(cfg, t.name, w0, pc0, w, Onward(t, i), W(), PcAfter(t, i, a));
    }

    lemma PlanUnfolds(t: Tenant)
      ensures var p := Plan(cfg, t);
              && p[0] == Ensure(BuildNamespace(t))
              && (KnownTier(t.spec.tier) ==> p[1] == Ensure(BuildQuota(t)))
              && p[2] == Ensure(BuildRole(t, "-admin", AdminRules()))
              && p[3] == Ensure(BuildRole(t, "-operator", OperatorRules()))
              && p[4] == Ensure(BuildBinding(t, "-admin", "-admins"))
              && p[5] == Ensure(BuildBinding(t, "-operator", "-operators"))
              && p[6] == MarkActive
              && p[7] == Ensure(BuildNetworkPolicy(cfg, t))
              && p[8] == Ensure(BuildLimitRange(cfg, t))
    {
      hide BuildNamespace, BuildQuota, BuildRole, BuildBinding, BuildNetworkPolicy, BuildLimitRange;
    }

    lemma PlanIsTyped(t: Tenant)
      ensures forall i | 0 <= i < 9 && Plan(cfg, t)[i].Ensure? ::
                Plan(cfg, t)[i].d.key.kind == Plan(cfg, t)[i].d.obj.Kind()
    {
      hide Plan;
      forall i | 0 <= i < 9 && Plan(cfg, t)[i].Ensure?
        ensures Plan(cfg, t)[i].d.key.kind == Plan(cfg, t)[i].d.obj.Kind()
      {
        Convergence.PlanObject(cfg, t, i);
      }
    }

    /** Lines 133-138: the phase is Active before the network policy and the limit range exist. */
    method MarkTenantActive(t: Tenant, ghost w0: World, ghost pc0: Pc) returns (ok: bool)
      requires Typed(client.server) && Leads(cfg, t.name, w0, pc0, W(), Onward(t, 6))
      modifies client
      ensures Typed(client.server)
      ensures Arrives(t.name, w0, pc0, W(), !ok, Onward(t, 7))
    {
      hide Leads, Plan;
      PlanUnfolds(t);
      LeadsStep(cfg, t.name, w0, pc0, W(), Onward(t, 6), 0);
      var down, reply := client.UpdateCRStatus(t.(status := Status("Active", NamespaceOf(t))));
      assert Leads(cfg, t.name, w0, pc0, W(),
                   if down then Onward(t, 6) else if reply.Done? then Onward(t, 7) else Broken);
      return !down && reply.Done?;
    }

    method ReconcileCreateOrUpdate(t: Tenant) returns (requeue: bool, err: bool)
      requires Typed(client.server) && Store.Valid(store.State())
      modifies client, store
      ensures Typed(client.server) && Store.Valid(store.State())
      ensures Arrives(t.name, old(W()), Looking(t), W(), err, Succeeded(requeue))
    {
      hide Plan, Leads, Advance, BuildNamespace, BuildQuota, BuildRole, BuildBinding, BuildNetworkPolicy, BuildLimitRange;
      requeue, err := false, true;
      ghost var w0, pc0 := W(), Looking(t);
      PlanUnfolds(t);
      PlanIsTyped(t);
      var stored := StoreRow(t);
      if !stored { return; }
      var namespace := BuildNamespace(t);
      var ok := Provide(t, namespace, 0, w0, pc0);
      if !ok { return; }
      if !KnownTier(t.spec.tier) {  // the nil quota panics in Create
        PanicBreaks(t, w0, pc0, W());
        return;
      }
      ok := Provide(t, BuildQuota(t), 1, w0, pc0);
      if !ok { return; }
      ok := Provide(t, BuildRole(t, "-admin", AdminRules()), 2, w0, pc0);
      if !ok { return; }
      ok := Provide(t, BuildRole(t, "-operator", OperatorRules()), 3, w0, pc0);
      if !ok { return; }
      ok := Provide(t, BuildBinding(t, "-admin", "-admins"), 4, w0, pc0);
      if !ok { return; }
      ok := Provide(t, BuildBinding(t, "-operator", "-operators"), 5, w0, pc0);
      if !ok { return; }
      ok := MarkTenantActive(t, w0, pc0);
      if !ok { return; }
      ok := Provide(t, BuildNetworkPolicy(cfg, t), 7, w0, pc0);
      if !ok { return; }
      ok := Provide(t, BuildLimitRange(cfg, t), 8, w0, pc0);
      return false, !ok;
    }

    lemma PanicBreaks(t: Tenant, w0: World, pc0: Pc, w: World)
      requires Leads(cfg, t.name, w0, pc0, w, Onward(t, 1)) && !KnownTier(t.spec.tier)
      ensures Leads(cfg, t.name, w0, pc0, w, Broken)
    {
      hide Leads;
      LeadsStep(cfg, t.name, w0, pc0, w, Onward(t, 1), 0);
    }

    /** Lines 91-104: look the row up, then create or update it. */
    method StoreRow(t: Tenant) returns (ok: bool)
      requires Store.Valid(store.State())
      modifies store
      ensures Store.Valid(store.State())
      ensures Arrives(t.name, old(W()), Looking(t), W(), !ok, Onward(t, 0))
    {
      ghost var w0 := W();
      LeadsNowhere(cfg, t.name, w0, Looking(t));
      var existing := store.GetTenantByID(t.uid);
      if existing.Err? {
        assert Leads(cfg, t.name, w0, Looking(t), W(), Looking(t));
        return false;
      }
      OneStep(cfg, t.name, w0, Looking(t), 0);
      var now: nat := *;
      if existing.value.None? {
        LeadsStep(cfg, t.name, w0, Looking(t), w0, Inserting(t), now);
        var r := store.CreateTenant(now, t.uid, t.spec, t.status.namespace);
        ok := r.Ok?;
        assert Leads(cfg, t.name, w0, Looking(t), W(),
                     if ok then Onward(t, 0) else if r.failure.Unavailable? then Inserting(t) else Broken);
      } else {
        LeadsStep(cfg, t.name, w0, Looking(t), w0, Refreshing(t), now);
        var r := store.UpdateTenant(now, t.uid, t.spec);
        ok := r.Ok?;
        assert Leads(cfg, t.name, w0, Looking(t), W(),
                     if ok then Onward(t, 0) else if r.failure.Unavailable? then Refreshing(t) else Broken);
      }
    }

    /** Reconcile is a run of the machine.  On success an active tenant has everything; and when no call fails
        for reasons of its own there is an error exactly for an active tenant whose tier is unknown or which
        the store's constraints refuse. */
    method Reconcile(name: string) returns (requeue: bool, err: bool)
      requires Typed(client.server) && Store.Valid(store.State())
      modifies client, store
      ensures Typed(client.server) && Store.Valid(store.State())
      ensures Arrives(name, old(W()), Start, W(), err, Succeeded(requeue))
      ensures !err && name in old(client.server.tenants) && Convergence.Active(old(client.server.tenants[name])) ==>
                Convergence.Provided(cfg, client.server, old(client.server.tenants[name]), 9)
      ensures Reliable() ==>
                (err <==> name in old(client.server.tenants) && MustFail(old(W()), old(client.server.tenants[name])))
    {
      ghost var w0 := W();
      LeadsNowhere(cfg, name, w0, Start);
      OneStep(cfg, name, w0, Start, 0);
      var down, found := client.GetTenant(name);
      if down {
        assert Reaches(cfg, w0, name, W(), Start);
        return false, true;
      }
      if found.None? {
        assert Reaches(cfg, w0, name, W(), Succeeded(false));
        return false, false;
      }
      var t := found.value;
      if t.deleting {
        requeue, err := ReconcileDelete(t);
        LeadsFrom(name, w0, Purging(t), W());
      } else if FINALIZER !in t.finalizers {
        requeue, err := AddFinalizer(t);
        LeadsFrom(name, w0, Claiming(t), W());
      } else {
        requeue, err := ReconcileCreateOrUpdate(t);
        LeadsFrom(name, w0, Looking(t), W());
      }
      OutcomeIsDecided(w0, t, W(), requeue);
    }

    ghost predicate MustFail(w: World, t: Tenant) {
      Convergence.Active(t) && !(KnownTier(t.spec.tier) && Convergence.StorePasses(w.db, t))
    }

    /** Whether a run breaks or succeeds is settled by the world it starts from. */
    lemma OutcomeIsDecided(w: World, t: Tenant, w': World, requeue: bool)
      requires t.name in w.server.tenants && w.server.tenants[t.name] == t
      ensures Reaches(cfg, w, t.name, w', Succeeded(requeue)) ==> !MustFail(w, t)
      ensures Reaches(cfg, w, t.name, w', Broken) ==> MustFail(w, t)
      ensures Reaches(cfg, w, t.name, w', Succeeded(requeue)) && Convergence.Active(t) ==>
                Convergence.Provided(cfg, w'.server, t, 9)
    {
      hide Reaches, Convergence.Provided, Convergence.StorePasses;
      if Convergence.Active(t) {
        if Reaches(cfg, w, t.name, w', Succeeded(requeue)) {
          Convergence.SuccessProvidesEverything(cfg, w, t, w', requeue);
          Convergence.ReconcileSucceedsIff(cfg, w, t);
        }
        if Reaches(cfg, w, t.name, w', Broken) {
          Convergence.ReconcileBreaksOnlyIf(cfg, w, t, w');
        }
      } else if Reaches(cfg, w, t.name, w', Broken) {
        Convergence.InactiveTenantsMoveOn(cfg, w, t, w', Broken);
      }
    }

    lemma LeadsFrom(name: string, w0: World, pc: Pc, w: World)
      requires Leads(cfg, name, w0, Start, w0, pc)
      ensures forall pc' :: Leads(cfg, name, w0, pc, w, pc') ==> Reaches(cfg, w0, name, w, pc')
    {
      forall pc' | Leads(cfg, name, w0, pc, w, pc') ensures Reaches(cfg, w0, name, w, pc') {
        LeadsOn(cfg, name, w0, Start, w0, pc, w, pc');
      }
    }
  }
}
