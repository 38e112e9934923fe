/** Finalizer safety over all interleavings.  Any number of tenants come and go; one worker per tenant
    name takes the atomic steps of module Reconciler, reading tenants from a cache that may lag behind
    but never goes backwards, and may stop after any step; users create, edit and delete tenants and
    objects, and the REST API works on the same tables.  Users do not remove the controller's own
    finalizer, and ids made for REST rows are not tenant UIDs. */
module FinalizerProtocol {
  import opened Tenants
  import opened ApiServer
  import opened Reconciler
  import opened Convergence
  import Store = TenantStore

  /** `seen` is the position in the history of the last state the worker read its tenant from. */
  datatype Worker = Worker(pc: Pc, seen: nat)

  /** `past` is every state of the server so far, the current one last; `issued` maps each UID ever
      given out to the name of its tenant. */
  datatype System = System(past: seq<Server>, db: Store.Tables, workers: map<string, Worker>,
                           issued: map<string, string>)

  function WorkerOf(sys: System, name: string): Worker {
    if name in sys.workers then sys.workers[name] else Worker(Start, 0)
  }

  function Now(sys: System): Server
    requires sys.past != []
  {
    sys.past[|sys.past|-1]
  }

  datatype Move =
    | Work(name: string, at: nat, now: nat)
    | Stop(name: string)
    | UserCreate(t: Tenant)
    | UserEdit(name: string, spec: Spec, finalizers: seq<string>)
    | UserDelete(name: string)
    | WriteObject(d: Desired)
    | DeleteObject(key: Key)
    | StoreOp(op: Store.Timed)

  ghost predicate Enabled(sys: System, m: Move)
    requires sys.past != []
  {
    match m
    case Work(name, at, _) =>
      at < |sys.past| && (WorkerOf(sys, name).pc.Start? ==> WorkerOf(sys, name).seen <= at)
    case Stop(_) => true
    case UserCreate(t) =>
      t.name !in Now(sys).tenants && t.uid !in sys.issued && t.uid !in sys.db.tenants && !t.deleting
    case UserEdit(name, _, finalizers) =>
      && name in Now(sys).tenants
      && (FINALIZER in Now(sys).tenants[name].finalizers ==> FINALIZER in finalizers)
      && (Now(sys).tenants[name].deleting ==> forall f | f in finalizers :: f in Now(sys).tenants[name].finalizers)
    case UserDelete(name) => name in Now(sys).tenants
    case WriteObject(_) => true
    case DeleteObject(_) => true
    case StoreOp(op) => op.op.CreateOp? ==> op.op.id !in sys.issued
  }

  ghost function Push(sys: System, s: Server): System { sys.(past := sys.past + [s]) }

  ghost function Next(cfg: Config, sys: System, m: Move): System
    requires sys.past != []
  {
    if !Enabled(sys, m) then sys
    else
      match m
      case Work(name, at, now) =>
        var k := WorkerOf(sys, name);
        var (w, pc) := Advance(cfg, World(Now(sys), sys.db), sys.past[at], now, name, k.pc);
        var k' := Worker(pc, if k.pc.Start? then at else k.seen);
        Push(sys, w.server).(db := w.db, workers := sys.workers[name := k'])
      case Stop(name) => sys.(workers := sys.workers[name := WorkerOf(sys, name).(pc := Start)])
      case UserCreate(t) => Push(sys, PutTenant(Now(sys), t)).(issued := sys.issued[t.uid := t.name])
      case UserEdit(name, spec, finalizers) =>
        Push(sys, PutTenant(Now(sys), Now(sys).tenants[name].(spec := spec, finalizers := finalizers)))
      case UserDelete(name) => Push(sys, PutTenant(Now(sys), Now(sys).tenants[name].(deleting := true)))
      case WriteObject(d) => Push(sys, Put(Now(sys), d))
      case DeleteObject(key) => Push(sys, Now(sys).(objects := Now(sys).objects - {key}))
      case StoreOp(op) => sys.(db := Store.Apply(sys.db, op))
  }

  ghost function Run(cfg: Config, sys: System, moves: seq<Move>): (after: System)
    requires sys.past != []
    ensures after.past != []
  {
    if moves == [] then sys else Next(cfg, Run(cfg, sys, moves[..|moves|-1]), moves[|moves|-1])
  }

  const INITIAL := System([Server(map[], map[], 0)], Store.EMPTY, map[], map[])

  // ---------------------------------------------------------------- the invariant

  ghost predicate HasFinalizer(s: Server, name: string, uid: string) {
    name in s.tenants && s.tenants[name].uid == uid && FINALIZER in s.tenants[name].finalizers
  }

  /** A live row made for a UID implies that its tenant exists and still carries the finalizer. */
  ghost predicate Covered(sys: System)
    requires sys.past != []
  {
    forall uid | Store.Live(sys.db, uid) && uid in sys.issued :: HasFinalizer(Now(sys), sys.issued[uid], uid)
  }

  ghost predicate TenantsDated(s: Server) {
    Named(s) && forall n | n in s.tenants :: s.tenants[n].version <= s.clock
  }

  /** A tenant is what it was, or carries a version newer than everything before. */
  ghost predicate TenantsEvolve(a: Server, b: Server) {
    && a.clock <= b.clock
    && forall n | n in b.tenants ::
         (n in a.tenants && b.tenants[n] == a.tenants[n]) || a.clock < b.tenants[n].version
  }

  ghost predicate Histories(sys: System) {
    && sys.past != []
    && (forall i | 0 <= i < |sys.past| :: TenantsDated(sys.past[i]))
    && (forall i, j | 0 <= i <= j < |sys.past| :: TenantsEvolve(sys.past[i], sys.past[j]))
  }

  ghost predicate Owned(sys: System) {
    forall i, n | 0 <= i < |sys.past| && n in sys.past[i].tenants ::
      sys.past[i].tenants[n].uid in sys.issued && sys.issued[sys.past[i].tenants[n].uid] == n
  }

  ghost predicate ActiveAt(sys: System, i: nat, name: string)
    requires i < |sys.past|
  {
    name in sys.past[i].tenants && Active(sys.past[i].tenants[name])
  }

  /** From what its worker has seen on, an active tenant keeps its UID and the finalizer. */
  ghost predicate StickyFor(sys: System, name: string) {
    forall i, j | WorkerOf(sys, name).seen <= i <= j < |sys.past| && ActiveAt(sys, i, name) ::
      HasFinalizer(sys.past[j], name, sys.past[i].tenants[name].uid)
  }

  ghost predicate Sticky(sys: System) { forall name :: StickyFor(sys, name) }

  ghost predicate IsCopy(sys: System, name: string, seen: nat, t: Tenant) {
    seen < |sys.past| && name in sys.past[seen].tenants && sys.past[seen].tenants[name] == t
  }

  ghost function CopyOf(pc: Pc): Option<Tenant> {
    match pc
    case Purging(t) => Some(t)
    case Releasing(t) => Some(t)
    case Claiming(t) => Some(t)
    case Looking(t) => Some(t)
    case Inserting(t) => Some(t)
    case Refreshing(t) => Some(t)
    case Providing(t, _, _) => Some(t)
    case _ => None
  }

  /** What the worker knows of its copy by where it stands. */
  ghost predicate Knows(pc: Pc, t: Tenant) {
    if pc.Purging? || pc.Releasing? then t.deleting else pc.Claiming? || Active(t)
  }

  ghost predicate WorkerOk(sys: System, name: string) {
    var k := WorkerOf(sys, name);
    match CopyOf(k.pc)
    case None => true
    case Some(t) => IsCopy(sys, name, k.seen, t) && Knows(k.pc, t) && (k.pc.Releasing? ==> !Store.Live(sys.db, t.uid))
  }

  ghost predicate Inv(sys: System) {
    && Histories(sys) && Owned(sys) && Sticky(sys) && Covered(sys)
    && forall name :: WorkerOk(sys, name)
  }

  // ---------------------------------------------------------------- extending the history

  lemma EvolveTransitive(a: Server, b: Server, c: Server)
    requires TenantsEvolve(a, b) && TenantsEvolve(b, c)
    ensures TenantsEvolve(a, c)
  {
  }

  lemma PushKeepsHistories(sys: System, s: Server)
    requires Histories(sys) && TenantsDated(s) && TenantsEvolve(Now(sys), s)
    ensures Histories(Push(sys, s))
  {
    var after := Push(sys, s);
    forall i, j | 0 <= i <= j < |after.past| ensures TenantsEvolve(after.past[i], after.past[j]) {
      if i < j == |sys.past| {
        EvolveTransitive(sys.past[i], Now(sys), s);
      }
    }
  }

  /** The new state keeps the finalizer and the UID of a tenant that had the finalizer. */
  ghost predicate KeepsFinalizer(a: Server, b: Server, name: string) {
    name in a.tenants && FINALIZER in a.tenants[name].finalizers ==> HasFinalizer(b, name, a.tenants[name].uid)
  }

  lemma PushKeepsSticky(sys: System, s: Server, name: string)
    requires sys.past != [] && StickyFor(sys, name)
    requires KeepsFinalizer(Now(sys), s, name)
             || forall i | WorkerOf(sys, name).seen <= i < |sys.past| :: !ActiveAt(sys, i, name)
    ensures StickyFor(Push(sys, s), name)
  {
    var after := Push(sys, s);
    forall i, j | WorkerOf(after, name).seen <= i <= j < |after.past| && ActiveAt(after, i, name)
      ensures HasFinalizer(after.past[j], name, after.past[i].tenants[name].uid)
    {
      if i < |sys.past| {
        assert ActiveAt(sys, i, name);
        assert HasFinalizer(Now(sys), name, sys.past[i].tenants[name].uid);
      }
    }
  }

  /** Nothing its worker may still act on says that this tenant is active, and it has no live row. */
  ghost predicate MayLose(sys: System, name: string)
    requires sys.past != []
  {
    && (forall i | WorkerOf(sys, name).seen <= i < |sys.past| :: !ActiveAt(sys, i, name))
    && (name in Now(sys).tenants ==> !Store.Live(sys.db, Now(sys).tenants[name].uid))
  }

  /** What a write of the tenant resource may look like to the protocol. */
  ghost predicate SafeWrite(sys: System, s: Server)
    requires sys.past != []
  {
    && TenantsDated(s) && TenantsEvolve(Now(sys), s)
    && (forall n | n in s.tenants :: s.tenants[n].uid in sys.issued && sys.issued[s.tenants[n].uid] == n)
    && (forall n :: KeepsFinalizer(Now(sys), s, n) || MayLose(sys, n))
  }

  lemma SafeWriteKeepsInv(sys: System, s: Server)
    requires Inv(sys) && SafeWrite(sys, s)
    ensures Inv(Push(sys, s))
  {
    PushKeepsHistories(sys, s);
    var after := Push(sys, s);
    forall name ensures StickyFor(after, name) && WorkerOk(after, name) {
      assert WorkerOk(sys, name) && StickyFor(sys, name);
      PushKeepsSticky(sys, s, name);
    }
    assert Covered(after) by {
      forall uid | Store.Live(sys.db, uid) && uid in sys.issued ensures HasFinalizer(s, sys.issued[uid], uid) {
        assert HasFinalizer(Now(sys), sys.issued[uid], uid);
        assert KeepsFinalizer(Now(sys), s, sys.issued[uid]) || MayLose(sys, sys.issued[uid]);
      }
    }
  }

  lemma CurrentState(sys: System)
    requires Inv(sys)
    ensures TenantsDated(Now(sys))
    ensures forall n | n in Now(sys).tenants ::
              Now(sys).tenants[n].uid in sys.issued && sys.issued[Now(sys).tenants[n].uid] == n
  {
  }

  /** A tenant written with an unchanged UID and without losing the finalizer is a safe write. */
  lemma PutTenantIsSafe(sys: System, t: Tenant)
    requires Inv(sys) && t.name in Now(sys).tenants && t.uid == Now(sys).tenants[t.name].uid
    requires FINALIZER in Now(sys).tenants[t.name].finalizers ==> FINALIZER in t.finalizers
    ensures SafeWrite(sys, PutTenant(Now(sys), t))
  {
    hide Inv;
    CurrentState(sys);
  }

  lemma SameTenantsIsSafe(sys: System, s: Server)
    requires Inv(sys) && s.tenants == Now(sys).tenants && s.clock >= Now(sys).clock
    ensures SafeWrite(sys, s)
  {
    hide Inv;
    CurrentState(sys);
  }

  // ---------------------------------------------------------------- users and the REST API

  lemma IssueKeepsInv(sys: System, uid: string, name: string)
    requires Inv(sys) && uid !in sys.issued && uid !in sys.db.tenants
    ensures Inv(sys.(issued := sys.issued[uid := name]))
  {
    var after := sys.(issued := sys.issued[uid := name]);
    forall n ensures StickyFor(after, n) && WorkerOk(after, n) {
      assert WorkerOk(sys, n) && StickyFor(sys, n);
      forall i | 0 <= i < |after.past| ensures ActiveAt(after, i, n) <==> ActiveAt(sys, i, n) {}
    }
  }

  lemma UserCreateKeepsInv(cfg: Config, sys: System, t: Tenant)
    requires Inv(sys) && Enabled(sys, UserCreate(t))
    ensures Inv(Next(cfg, sys, UserCreate(t)))
  {
    IssueKeepsInv(sys, t.uid, t.name);
    var issued := sys.(issued := sys.issued[t.uid := t.name]);
    var s := PutTenant(Now(sys), t);
    assert SafeWrite(issued, s) by {
      hide Inv;
      CurrentState(issued);
    }
    SafeWriteKeepsInv(issued, s);
  }

  lemma StoreOpMakesNothingLive(db: Store.Tables, op: Store.Timed, uid: string)
    requires op.op.CreateOp? ==> op.op.id != uid
    ensures Store.Live(Store.Apply(db, op), uid) ==> Store.Live(db, uid)
  {
  }

  lemma DbChangeKeepsInv(sys: System, db: Store.Tables)
    requires Inv(sys)
    requires forall uid | uid in sys.issued && Store.Live(db, uid) :: Store.Live(sys.db, uid)
    ensures Inv(sys.(db := db))
  {
    var after := sys.(db := db);
    forall name ensures StickyFor(after, name) && WorkerOk(after, name) {
      assert WorkerOk(sys, name) && StickyFor(sys, name);
      var k := WorkerOf(sys, name);
      if k.pc.Releasing? {
        assert k.pc.t.uid in sys.issued by {
          assert sys.past[k.seen].tenants[name].uid in sys.issued;
        }
      }
      forall i | 0 <= i < |after.past| ensures ActiveAt(after, i, name) <==> ActiveAt(sys, i, name) {}
    }
  }

  lemma WorkerChangeKeepsInv(sys: System, name: string, k: Worker)
    requires Inv(sys) && WorkerOf(sys, name).seen <= k.seen
    requires WorkerOk(sys.(workers := sys.workers[name := k]), name)
    ensures Inv(sys.(workers := sys.workers[name := k]))
  {
    var after := sys.(workers := sys.workers[name := k]);
    forall n ensures StickyFor(after, n) && WorkerOk(after, n) {
      assert WorkerOk(sys, n) && StickyFor(sys, n);
      forall i | 0 <= i < |after.past| ensures ActiveAt(after, i, n) <==> ActiveAt(sys, i, n) {}
    }
  }

  // ---------------------------------------------------------------- the worker's steps

  /** An update that is accepted replaces exactly the copy the worker holds. */
  lemma AcceptedCopyIsCurrent(sys: System, name: string, t: Tenant)
    requires Inv(sys) && IsCopy(sys, name, WorkerOf(sys, name).seen, t)
    requires name in Now(sys).tenants && Now(sys).tenants[name].version == t.version
    ensures Now(sys).tenants[name] == t
    ensures forall i | WorkerOf(sys, name).seen <= i < |sys.past| && name in sys.past[i].tenants ::
              sys.past[i].tenants[name] == t
  {
    var seen := WorkerOf(sys, name).seen;
    assert TenantsEvolve(sys.past[seen], Now(sys)) && TenantsDated(sys.past[seen]);
    forall i | seen <= i < |sys.past| && name in sys.past[i].tenants ensures sys.past[i].tenants[name] == t {
      assert TenantsEvolve(sys.past[seen], sys.past[i]) && TenantsEvolve(sys.past[i], Now(sys));
      assert TenantsDated(sys.past[i]);
    }
  }

  /** Removing the finalizer: the row is gone already, and nothing active was seen since. */
  lemma ReleaseIsSafe(sys: System, name: string, t: Tenant)
    requires Inv(sys) && WorkerOf(sys, name).pc == Releasing(t)
    ensures SafeWrite(sys, UpdateTenant(Now(sys), t.(finalizers := Without(t.finalizers, FINALIZER))).0)
  {
    var (s, reply) := UpdateTenant(Now(sys), t.(finalizers := Without(t.finalizers, FINALIZER)));
    assert WorkerOk(sys, name);
    assert t.name == name by { assert TenantsDated(sys.past[WorkerOf(sys, name).seen]); }
    hide Inv;
    CurrentState(sys);
    if reply.Done? {
      AcceptedCopyIsCurrent(sys, name, t);
      assert MayLose(sys, name);
    } else {
      SameTenantsIsSafe(sys, s);
    }
  }

  /** The tenant resource a step writes, if it writes one at all. */
  ghost predicate TenantWrite(before: Server, after: Server, pc: Pc) {
    || (after.tenants == before.tenants && after.clock >= before.clock)
    || (pc.Releasing? && after == UpdateTenant(before, pc.t.(finalizers := Without(pc.t.finalizers, FINALIZER))).0)
    || (pc.Claiming? && after == UpdateTenant(before, pc.t.(finalizers := pc.t.finalizers + [FINALIZER])).0)
    || (pc.Providing? && after == UpdateStatus(before, pc.t.(status := Status("Active", NamespaceOf(pc.t)))).0)
  }

  lemma AdvanceWritesOneTenant(cfg: Config, w: World, view: Server, now: nat, name: string, pc: Pc)
    ensures TenantWrite(w.server, Advance(cfg, w, view, now, name, pc).0.server, pc)
  {
    hide Plan, Acceptable, UpdateTenant, UpdateStatus, Without, NamespaceOf;
  }

  lemma AdvanceWritesSafely(cfg: Config, sys: System, name: string, view: Server, now: nat)
    requires Inv(sys)
    ensures SafeWrite(sys, Advance(cfg, World(Now(sys), sys.db), view, now, name, WorkerOf(sys, name).pc).0.server)
  {
    var pc := WorkerOf(sys, name).pc;
    var s := Advance(cfg, World(Now(sys), sys.db), view, now, name, pc).0.server;
    assert WorkerOk(sys, name);
    assert pc.Claiming? ==> pc.t.name == name by {
      if pc.Claiming? { assert TenantsDated(sys.past[WorkerOf(sys, name).seen]); }
    }
    hide Inv, Advance, SafeWrite, PutTenant, HasFinalizer;
    AdvanceWritesOneTenant(cfg, World(Now(sys), sys.db), view, now, name, pc);
    CurrentState(sys);
    if s.tenants == Now(sys).tenants && s.clock >= Now(sys).clock {
      SameTenantsIsSafe(sys, s);
    } else if pc.Releasing? {
      ReleaseIsSafe(sys, name, pc.t);
    } else if pc.Claiming? {
      AcceptedCopyIsCurrent(sys, name, pc.t);
      PutTenantIsSafe(sys, pc.t.(finalizers := pc.t.finalizers + [FINALIZER]));
    } else {
      PutTenantIsSafe(sys, Now(sys).tenants[pc.t.name].(status := Status("Active", NamespaceOf(pc.t))));
    }
  }

  /** The worker's own step, on the tables and its program counter, once the server's part is recorded. */
  lemma WorkKeepsInv(cfg: Config, sys: System, name: string, at: nat, now: nat)
    requires Inv(sys) && Enabled(sys, Work(name, at, now))
    ensures Inv(Next(cfg, sys, Work(name, at, now)))
  {
    var k, view := WorkerOf(sys, name), sys.past[at];
    var (w, pc) := Advance(cfg, World(Now(sys), sys.db), view, now, name, k.pc);
    var k' := Worker(pc, if k.pc.Start? then at else k.seen);
    AdvanceWritesSafely(cfg, sys, name, view, now);
    SafeWriteKeepsInv(sys, w.server);
    var pushed := Push(sys, w.server);
    assert WorkerOk(pushed, name);
    var stored := pushed.(db := w.db);
    assert Inv(stored) by { StoreStepKeepsInv(cfg, sys, pushed, name, view, now); }
    NextPcIsOk(cfg, sys, stored, name, at, now);
    WorkerChangeKeepsInv(stored, name, k');
  }

  /** Only Inserting makes a row live, and then the copy the worker holds vouches for the tenant. */
  lemma StoreStepKeepsInv(cfg: Config, sys: System, pushed: System, name: string, view: Server, now: nat)
    requires sys.past != [] && Inv(pushed) && pushed.db == sys.db
    requires WorkerOf(pushed, name) == WorkerOf(sys, name)
    ensures Inv(pushed.(db := Advance(cfg, World(Now(sys), sys.db), view, now, name, WorkerOf(sys, name).pc).0.db))
  {
    var pc := WorkerOf(sys, name).pc;
    var db := Advance(cfg, World(Now(sys), sys.db), view, now, name, pc).0.db;
    assert WorkerOk(pushed, name) && StickyFor(pushed, name);
    if pc.Inserting? {
      InsertKeepsInv(pushed, name, pc.t, db);
    } else {
      hide Inv, Plan, Acceptable;
      DbChangeKeepsInv(pushed, db);
    }
  }

  lemma InsertKeepsInv(sys: System, name: string, t: Tenant, db: Store.Tables)
    requires Inv(sys) && WorkerOf(sys, name).pc == Inserting(t)
    requires forall uid | Store.Live(db, uid) :: Store.Live(sys.db, uid) || uid == t.uid
    ensures Inv(sys.(db := db))
  {
    var seen := WorkerOf(sys, name).seen;
    assert WorkerOk(sys, name) && StickyFor(sys, name) && ActiveAt(sys, seen, name);
    assert HasFinalizer(Now(sys), name, t.uid);
    assert sys.past[seen].tenants[name].uid in sys.issued;
    var after := sys.(db := db);
    forall n ensures StickyFor(after, n) && WorkerOk(after, n) {
      assert WorkerOk(sys, n) && StickyFor(sys, n);
      forall i | 0 <= i < |after.past| ensures ActiveAt(after, i, n) <==> ActiveAt(sys, i, n) {}
      var k := WorkerOf(sys, n);
      if k.pc.Releasing? {
        assert sys.issued[sys.past[k.seen].tenants[n].uid] == n;
      }
    }
  }

  /** A worker keeps its copy from step to step, and takes a new one only when it starts. */
  lemma AdvanceKeepsCopy(cfg: Config, w: World, view: Server, now: nat, name: string, pc: Pc)
    requires CopyOf(pc).Some? ==> Knows(pc, CopyOf(pc).value)
    ensures var (w', pc') := Advance(cfg, w, view, now, name, pc);
            CopyOf(pc').Some? ==>
              && (if pc.Start? then name in view.tenants && CopyOf(pc').value == view.tenants[name]
                  else CopyOf(pc') == CopyOf(pc))
              && Knows(pc', CopyOf(pc').value)
              && (pc'.Releasing? ==> pc.Purging? && !Store.Live(w'.db, pc'.t.uid))
  {
    hide Plan, Acceptable, AttemptStep;
  }

  lemma NextPcIsOk(cfg: Config, sys: System, stored: System, name: string, at: nat, now: nat)
    requires Inv(sys) && Inv(stored) && Enabled(sys, Work(name, at, now))
    requires var (w, pc) := Advance(cfg, World(Now(sys), sys.db), sys.past[at], now, name, WorkerOf(sys, name).pc);
             stored == Push(sys, w.server).(db := w.db)
    ensures var k := WorkerOf(sys, name);
            var pc := Advance(cfg, World(Now(sys), sys.db), sys.past[at], now, name, k.pc).1;
            WorkerOk(stored.(workers := stored.workers[name := Worker(pc, if k.pc.Start? then at else k.seen)]), name)
  {
    assert WorkerOk(sys, name);
    hide Inv, Advance;
    AdvanceKeepsCopy(cfg, World(Now(sys), sys.db), sys.past[at], now, name, WorkerOf(sys, name).pc);
  }

  lemma MoveKeepsInv(cfg: Config, sys: System, m: Move)
    requires Inv(sys)
    ensures Inv(Next(cfg, sys, m))
  {
    if Enabled(sys, m) {
      match m
      case Work(name, at, now) => WorkKeepsInv(cfg, sys, name, at, now);
      case Stop(name) => WorkerChangeKeepsInv(sys, name, WorkerOf(sys, name).(pc := Start));
      case UserCreate(t) => UserCreateKeepsInv(cfg, sys, t);
      case UserEdit(name, spec, finalizers) =>
        NamedByKey(sys, name);
        PutTenantIsSafe(sys, Now(sys).tenants[name].(spec := spec, finalizers := finalizers));
        SafeWriteKeepsInv(sys, PutTenant(Now(sys), Now(sys).tenants[name].(spec := spec, finalizers := finalizers)));
      case UserDelete(name) =>
        NamedByKey(sys, name);
        PutTenantIsSafe(sys, Now(sys).tenants[name].(deleting := true));
        SafeWriteKeepsInv(sys, PutTenant(Now(sys), Now(sys).tenants[name].(deleting := true)));
      case WriteObject(d) =>
        SameTenantsIsSafe(sys, Put(Now(sys), d));
        SafeWriteKeepsInv(sys, Put(Now(sys), d));
      case DeleteObject(key) =>
        SameTenantsIsSafe(sys, Now(sys).(objects := Now(sys).objects - {key}));
        SafeWriteKeepsInv(sys, Now(sys).(objects := Now(sys).objects - {key}));
      case StoreOp(op) =>
        forall uid | uid in sys.issued ensures Store.Live(Store.Apply(sys.db, op), uid) ==> Store.Live(sys.db, uid) {
          StoreOpMakesNothingLive(sys.db, op, uid);
        }
        DbChangeKeepsInv(sys, Store.Apply(sys.db, op));
    }
  }

  lemma NamedByKey(sys: System, name: string)
    requires Inv(sys) && name in Now(sys).tenants
    ensures Now(sys).tenants[name].name == name
  {
    assert TenantsDated(Now(sys));
  }

  lemma {:induction false} RunKeepsInv(cfg: Config, sys: System, moves: seq<Move>)
    requires Inv(sys)
    ensures Inv(Run(cfg, sys, moves))
  {
    hide Next;
    if moves != [] {
      RunKeepsInv(cfg, sys, moves[..|moves|-1]);
      MoveKeepsInv(cfg, Run(cfg, sys, moves[..|moves|-1]), moves[|moves|-1]);
    }
  }

  // ---------------------------------------------------------------- the theorems

  /** Over every interleaving: a live row of a tenant's UID means that the tenant is there and carries
      the finalizer. */
  lemma LiveRowMeansTenantExists(cfg: Config, moves: seq<Move>, uid: string)
    ensures var sys := Run(cfg, INITIAL, moves);
            Store.Live(sys.db, uid) && uid in sys.issued ==> HasFinalizer(Now(sys), sys.issued[uid], uid)
  {
    assert Inv(INITIAL);
    RunKeepsInv(cfg, INITIAL, moves);
  }

  ghost predicate NoUid(s: Server, uid: string) { forall n | n in s.tenants :: s.tenants[n].uid != uid }

  /** The tenant this UID was given to is no longer there. */
  ghost predicate Gone(sys: System, uid: string)
    requires sys.past != []
  {
    uid in sys.issued && NoUid(Now(sys), uid)
  }

  lemma PutTenantBringsNoUid(s: Server, t: Tenant, uid: string)
    requires NoUid(s, uid) && t.uid != uid
    ensures NoUid(PutTenant(s, t), uid)
  {
  }

  lemma TenantWriteBringsNoUid(before: Server, after: Server, pc: Pc, uid: string)
    requires NoUid(before, uid) && TenantWrite(before, after, pc)
    ensures NoUid(after, uid)
  {
    hide Without, NamespaceOf;
  }

  /** No move brings a UID back: what is written either was there or is new. */
  lemma MoveKeepsGone(cfg: Config, sys: System, m: Move, uid: string)
    requires sys.past != [] && Gone(sys, uid)
    ensures Gone(Next(cfg, sys, m), uid)
  {
    hide Advance, PutTenant, TenantWrite;
    if Enabled(sys, m) {
      match m
      case Work(name, at, now) =>
        var w, pc := World(Now(sys), sys.db), WorkerOf(sys, name).pc;
        AdvanceWritesOneTenant(cfg, w, sys.past[at], now, name, pc);
        TenantWriteBringsNoUid(Now(sys), Advance(cfg, w, sys.past[at], now, name, pc).0.server, pc, uid);
      case UserCreate(t) => PutTenantBringsNoUid(Now(sys), t, uid);
      case UserEdit(name, spec, finalizers) =>
        PutTenantBringsNoUid(Now(sys), Now(sys).tenants[name].(spec := spec, finalizers := finalizers), uid);
      case UserDelete(name) => PutTenantBringsNoUid(Now(sys), Now(sys).tenants[name].(deleting := true), uid);
      case _ =>
    }
  }

  lemma {:induction false} RunKeepsGone(cfg: Config, sys: System, moves: seq<Move>, uid: string)
    requires sys.past != [] && Gone(sys, uid)
    ensures Gone(Run(cfg, sys, moves), uid)
  {
    hide Next, Gone;
    if moves != [] {
      RunKeepsGone(cfg, sys, moves[..|moves|-1], uid);
      MoveKeepsGone(cfg, Run(cfg, sys, moves[..|moves|-1]), moves[|moves|-1], uid);
    }
  }

  /** Once a tenant is gone there is no live row for its UID, now or ever after. */
  lemma GoneTenantsLeaveNoRow(cfg: Config, before: seq<Move>, after: seq<Move>, uid: string)
    requires Gone(Run(cfg, INITIAL, before), uid)
    ensures !Store.Live(Run(cfg, Run(cfg, INITIAL, before), after).db, uid)
  {
    assert Inv(INITIAL);
    RunKeepsInv(cfg, INITIAL, before);
    RunKeepsGone(cfg, Run(cfg, INITIAL, before), after, uid);
    RunKeepsInv(cfg, Run(cfg, INITIAL, before), after);
  }
}
