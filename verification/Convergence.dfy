/** One uninterrupted, successful reconcile repairs everything it looks at, from any state of the
    cluster whatever -- so in particular from one left by reconciles stopped half-way and by other
    hands -- and the next one writes no object. */
module Convergence {
  import opened Objects
  import opened Drift
  import opened Tenants
  import opened ApiServer
  import opened Reconciler
  import Store = TenantStore

  ghost predicate Active(t: Tenant) { !t.deleting && FINALIZER in t.finalizers }

  ghost predicate SameTenant(a: Tenant, b: Tenant) {
    a.name == b.name && a.uid == b.uid && a.spec == b.spec && a.deleting == b.deleting && a.finalizers == b.finalizers
  }

  /** Present, and passing the needsUpdate check of its own kind. */
  ghost predicate Settled(s: Server, d: Desired) {
    d.key in s.objects && Acceptable(s.objects[d.key].obj, d.obj)
  }

  /** The objects of the first n actions are settled. */
  ghost predicate Provided(cfg: Config, s: Server, t: Tenant, n: nat)
    requires n <= 9
  {
    forall j | 0 <= j < n :: Plan(cfg, t)[j].Ensure? ==> Settled(s, Plan(cfg, t)[j].d)
  }

  // ---------------------------------------------------------------- the plan

  lemma PlanKeysDiffer(cfg: Config, t: Tenant, i: nat, j: nat)
    requires i < j < 9 && Plan(cfg, t)[i].Ensure? && Plan(cfg, t)[j].Ensure?
    ensures Plan(cfg, t)[i].d.key != Plan(cfg, t)[j].d.key
  {
    assert |"tenant-" + t.name + "-admin"| != |"tenant-" + t.name + "-operator"|;
    assert |"tenant-" + t.name + "-admin" + "-binding"| != |"tenant-" + t.name + "-operator" + "-binding"|;
  }

  /** Every object of the plan is accepted as soon as it is written, and lives in the tenant's namespace. */
  lemma PlanObject(cfg: Config, t: Tenant, i: nat)
    requires i < 9 && Plan(cfg, t)[i].Ensure?
    ensures var d := Plan(cfg, t)[i].d;
            && d.key.kind == d.obj.Kind()
            && Acceptable(d.obj, d.obj)
            && (i == 0 <==> d.key == NamespaceKey(NamespaceOf(t)))
            && (i > 0 ==> d.key.namespace == NamespaceOf(t) && d.key.kind != NamespaceKind)
  {
    var d := Plan(cfg, t)[i].d;
    assert DistinctUids(d.obj.meta.owners);
    WrittenIsKept(d.obj);
  }

  lemma PlanKinds(cfg: Config, t: Tenant)
    ensures forall i | 0 <= i < 9 && i != 1 && i != 6 :: Plan(cfg, t)[i].Ensure?
    ensures Plan(cfg, t)[1].Ensure? <==> KnownTier(t.spec.tier)
    ensures Plan(cfg, t)[1].Ensure? || Plan(cfg, t)[1].Panic?
    ensures Plan(cfg, t)[6].MarkActive?
  {
  }

  lemma PlanIgnoresStatus(cfg: Config, a: Tenant, b: Tenant)
    requires a.name == b.name && a.uid == b.uid && a.spec == b.spec
    ensures Plan(cfg, a) == Plan(cfg, b)
  {
  }

  // ---------------------------------------------------------------- convergence

  ghost predicate OnTrack(cfg: Config, goal: Tenant, w: World, pc: Pc) {
    && goal.name in w.server.tenants
    && SameTenant(w.server.tenants[goal.name], goal)
    && match pc
       case Start => true
       case Looking(t) => SameTenant(t, goal)
       case Inserting(t) => SameTenant(t, goal)
       case Refreshing(t) => SameTenant(t, goal)
       case Providing(t, i, a) =>
         && SameTenant(t, goal) && i < 9 && !a.Finished? && Provided(cfg, w.server, goal, i)
         && (i > 1 ==> KnownTier(goal.spec.tier))
       case Succeeded(requeue) => !requeue && Provided(cfg, w.server, goal, 9) && KnownTier(goal.spec.tier)
       case Broken => true
       case _ => false
  }

  /** One request of createOrUpdate either leaves the objects alone or writes the desired one. */
  lemma AttemptWritesOnlyItsKey(s: Server, view: Server, a: Attempt, d: Desired)
    ensures var (s', a') := AttemptStep(s, view, a, d);
            && s'.tenants == s.tenants
            && (s' == s || s' == Put(s, d))
            && (a'.Finished? && !a.Finished? && (a'.outcome.Created? || a'.outcome.Replaced?) ==> s' == Put(s, d))
  {
  }

  lemma ProvidedSurvives(cfg: Config, s: Server, t: Tenant, i: nat)
    requires i < 9 && Plan(cfg, t)[i].Ensure? && Provided(cfg, s, t, i)
    ensures Provided(cfg, Put(s, Plan(cfg, t)[i].d), t, i)
  {
    hide Plan, Acceptable;
    forall j | 0 <= j < i && Plan(cfg, t)[j].Ensure?
      ensures Settled(Put(s, Plan(cfg, t)[i].d), Plan(cfg, t)[j].d)
    {
      PlanKeysDiffer(cfg, t, j, i);
      assert Settled(s, Plan(cfg, t)[j].d);
    }
  }

  lemma AttemptSettles(s: Server, a: Attempt, d: Desired)
    requires Acceptable(d.obj, d.obj) && !a.Finished?
    ensures var (s', a') := AttemptStep(s, s, a, d);
            a'.Finished? && !a'.outcome.Failed? ==> Settled(s', d)
  {
    hide Acceptable;
  }

  lemma EnsureStepOnTrack(cfg: Config, goal: Tenant, w: World, t: Tenant, i: nat, a: Attempt)
    requires OnTrack(cfg, goal, w, Providing(t, i, a)) && Plan(cfg, goal)[i].Ensure?
    ensures var (w', pc') := ProvideStep(cfg, w, w.server, t, i, a); OnTrack(cfg, goal, w', pc')
  {
    hide Plan, Acceptable, AttemptStep, KnownTier;
    PlanIgnoresStatus(cfg, t, goal);
    PlanObject(cfg, goal, i);
    PlanKinds(cfg, goal);
    var d := Plan(cfg, goal)[i].d;
    var (s', a') := AttemptStep(w.server, w.server, a, d);
    AttemptWritesOnlyItsKey(w.server, w.server, a, d);
    AttemptSettles(w.server, a, d);
    ProvidedSurvives(cfg, w.server, goal, i);
    if a'.Finished? && !a'.outcome.Failed? {
      assert Provided(cfg, s', goal, i+1);
    }
  }

  lemma AdvanceOnTrack(cfg: Config, goal: Tenant, w: World, now: nat, pc: Pc)
    requires Active(goal) && OnTrack(cfg, goal, w, pc)
    ensures var (w', pc') := Advance(cfg, w, w.server, now, goal.name, pc); OnTrack(cfg, goal, w', pc')
  {
    hide Plan, Acceptable, AttemptStep, KnownTier;
    match pc
    case Providing(t, i, a) =>
      PlanIgnoresStatus(cfg, t, goal);
      PlanKinds(cfg, goal);
      if Plan(cfg, goal)[i].Ensure? {
        EnsureStepOnTrack(cfg, goal, w, t, i, a);
      }
    case _ =>
  }

  lemma {:induction false} AloneOnTrack(cfg: Config, goal: Tenant, w: World, nows: seq<nat>)
    requires Active(goal) && OnTrack(cfg, goal, w, Start)
    ensures var (w', pc') := Alone(cfg, w, goal.name, Start, nows); OnTrack(cfg, goal, w', pc')
  {
    if nows != [] {
      var before, now := nows[..|nows|-1], nows[|nows|-1];
      AloneOnTrack(cfg, goal, w, before);
      var (w', pc') := Alone(cfg, w, goal.name, Start, before);
      AdvanceOnTrack(cfg, goal, w', now, pc');
    }
  }

  /** From any world: all eight desired objects are present and settled after a successful reconcile. */
  lemma SuccessProvidesEverything(cfg: Config, w: World, goal: Tenant, w': World, requeue: bool)
    requires goal.name in w.server.tenants && w.server.tenants[goal.name] == goal && Active(goal)
    requires Reaches(cfg, w, goal.name, w', Succeeded(requeue))
    ensures KnownTier(goal.spec.tier) && !requeue
    ensures Provided(cfg, w'.server, goal, 9)
    ensures goal.name in w'.server.tenants && SameTenant(w'.server.tenants[goal.name], goal)
  {
    var nows :| Alone(cfg, w, goal.name, Start, nows) == (w', Succeeded(requeue));
    AloneOnTrack(cfg, goal, w, nows);
  }

  // ---------------------------------------------------------------- the next reconcile writes no object

  ghost predicate Quiet(cfg: Config, goal: Tenant, objects: map<Key, Stored>, w: World, pc: Pc) {
    && goal.name in w.server.tenants
    && SameTenant(w.server.tenants[goal.name], goal)
    && w.server.objects == objects
    && Provided(cfg, w.server, goal, 9)
    && match pc
       case Start => true
       case Looking(t) => SameTenant(t, goal)
       case Inserting(t) => SameTenant(t, goal)
       case Refreshing(t) => SameTenant(t, goal)
       case Providing(t, i, a) => SameTenant(t, goal) && i < 9 && (a.Creating? || a.Reading?)
       case Succeeded(_) => true
       case Broken => true
       case _ => false
  }

  lemma SettledAttemptIsQuiet(cfg: Config, goal: Tenant, s: Server, i: nat, a: Attempt)
    requires i < 9 && Plan(cfg, goal)[i].Ensure? && Provided(cfg, s, goal, 9) && (a.Creating? || a.Reading?)
    ensures var (s', a') := AttemptStep(s, s, a, Plan(cfg, goal)[i].d);
            s' == s && (a'.Reading? || (a'.Finished? && a'.outcome.LeftAlone?))
  {
    hide Plan, Acceptable;
    PlanKinds(cfg, goal);
    PlanObject(cfg, goal, i);
    PlanObject(cfg, goal, 0);
    assert Settled(s, Plan(cfg, goal)[0].d) && Settled(s, Plan(cfg, goal)[i].d);
  }

  lemma AdvanceIsQuiet(cfg: Config, goal: Tenant, objects: map<Key, Stored>, w: World, now: nat, pc: Pc)
    requires Active(goal) && Quiet(cfg, goal, objects, w, pc)
    ensures var (w', pc') := Advance(cfg, w, w.server, now, goal.name, pc); Quiet(cfg, goal, objects, w', pc')
  {
    hide Plan, Acceptable, AttemptStep, KnownTier;
    match pc
    case Providing(t, i, a) =>
      PlanIgnoresStatus(cfg, t, goal);
      PlanKinds(cfg, goal);
      if Plan(cfg, goal)[i].Ensure? {
        SettledAttemptIsQuiet(cfg, goal, w.server, i, a);
      }
    case _ =>
  }

  lemma {:induction false} AloneIsQuiet(cfg: Config, goal: Tenant, w: World, nows: seq<nat>)
    requires Active(goal) && Quiet(cfg, goal, w.server.objects, w, Start)
    ensures var (w', pc') := Alone(cfg, w, goal.name, Start, nows); Quiet(cfg, goal, w.server.objects, w', pc')
  {
    if nows != [] {
      var before, now := nows[..|nows|-1], nows[|nows|-1];
      AloneIsQuiet(cfg, goal, w, before);
      var (w', pc') := Alone(cfg, w, goal.name, Start, before);
      AdvanceIsQuiet(cfg, goal, w.server.objects, w', now, pc');
    }
  }

  /** Convergence: from any world, a successful reconcile provides everything, and however far the next
      one gets it leaves every object, resource version included, as it was. */
  lemma ReconcileConverges(cfg: Config, w: World, goal: Tenant, w': World, requeue: bool, w'': World, pc: Pc)
    requires goal.name in w.server.tenants && w.server.tenants[goal.name] == goal && Active(goal)
    requires Reaches(cfg, w, goal.name, w', Succeeded(requeue))
    requires Reaches(cfg, w', goal.name, w'', pc)
    ensures Provided(cfg, w'.server, goal, 9)
    ensures w''.server.objects == w'.server.objects
  {
    SuccessProvidesEverything(cfg, w, goal, w', requeue);
    var nows :| Alone(cfg, w', goal.name, Start, nows) == (w'', pc);
    AloneIsQuiet(cfg, goal, w', nows);
  }

  // ---------------------------------------------------------------- when a reconcile succeeds

  /** The store lets the reconcile through: its row is live and the new values fit, or the name belongs
      to some row already, or id and namespace are both free. */
  ghost predicate StorePasses(db: Store.Tables, t: Tenant) {
    if Store.Live(db, t.uid) then |t.spec.tier| <= 20 && |t.spec.ownerEmail| <= 255
    else
      && Store.FitsColumns(t.spec, t.status.namespace)
      && (Store.NameTaken(db, t.spec.name)
          || (t.uid !in db.tenants && !Store.NamespaceTaken(db, t.status.namespace)))
  }

  /** The row of the tenant once its reconcile is past the store: an existing one takes tier and e-mail and
      keeps name and namespace, a new one takes everything -- and none is made when the name is taken. */
  ghost function RowAfter(db: Store.Tables, t: Tenant): Option<Store.Record> {
    if Store.Live(db, t.uid) then
      Some(Store.Record(t.uid, db.tenants[t.uid].name, db.tenants[t.uid].namespace, t.spec.tier, t.spec.ownerEmail))
    else if Store.NameTaken(db, t.spec.name) then None
    else Some(Store.Record(t.uid, t.spec.name, t.status.namespace, t.spec.tier, t.spec.ownerEmail))
  }

  ghost predicate StoreTrack(goal: Tenant, w0: World, w: World, pc: Pc) {
    match pc
    case Start => w == w0
    case Looking(t) => w == w0 && t == goal
    case Inserting(t) => w == w0 && t == goal && !Store.Live(w0.db, goal.uid)
    case Refreshing(t) => w == w0 && t == goal && Store.Live(w0.db, goal.uid)
    case Providing(t, i, a) =>
      && t == goal && i < 9 && !a.Finished? && (i <= 6 ==> w.server.tenants == w0.server.tenants)
      && StorePasses(w0.db, goal) && Store.GetByID(w.db, goal.uid) == RowAfter(w0.db, goal)
    case Succeeded(_) => StorePasses(w0.db, goal) && Store.GetByID(w.db, goal.uid) == RowAfter(w0.db, goal)
    case Broken => true
    case _ => false
  }

  lemma ProvideOnStoreTrack(cfg: Config, goal: Tenant, w0: World, w: World, i: nat, a: Attempt)
    requires StoreTrack(goal, w0, w, Providing(goal, i, a))
    ensures var (w', pc') := ProvideStep(cfg, w, w.server, goal, i, a); StoreTrack(goal, w0, w', pc')
  {
    hide Plan, Acceptable, StorePasses, RowAfter, AttemptStep;
    PlanKinds(cfg, goal);
    if Plan(cfg, goal)[i].Ensure? {
      AttemptWritesOnlyItsKey(w.server, w.server, a, Plan(cfg, goal)[i].d);
    }
  }

  lemma {:induction false} AloneOnStoreTrack(cfg: Config, goal: Tenant, w: World, nows: seq<nat>)
    requires goal.name in w.server.tenants && w.server.tenants[goal.name] == goal && Active(goal)
    ensures var (w', pc') := Alone(cfg, w, goal.name, Start, nows); StoreTrack(goal, w, w', pc')
  {
    hide ProvideStep;
    if nows != [] {
      AloneOnStoreTrack(cfg, goal, w, nows[..|nows|-1]);
      var (w', pc') := Alone(cfg, w, goal.name, Start, nows[..|nows|-1]);
      if pc'.Providing? {
        ProvideOnStoreTrack(cfg, goal, w, w', pc'.i, pc'.a);
      }
    }
  }

  /** A reconcile can succeed without the tenant having a row: it has one afterwards exactly when it had one
      before or its name was free.  The row then holds the current tier and e-mail, but still the name and
      namespace it was first made with. */
  lemma SuccessRecordsTenantIff(cfg: Config, w: World, goal: Tenant, w': World, requeue: bool)
    requires goal.name in w.server.tenants && w.server.tenants[goal.name] == goal && Active(goal)
    requires Reaches(cfg, w, goal.name, w', Succeeded(requeue))
    ensures Store.Live(w'.db, goal.uid) <==> Store.Live(w.db, goal.uid) || !Store.NameTaken(w.db, goal.spec.name)
    ensures Store.GetByID(w'.db, goal.uid) == RowAfter(w.db, goal)
  {
    var nows :| Alone(cfg, w, goal.name, Start, nows) == (w', Succeeded(requeue));
    AloneOnStoreTrack(cfg, goal, w, nows);
  }

  /** An attempt that nobody interfered with so far. */
  ghost predicate Fresh(s: Server, d: Desired, a: Attempt) {
    a.Creating? || (d.key in s.objects && (a.Reading? || a == Writing(s.objects[d.key])))
  }

  /** One request of createOrUpdate, on a fresh cache and in an existing namespace, never fails. */
  lemma FreshAttemptAdvances(s: Server, a: Attempt, d: Desired)
    requires d.key.kind == NamespaceKind || NamespaceKey(d.key.namespace) in s.objects
    requires Fresh(s, d, a)
    ensures var (s', a') := AttemptStep(s, s, a, d);
            && (if a'.Finished? then !a'.outcome.Failed? else s' == s && Fresh(s', d, a'))
            && (a.Creating? ==> a'.Finished? || a'.Reading?)
            && (a.Reading? ==> a'.Finished? || a'.Writing?)
            && (a.Writing? ==> a'.Finished?)
  {
  }

  lemma NamespaceIsThere(cfg: Config, goal: Tenant, s: Server, i: nat)
    requires i < 9 && Plan(cfg, goal)[i].Ensure? && Provided(cfg, s, goal, i)
    ensures var d := Plan(cfg, goal)[i].d; d.key.kind == NamespaceKind || NamespaceKey(d.key.namespace) in s.objects
  {
    hide Plan;
    PlanKinds(cfg, goal);
    PlanObject(cfg, goal, i);
    if i > 0 {
      PlanObject(cfg, goal, 0);
      assert Settled(s, Plan(cfg, goal)[0].d);
    }
  }

  // ---------------------------------------------------------------- and only then does it fail

  ghost predicate SureTrack(cfg: Config, goal: Tenant, w0: World, w: World, pc: Pc) {
    && OnTrack(cfg, goal, w, pc) && StoreTrack(goal, w0, w, pc)
    && (pc.Providing? && Plan(cfg, goal)[pc.i].Ensure? ==> Fresh(w.server, Plan(cfg, goal)[pc.i].d, pc.a))
    && (pc.Broken? ==> !(KnownTier(goal.spec.tier) && StorePasses(w0.db, goal)))
  }

  lemma ProvideIsSure(cfg: Config, goal: Tenant, w0: World, w: World, i: nat, a: Attempt)
    requires w0.server.tenants == w.server.tenants || i > 6
    requires SureTrack(cfg, goal, w0, w, Providing(goal, i, a))
    requires goal.name in w0.server.tenants && w0.server.tenants[goal.name] == goal
    ensures var (w', pc') := ProvideStep(cfg, w, w.server, goal, i, a);
            && (pc'.Providing? && pc'.i < 9 && Plan(cfg, goal)[pc'.i].Ensure? ==>
                  Fresh(w'.server, Plan(cfg, goal)[pc'.i].d, pc'.a))
            && (pc'.Broken? ==> !KnownTier(goal.spec.tier))
  {
    hide Plan, Acceptable, AttemptStep, StorePasses, RowAfter, KnownTier, Provided;
    PlanKinds(cfg, goal);
    if Plan(cfg, goal)[i].Ensure? {
      NamespaceIsThere(cfg, goal, w.server, i);
      FreshAttemptAdvances(w.server, a, Plan(cfg, goal)[i].d);
    }
  }

  lemma {:induction false} AloneIsSure(cfg: Config, goal: Tenant, w: World, nows: seq<nat>)
    requires goal.name in w.server.tenants && w.server.tenants[goal.name] == goal && Active(goal)
    ensures var (w', pc') := Alone(cfg, w, goal.name, Start, nows); SureTrack(cfg, goal, w, w', pc')
  {
    AloneOnTrack(cfg, goal, w, nows);
    AloneOnStoreTrack(cfg, goal, w, nows);
    if nows != [] {
      AloneIsSure(cfg, goal, w, nows[..|nows|-1]);
      var (w', pc') := Alone(cfg, w, goal.name, Start, nows[..|nows|-1]);
      hide ProvideStep, Plan, OnTrack, Provided, RowAfter;
      if pc'.Providing? {
        ProvideIsSure(cfg, goal, w, w', pc'.i, pc'.a);
      }
    }
  }

  /** Left to itself a reconcile of an active tenant breaks only where it can never succeed. */
  lemma ReconcileBreaksOnlyIf(cfg: Config, w: World, goal: Tenant, w': World)
    requires goal.name in w.server.tenants && w.server.tenants[goal.name] == goal && Active(goal)
    requires Reaches(cfg, w, goal.name, w', Broken)
    ensures !(KnownTier(goal.spec.tier) && StorePasses(w.db, goal))
  {
    var nows :| Alone(cfg, w, goal.name, Start, nows) == (w', Broken);
    AloneIsSure(cfg, goal, w, nows);
  }

  lemma EnsureGoesOnward(cfg: Config, goal: Tenant, w0: World, w: World, i: nat) returns (w': World)
    requires Active(goal) && i < 9 && Plan(cfg, goal)[i].Ensure?
    requires Reaches(cfg, w0, goal.name, w, Providing(goal, i, Creating))
    requires OnTrack(cfg, goal, w, Providing(goal, i, Creating))
    ensures Reaches(cfg, w0, goal.name, w', Onward(goal, i+1))
    ensures w'.server.tenants == w.server.tenants && OnTrack(cfg, goal, w', Onward(goal, i+1))
    ensures forall k | k in w'.server.objects :: k in w.server.objects || k == Plan(cfg, goal)[i].d.key
  {
    var d := Plan(cfg, goal)[i].d;
    NamespaceIsThere(cfg, goal, w.server, i);
    w' := AttemptGoesOnward(cfg, goal, w0, w, i, d, Creating, 3);
  }

  lemma {:induction false} AttemptGoesOnward(cfg: Config, goal: Tenant, w0: World, w: World, i: nat, d: Desired,
                                             a: Attempt, left: nat) returns (w': World)
    requires Active(goal) && i < 9 && Plan(cfg, goal)[i] == Ensure(d)
    requires d.key.kind == NamespaceKind || NamespaceKey(d.key.namespace) in w.server.objects
    requires left == (if a.Creating? then 3 else if a.Reading? then 2 else 1)
    requires Fresh(w.server, d, a)
    requires Reaches(cfg, w0, goal.name, w, Providing(goal, i, a)) && OnTrack(cfg, goal, w, Providing(goal, i, a))
    ensures Reaches(cfg, w0, goal.name, w', Onward(goal, i+1))
    ensures w'.server.tenants == w.server.tenants && OnTrack(cfg, goal, w', Onward(goal, i+1))
    ensures forall k | k in w'.server.objects :: k in w.server.objects || k == d.key
    decreases left
  {
    hide Plan, OnTrack, AttemptStep;
    var pc := Providing(goal, i, a);
    LeadsStep(cfg, goal.name, w0, Start, w, pc, 0);
    AdvanceOnTrack(cfg, goal, w, 0, pc);
    FreshAttemptAdvances(w.server, a, d);
    AttemptWritesOnlyItsKey(w.server, w.server, a, d);
    var (s', a') := AttemptStep(w.server, w.server, a, d);
    w' := w.(server := s');
    if !a'.Finished? {
      assert w' == w;
      w' := AttemptGoesOnward(cfg, goal, w0, w, i, d, a', left - 1);
    }
  }

  /** The goal, as read, is still what the server stores: until the status write, and with it the phase after. */
  ghost predicate StatusWritten(goal: Tenant, w0: World, w: World, i: nat) {
    if i <= 6 then w.server.tenants == w0.server.tenants
    else goal.name in w.server.tenants && w.server.tenants[goal.name].status == Status("Active", NamespaceOf(goal))
  }

  lemma MarkActiveGoesOnward(cfg: Config, goal: Tenant, w0: World, w: World) returns (w': World)
    requires Active(goal) && goal.name in w0.server.tenants && w0.server.tenants[goal.name] == goal
    requires Reaches(cfg, w0, goal.name, w, Onward(goal, 6)) && OnTrack(cfg, goal, w, Onward(goal, 6))
    requires StatusWritten(goal, w0, w, 6)
    ensures Reaches(cfg, w0, goal.name, w', Onward(goal, 7)) && OnTrack(cfg, goal, w', Onward(goal, 7))
    ensures StatusWritten(goal, w0, w', 7) && w'.server.objects == w.server.objects
  {
    hide Plan, Acceptable, Provided, NamespaceOf;
    PlanKinds(cfg, goal);
    LeadsStep(cfg, goal.name, w0, Start, w, Providing(goal, 6, Creating), 0);
    AdvanceOnTrack(cfg, goal, w, 0, Providing(goal, 6, Creating));
    w' := Advance(cfg, w, w.server, 0, goal.name, Providing(goal, 6, Creating)).0;
  }

  /** From action i the plan goes through to action n, and creates nothing but its own objects. */
  lemma {:induction false} PlanRunsTo(cfg: Config, goal: Tenant, w0: World, w: World, i: nat, n: nat, absent: set<Key>)
    returns (w': World)
    requires Active(goal) && KnownTier(goal.spec.tier) && i <= n <= 9
    requires goal.name in w0.server.tenants && w0.server.tenants[goal.name] == goal
    requires Reaches(cfg, w0, goal.name, w, Onward(goal, i)) && OnTrack(cfg, goal, w, Onward(goal, i))
    requires StatusWritten(goal, w0, w, i) && absent !! w.server.objects.Keys
    requires forall j | i <= j < n && Plan(cfg, goal)[j].Ensure? :: Plan(cfg, goal)[j].d.key !in absent
    ensures Reaches(cfg, w0, goal.name, w', Onward(goal, n))
    ensures StatusWritten(goal, w0, w', n) && absent !! w'.server.objects.Keys
    decreases n - i
  {
    hide Plan, Acceptable, OnTrack, Advance, NamespaceOf;
    PlanKinds(cfg, goal);
    if i == n {
      return w;
    }
    var w1: World;
    if i == 6 {
      w1 := MarkActiveGoesOnward(cfg, goal, w0, w);
    } else {
      w1 := EnsureGoesOnward(cfg, goal, w0, w, i);
    }
    w' := PlanRunsTo(cfg, goal, w0, w1, i+1, n, absent);
  }

  lemma StoreStepRuns(cfg: Config, w: World, goal: Tenant) returns (w': World)
    requires goal.name in w.server.tenants && w.server.tenants[goal.name] == goal && Active(goal)
    requires StorePasses(w.db, goal)
    ensures Reaches(cfg, w, goal.name, w', Onward(goal, 0)) && OnTrack(cfg, goal, w', Onward(goal, 0))
    ensures w'.server == w.server
  {
    hide Plan;
    LeadsNowhere(cfg, goal.name, w, Start);
    LeadsStep(cfg, goal.name, w, Start, w, Start, 0);
    LeadsStep(cfg, goal.name, w, Start, w, Looking(goal), 0);
    var pc := if Store.Live(w.db, goal.uid) then Refreshing(goal) else Inserting(goal);
    LeadsStep(cfg, goal.name, w, Start, w, pc, 0);
    AdvanceOnTrack(cfg, goal, w, 0, pc);
    w' := Advance(cfg, w, w.server, 0, goal.name, pc).0;
  }

  /** Left to itself on an up-to-date cache, a reconcile of an active tenant can succeed exactly when the
      tier is a known one and the store lets it through. */
  lemma ReconcileSucceedsIff(cfg: Config, w: World, goal: Tenant)
    requires goal.name in w.server.tenants && w.server.tenants[goal.name] == goal && Active(goal)
    ensures (exists w', requeue :: Reaches(cfg, w, goal.name, w', Succeeded(requeue)))
            <==> KnownTier(goal.spec.tier) && StorePasses(w.db, goal)
  {
    if w', requeue :| Reaches(cfg, w, goal.name, w', Succeeded(requeue)) {
      SuccessProvidesEverything(cfg, w, goal, w', requeue);
      var nows :| Alone(cfg, w, goal.name, Start, nows) == (w', Succeeded(requeue));
      AloneOnStoreTrack(cfg, goal, w, nows);
    }
    if KnownTier(goal.spec.tier) && StorePasses(w.db, goal) {
      var w1 := StoreStepRuns(cfg, w, goal);
      var w' := PlanRunsTo(cfg, goal, w, w1, 0, 9, {});
    }
  }

  /** The column of the namespace is unique and holds "" until a status was written: once one tenant's
      first reconcile stored "", no other tenant's first reconcile can ever succeed, whatever else the
      store sees short of a hard delete -- unless its name gets a row from elsewhere. */
  lemma FirstReconcileHappensOnce(cfg: Config, db: Store.Tables, ops: seq<Store.Timed>, w: World, goal: Tenant)
    requires Store.NamespaceTaken(db, "") && Store.NoHardDelete(ops) && w.db == Store.Run(db, ops)
    requires goal.name in w.server.tenants && w.server.tenants[goal.name] == goal && Active(goal)
    requires goal.status.namespace == "" && !Store.Live(w.db, goal.uid) && !Store.NameTaken(w.db, goal.spec.name)
    ensures !exists w', requeue :: Reaches(cfg, w, goal.name, w', Succeeded(requeue))
  {
    ReconcileSucceedsIff(cfg, w, goal);
    Store.RunEvolves(db, ops);
    var holder :| holder in db.tenants && db.tenants[holder].namespace == "";
    assert holder in w.db.tenants;
  }

  // ---------------------------------------------------------------- Active before isolated

  ghost predicate SaysActive(s: Server, name: string) { name in s.tenants && s.tenants[name].status.phase == "Active" }

  /** The two objects that come after the status write. */
  ghost predicate Isolated(cfg: Config, goal: Tenant, s: Server) {
    BuildNetworkPolicy(cfg, goal).key in s.objects && BuildLimitRange(cfg, goal).key in s.objects
  }

  /** No step removes an object, and none writes a tenant unless the reconcile gets past tier and store. */
  lemma {:induction false} AloneKeepsKeys(cfg: Config, goal: Tenant, w: World, nows: seq<nat>)
    requires goal.name in w.server.tenants && w.server.tenants[goal.name] == goal && Active(goal)
    ensures var w' := Alone(cfg, w, goal.name, Start, nows).0;
            && w.server.objects.Keys <= w'.server.objects.Keys
            && (w'.server.tenants == w.server.tenants || (KnownTier(goal.spec.tier) && StorePasses(w.db, goal)))
  {
    hide Plan, Acceptable, StorePasses, RowAfter, AttemptStep, KnownTier, Provided;
    if nows != [] {
      var before := nows[..|nows|-1];
      AloneKeepsKeys(cfg, goal, w, before);
      AloneOnTrack(cfg, goal, w, before);
      AloneOnStoreTrack(cfg, goal, w, before);
      PlanKinds(cfg, goal);
      var (w', pc') := Alone(cfg, w, goal.name, Start, before);
      if pc'.Providing? && Plan(cfg, goal)[pc'.i].Ensure? {
        AttemptWritesOnlyItsKey(w'.server, w'.server, pc'.a, Plan(cfg, goal)[pc'.i].d);
      }
    }
  }

  /** Stopped between the status write and what comes after it. */
  lemma ActiveBeforeIsolated(cfg: Config, w: World, goal: Tenant) returns (w': World)
    requires goal.name in w.server.tenants && w.server.tenants[goal.name] == goal && Active(goal)
    requires KnownTier(goal.spec.tier) && StorePasses(w.db, goal) && !Isolated(cfg, goal, w.server)
    ensures Reaches(cfg, w, goal.name, w', Onward(goal, 7))
    ensures SaysActive(w'.server, goal.name) && !Isolated(cfg, goal, w'.server)
  {
    var late := {BuildNetworkPolicy(cfg, goal).key, BuildLimitRange(cfg, goal).key} - w.server.objects.Keys;
    forall j | 0 <= j < 7 && Plan(cfg, goal)[j].Ensure? ensures Plan(cfg, goal)[j].d.key !in late {
      PlanKeysDiffer(cfg, goal, j, 7);
      PlanKeysDiffer(cfg, goal, j, 8);
    }
    hide Plan;
    var w1 := StoreStepRuns(cfg, w, goal);
    w' := PlanRunsTo(cfg, goal, w, w1, 0, 7, late);
  }

  /** Wherever a reconcile stops, a tenant reported Active has network policy and limit range: this holds
      exactly when both were there before, or the tenant is not Active and its reconcile cannot get as far as
      making it so. */
  lemma ActiveMeansIsolatedIff(cfg: Config, w: World, goal: Tenant)
    requires goal.name in w.server.tenants && w.server.tenants[goal.name] == goal && Active(goal)
    ensures (forall w', pc :: Reaches(cfg, w, goal.name, w', pc) && SaysActive(w'.server, goal.name)
                              ==> Isolated(cfg, goal, w'.server))
            <==> Isolated(cfg, goal, w.server)
                 || (goal.status.phase != "Active" && !(KnownTier(goal.spec.tier) && StorePasses(w.db, goal)))
  {
    hide StorePasses, KnownTier, BuildNetworkPolicy, BuildLimitRange;
    forall w', pc | Reaches(cfg, w, goal.name, w', pc)
      ensures w.server.objects.Keys <= w'.server.objects.Keys
      ensures w'.server.tenants == w.server.tenants || (KnownTier(goal.spec.tier) && StorePasses(w.db, goal))
    {
      var nows :| Alone(cfg, w, goal.name, Start, nows) == (w', pc);
      AloneKeepsKeys(cfg, goal, w, nows);
    }
    if !Isolated(cfg, goal, w.server) {
      if goal.status.phase == "Active" {
        LeadsNowhere(cfg, goal.name, w, Start);
        assert Reaches(cfg, w, goal.name, w, Start);
      } else if KnownTier(goal.spec.tier) && StorePasses(w.db, goal) {
        var w' := ActiveBeforeIsolated(cfg, w, goal);
        assert Reaches(cfg, w, goal.name, w', Onward(goal, 7));
      }
    }
  }

  /** What the phase does vouch for: the six objects before it in the plan, and the name of the namespace. */
  ghost predicate Announced(cfg: Config, goal: Tenant, w0: World, w: World) {
    || w.server.tenants == w0.server.tenants
    || (Provided(cfg, w.server, goal, 6) && goal.name in w.server.tenants
        && w.server.tenants[goal.name].status == Status("Active", "tenant-" + goal.name + "-" + goal.spec.name))
  }

  lemma ProvideAnnounces(cfg: Config, goal: Tenant, w0: World, w: World, i: nat, a: Attempt)
    requires Active(goal) && OnTrack(cfg, goal, w, Providing(goal, i, a)) && Announced(cfg, goal, w0, w)
    requires i <= 6 ==> w.server.tenants == w0.server.tenants
    ensures Announced(cfg, goal, w0, ProvideStep(cfg, w, w.server, goal, i, a).0)
  {
    hide Plan, Acceptable, AttemptStep, KnownTier;
    PlanKinds(cfg, goal);
    if Plan(cfg, goal)[i].Ensure? {
      AttemptWritesOnlyItsKey(w.server, w.server, a, Plan(cfg, goal)[i].d);
      ProvidedSurvives(cfg, w.server, goal, i);
      assert Provided(cfg, Put(w.server, Plan(cfg, goal)[i].d), goal, i);
    }
  }

  lemma {:induction false} AloneAnnounces(cfg: Config, goal: Tenant, w: World, nows: seq<nat>)
    requires goal.name in w.server.tenants && w.server.tenants[goal.name] == goal && Active(goal)
    ensures Announced(cfg, goal, w, Alone(cfg, w, goal.name, Start, nows).0)
  {
    hide ProvideStep, Plan, RowAfter, StorePasses, Provided;
    if nows != [] {
      var before := nows[..|nows|-1];
      AloneAnnounces(cfg, goal, w, before);
      AloneOnTrack(cfg, goal, w, before);
      AloneOnStoreTrack(cfg, goal, w, before);
      var (w', pc') := Alone(cfg, w, goal.name, Start, before);
      if pc'.Providing? {
        ProvideAnnounces(cfg, goal, w, w', pc'.i, pc'.a);
      }
    }
  }

  /** Wherever a reconcile stops: if the phase has become Active, namespace, quota, roles and bindings are
      there and accepted, and the status names the namespace. */
  lemma ActiveMeansProvided(cfg: Config, w: World, goal: Tenant, w': World, pc: Pc)
    requires goal.name in w.server.tenants && w.server.tenants[goal.name] == goal && Active(goal)
    requires Reaches(cfg, w, goal.name, w', pc)
    requires SaysActive(w'.server, goal.name) && !SaysActive(w.server, goal.name)
    ensures Provided(cfg, w'.server, goal, 6)
    ensures w'.server.tenants[goal.name].status.namespace == "tenant-" + goal.name + "-" + goal.spec.name
  {
    var nows :| Alone(cfg, w, goal.name, Start, nows) == (w', pc);
    AloneAnnounces(cfg, goal, w, nows);
  }

  // ---------------------------------------------------------------- two tenants, one namespace

  lemma OnlyOwner(current: seq<OwnerRef>, r: OwnerRef)
    requires OwnersKept(current, [r])
    ensures current == [r]
  {
    assert [r][0] == r && FirstWithUid(current, r.uid) == [r];
    assert FirstWithUid(current[1..], r.uid) == [];
  }

  /** After a successful reconcile the objects whose metadata is compared belong to the tenant alone. */
  lemma OwnersAreExact(cfg: Config, w: World, goal: Tenant, w': World, requeue: bool, i: nat)
    requires goal.name in w.server.tenants && w.server.tenants[goal.name] == goal && Active(goal)
    requires Reaches(cfg, w, goal.name, w', Succeeded(requeue)) && i < 6
    ensures Plan(cfg, goal)[i].Ensure? && Plan(cfg, goal)[i].d.key in w'.server.objects
    ensures w'.server.objects[Plan(cfg, goal)[i].d.key].obj.meta.owners
            == [OwnerRef("multitenant.k8s-mtp.io/v1", "Tenant", goal.name, goal.uid)]
  {
    SuccessProvidesEverything(cfg, w, goal, w', requeue);
    PlanKinds(cfg, goal);
    var d := Plan(cfg, goal)[i].d;
    PlanOwners(cfg, goal, i);
    hide Plan, Reaches;
    assert Settled(w'.server, d);
    hide MapKept, OwnersKept, RulesKept, SubjectsKept;
    OnlyOwner(w'.server.objects[d.key].obj.meta.owners, d.obj.meta.owners[0]);
  }

  lemma PlanOwners(cfg: Config, t: Tenant, i: nat)
    requires i < 6 && Plan(cfg, t)[i].Ensure?
    ensures var o := Plan(cfg, t)[i].d.obj;
            && o.meta.owners == [OwnerRef("multitenant.k8s-mtp.io/v1", "Tenant", t.name, t.uid)]
            && !o.NetworkPolicy? && !o.LimitRange?
  {
    hide AdminRules, OperatorRules, NamespaceOf;
  }

  /** The owner list of a namespace can match only one tenant. */
  lemma SharedNamespaceNeverSettles(cfg: Config, s: Server, a: Tenant, b: Tenant)
    requires NamespaceOf(a) == NamespaceOf(b) && (a.uid != b.uid || a.name != b.name)
    ensures !(Provided(cfg, s, a, 9) && Provided(cfg, s, b, 9))
  {
    if Provided(cfg, s, a, 9) && Provided(cfg, s, b, 9) {
      assert Plan(cfg, a)[0] == Ensure(BuildNamespace(a)) && Plan(cfg, b)[0] == Ensure(BuildNamespace(b));
      assert Settled(s, BuildNamespace(a)) && Settled(s, BuildNamespace(b));
      var owners := s.objects[NamespaceKey(NamespaceOf(a))].obj.meta.owners;
      OnlyOwner(owners, OwnerRef("multitenant.k8s-mtp.io/v1", "Tenant", a.name, a.uid));
      OnlyOwner(owners, OwnerRef("multitenant.k8s-mtp.io/v1", "Tenant", b.name, b.uid));
    }
  }

  /** So each successful reconcile of one takes the namespace away from the other. */
  lemma ReconcilesUndoEachOther(cfg: Config, w: World, a: Tenant, b: Tenant, w': World, requeue: bool)
    requires NamespaceOf(a) == NamespaceOf(b) && (a.uid != b.uid || a.name != b.name)
    requires a.name in w.server.tenants && w.server.tenants[a.name] == a && Active(a)
    requires Reaches(cfg, w, a.name, w', Succeeded(requeue))
    ensures Provided(cfg, w'.server, a, 9) && !Provided(cfg, w'.server, b, 9)
  {
    SuccessProvidesEverything(cfg, w, a, w', requeue);
    SharedNamespaceNeverSettles(cfg, w'.server, a, b);
  }

  // ---------------------------------------------------------------- the two ends of a tenant's life

  /** What a reconcile of a deleting tenant is for: the row is no longer live, the other finalizers are
      kept, and the tenant is gone when there are none. */
  ghost predicate Departed(goal: Tenant, w0: World, w: World) {
    var others := Without(goal.finalizers, FINALIZER);
    && !Store.Live(w.db, goal.uid) && Store.SameElsewhere(w0.db, w.db, goal.uid)
    && w.server.objects == w0.server.objects
    && (goal.name in w.server.tenants <==> others != [])
    && (others != [] ==> w.server.tenants[goal.name].finalizers == others && w.server.tenants[goal.name].deleting)
  }

  /** What a reconcile of a tenant without the finalizer is for: it gets it, after the ones it had. */
  ghost predicate Claimed(goal: Tenant, w0: World, w: World) {
    && w.db == w0.db && w.server.objects == w0.server.objects
    && goal.name in w.server.tenants
    && SameTenant(w.server.tenants[goal.name], goal.(finalizers := goal.finalizers + [FINALIZER]))
  }

  ghost predicate EndTrack(goal: Tenant, w0: World, w: World, pc: Pc) {
    match pc
    case Start => w == w0
    case Purging(t) => w == w0 && t == goal && goal.deleting
    case Releasing(t) =>
      && w.server == w0.server && t == goal && goal.deleting
      && !Store.Live(w.db, goal.uid) && Store.SameElsewhere(w0.db, w.db, goal.uid)
    case Claiming(t) => w == w0 && t == goal && !goal.deleting
    case Succeeded(requeue) =>
      requeue == !goal.deleting && if goal.deleting then Departed(goal, w0, w) else Claimed(goal, w0, w)
    case Broken => false
    case _ => false
  }

  lemma {:induction false} AloneOnEndTrack(cfg: Config, goal: Tenant, w: World, nows: seq<nat>)
    requires goal.name in w.server.tenants && w.server.tenants[goal.name] == goal
    requires goal.deleting || FINALIZER !in goal.finalizers
    ensures var (w', pc') := Alone(cfg, w, goal.name, Start, nows); EndTrack(goal, w, w', pc')
  {
    hide ProvideStep, Without, Store.SameElsewhere;
    if nows != [] {
      AloneOnEndTrack(cfg, goal, w, nows[..|nows|-1]);
      Store.ApplyIsLocal(w.db, Store.Timed(nows[|nows|-1], Store.DeleteOp(goal.uid)));
    }
  }

  /** A reconcile of a tenant that is not active makes it active, or takes it out of the world; it touches
      no owned object either way, and left to itself it does not break. */
  lemma InactiveTenantsMoveOn(cfg: Config, w: World, goal: Tenant, w': World, pc: Pc)
    requires goal.name in w.server.tenants && w.server.tenants[goal.name] == goal && !Active(goal)
    requires Reaches(cfg, w, goal.name, w', pc)
    ensures !pc.Broken?
    ensures pc.Succeeded? ==> pc.requeue == !goal.deleting
    ensures pc.Succeeded? && goal.deleting ==> Departed(goal, w, w')
    ensures pc.Succeeded? && !goal.deleting ==> Claimed(goal, w, w') && Active(w'.server.tenants[goal.name])
  {
    var nows :| Alone(cfg, w, goal.name, Start, nows) == (w', pc);
    AloneOnEndTrack(cfg, goal, w, nows);
  }

  lemma {:induction false} AloneOnAbsent(cfg: Config, w: World, name: string, nows: seq<nat>)
    requires name !in w.server.tenants
    ensures var (w', pc) := Alone(cfg, w, name, Start, nows); w' == w && (pc == Start || pc == Succeeded(false))
  {
    if nows != [] {
      AloneOnAbsent(cfg, w, name, nows[..|nows|-1]);
    }
  }

  /** For a tenant that is not there, nothing is done and no further round asked for. */
  lemma AbsentTenantIsLeftAlone(cfg: Config, w: World, name: string, w': World, requeue: bool)
    requires name !in w.server.tenants && Reaches(cfg, w, name, w', Succeeded(requeue))
    ensures !requeue && w' == w
  {
    var nows :| Alone(cfg, w, name, Start, nows) == (w', Succeeded(requeue));
    AloneOnAbsent(cfg, w, name, nows);
  }

  // ---------------------------------------------------------------- one tenant at a time

  ghost predicate HoldsCopy(pc: Pc, goal: Tenant) {
    match pc
    case Purging(t) => t.name == goal.name && t.uid == goal.uid
    case Releasing(t) => t.name == goal.name && t.uid == goal.uid
    case Claiming(t) => t.name == goal.name && t.uid == goal.uid
    case Looking(t) => t.name == goal.name && t.uid == goal.uid
    case Inserting(t) => t.name == goal.name && t.uid == goal.uid
    case Refreshing(t) => t.name == goal.name && t.uid == goal.uid
    case Providing(t, _, _) => t.name == goal.name && t.uid == goal.uid
    case _ => true
  }

  ghost predicate OneResource(goal: Tenant, a: Server, b: Server) {
    && (forall n | n != goal.name :: (n in b.tenants <==> n in a.tenants)
                                     && (n in b.tenants ==> b.tenants[n] == a.tenants[n]))
    && (goal.name in b.tenants ==> b.tenants[goal.name].name == goal.name && b.tenants[goal.name].uid == goal.uid)
  }

  ghost predicate OneTenant(goal: Tenant, w0: World, w: World) {
    Store.SameElsewhere(w0.db, w.db, goal.uid) && OneResource(goal, w0.server, w.server)
  }

  lemma AdvanceKeepsOneRow(cfg: Config, goal: Tenant, w: World, now: nat, pc: Pc)
    requires HoldsCopy(pc, goal)
    ensures Store.SameElsewhere(w.db, Advance(cfg, w, w.server, now, goal.name, pc).0.db, goal.uid)
  {
    hide Plan, Acceptable, AttemptStep, Store.SameElsewhere, Without, NamespaceOf;
    Store.ApplyIsLocal(w.db, Store.Timed(now, Store.DeleteOp(goal.uid)));
    if pc.Inserting? {
      Store.ApplyIsLocal(w.db, Store.Timed(now, Store.CreateOp(goal.uid, pc.t.spec, pc.t.status.namespace)));
    } else if pc.Refreshing? {
      Store.ApplyIsLocal(w.db, Store.Timed(now, Store.UpdateOp(goal.uid, pc.t.spec)));
    }
  }

  lemma AdvanceKeepsOneResource(cfg: Config, goal: Tenant, s0: Server, w: World, now: nat, pc: Pc)
    requires OneResource(goal, s0, w.server) && HoldsCopy(pc, goal)
    ensures var (w', pc') := Advance(cfg, w, w.server, now, goal.name, pc);
            OneResource(goal, s0, w'.server) && HoldsCopy(pc', goal)
  {
    hide Plan, Acceptable, AttemptStep, Without, NamespaceOf, Store.Insert, Store.Refresh, Store.SoftDelete;
    if pc.Providing? && pc.i < 9 && Plan(cfg, pc.t)[pc.i].Ensure? {
      AttemptWritesOnlyItsKey(w.server, w.server, pc.a, Plan(cfg, pc.t)[pc.i].d);
    }
  }

  lemma AdvanceKeepsOneTenant(cfg: Config, goal: Tenant, w0: World, w: World, now: nat, pc: Pc)
    requires OneTenant(goal, w0, w) && HoldsCopy(pc, goal)
    ensures var (w', pc') := Advance(cfg, w, w.server, now, goal.name, pc);
            OneTenant(goal, w0, w') && HoldsCopy(pc', goal)
  {
    hide Advance, Store.SameElsewhere, OneResource, HoldsCopy;
    AdvanceKeepsOneRow(cfg, goal, w, now, pc);
    AdvanceKeepsOneResource(cfg, goal, w0.server, w, now, pc);
    Store.SameElsewhereAddsUp(w0.db, w.db, Advance(cfg, w, w.server, now, goal.name, pc).0.db, goal.uid);
  }

  lemma {:induction false} AloneKeepsOneTenant(cfg: Config, goal: Tenant, w: World, nows: seq<nat>)
    requires goal.name in w.server.tenants && w.server.tenants[goal.name] == goal
    ensures var (w', pc') := Alone(cfg, w, goal.name, Start, nows); OneTenant(goal, w, w') && HoldsCopy(pc', goal)
  {
    hide Advance;
    if nows != [] {
      AloneKeepsOneTenant(cfg, goal, w, nows[..|nows|-1]);
      var (w', pc') := Alone(cfg, w, goal.name, Start, nows[..|nows|-1]);
      AdvanceKeepsOneTenant(cfg, goal, w, w', nows[|nows|-1], pc');
    }
  }

  /** Wherever a reconcile stops, whatever the tenant: no other tenant resource, no other row and no other
      tenant's member is touched. */
  lemma OtherTenantsAreUntouched(cfg: Config, w: World, goal: Tenant, w': World, pc: Pc)
    requires goal.name in w.server.tenants && w.server.tenants[goal.name] == goal
    requires Reaches(cfg, w, goal.name, w', pc)
    ensures forall id | id != goal.uid :: Store.RowAt(w'.db, id) == Store.RowAt(w.db, id)
    ensures forall id, uid | id != goal.uid :: Store.MemberAt(w'.db, id, uid) == Store.MemberAt(w.db, id, uid)
    ensures forall n | n != goal.name :: (n in w'.server.tenants <==> n in w.server.tenants)
                                         && (n in w'.server.tenants ==> w'.server.tenants[n] == w.server.tenants[n])
  {
    var nows :| Alone(cfg, w, goal.name, Start, nows) == (w', pc);
    AloneKeepsOneTenant(cfg, goal, w, nows);
    forall id, uid | id != goal.uid ensures Store.MemberAt(w'.db, id, uid) == Store.MemberAt(w.db, id, uid) {
      assert Store.RowAt(w'.db, id) == Store.RowAt(w.db, id);
    }
  }
}
