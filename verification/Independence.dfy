/** Two tenants with different namespaces do not disturb each other: however their workers' steps on the
    cluster objects are interleaved, neither breaks the other, and the objects end up the same. */
module Independence {
  import opened Objects
  import opened Tenants
  import opened ApiServer
  import opened Reconciler
  import opened Convergence
  import opened Footprint

  // ---------------------------------------------------------------- the other worker's step

  lemma PlansAreDisjoint(cfg: Config, a: Tenant, b: Tenant, k: Key)
    requires NamespaceOf(a) != NamespaceOf(b) && InPlan(cfg, a, k)
    ensures !InPlan(cfg, b, k)
  {
    InPlanNamespace(cfg, a, k);
    if InPlan(cfg, b, k) {
      InPlanNamespace(cfg, b, k);
    }
  }

  lemma InPlanNamespace(cfg: Config, t: Tenant, k: Key)
    requires InPlan(cfg, t, k)
    ensures k == NamespaceKey(NamespaceOf(t)) || (k.kind != NamespaceKind && k.namespace == NamespaceOf(t))
  {
    hide Plan;
    var i :| 0 <= i < 9 && Plan(cfg, t)[i].Ensure? && Plan(cfg, t)[i].d.key == k;
    PlanObject(cfg, t, i);
  }

  lemma ProgressSurvives(cfg: Config, s0: Server, s: Server, s': Server, goal: Tenant, other: Tenant, i: nat)
    requires NamespaceOf(goal) != NamespaceOf(other) && i <= 9
    requires Progress(cfg, s0, s, goal, i) && ChangesOnlyPlan(cfg, other, s, s')
    ensures Progress(cfg, s0, s', goal, i)
    ensures forall j | 0 <= j < 9 && Plan(cfg, goal)[j].Ensure? :: SameAt(s, s', Plan(cfg, goal)[j].d.key)
  {
    hide Plan, Target, InPlan;
    forall j | 0 <= j < 9 && Plan(cfg, goal)[j].Ensure?
      ensures SameAt(s, s', Plan(cfg, goal)[j].d.key)
    {
      KeyIsPlanned(cfg, goal, j);
      PlansAreDisjoint(cfg, goal, other, Plan(cfg, goal)[j].d.key);
    }
  }

  lemma KeyIsPlanned(cfg: Config, t: Tenant, i: nat)
    requires i < 9 && Plan(cfg, t)[i].Ensure?
    ensures InPlan(cfg, t, Plan(cfg, t)[i].d.key)
  {
    hide Plan;
  }

  lemma OthersStepOk(cfg: Config, s0: Server, s: Server, s': Server, goal: Tenant, other: Tenant, pc: Pc)
    requires NamespaceOf(goal) != NamespaceOf(other)
    requires ProvideOk(cfg, s0, s, goal, pc) && ChangesOnlyPlan(cfg, other, s, s')
    ensures ProvideOk(cfg, s0, s', goal, pc)
  {
    hide Plan, Acceptable, Progress, ChangesOnlyPlan;
    match pc
    case Providing(_, i, _) => ProgressSurvives(cfg, s0, s, s', goal, other, i);
    case Succeeded(_) => ProgressSurvives(cfg, s0, s, s', goal, other, 9);
    case _ =>
  }

  // ---------------------------------------------------------------- two workers

  datatype Duo = Duo(w: World, a: Pc, b: Pc)

  function PcOf(duo: Duo, first: bool): Pc { if first then duo.a else duo.b }

  /** One step of the worker of `a` (true) or of `b` (false), once provisioning has begun. */
  ghost function DuoStep(cfg: Config, a: Tenant, b: Tenant, duo: Duo, first: bool): Duo {
    var pc := PcOf(duo, first);
    if !pc.Providing? then duo
    else
      var (w, pc') := ProvideStep(cfg, duo.w, duo.w.server, if first then a else b, pc.i, pc.a);
      if first then Duo(w, pc', duo.b) else Duo(w, duo.a, pc')
  }

  ghost function DuoRun(cfg: Config, a: Tenant, b: Tenant, w: World, schedule: seq<bool>): Duo {
    if schedule == [] then Duo(w, Providing(a, 0, Creating), Providing(b, 0, Creating))
    else DuoStep(cfg, a, b, DuoRun(cfg, a, b, w, schedule[..|schedule|-1]), schedule[|schedule|-1])
  }

  ghost predicate Unplanned(cfg: Config, a: Tenant, b: Tenant, s0: Server, s: Server) {
    forall k | !InPlan(cfg, a, k) && !InPlan(cfg, b, k) :: ContentAt(s, k) == ContentAt(s0, k)
  }

  ghost predicate DuoOk(cfg: Config, a: Tenant, b: Tenant, s0: Server, duo: Duo) {
    && ProvideOk(cfg, s0, duo.w.server, a, duo.a)
    && ProvideOk(cfg, s0, duo.w.server, b, duo.b)
    && Unplanned(cfg, a, b, s0, duo.w.server)
  }

  lemma DuoStepOk(cfg: Config, a: Tenant, b: Tenant, s0: Server, duo: Duo, first: bool)
    requires NamespaceOf(a) != NamespaceOf(b) && DuoOk(cfg, a, b, s0, duo)
    ensures DuoOk(cfg, a, b, s0, DuoStep(cfg, a, b, duo, first))
  {
    hide Plan, ProvideStep, Progress, AttemptOk, NamespaceOf, InPlan;
    var pc := PcOf(duo, first);
    var own, other := if first then a else b, if first then b else a;
    if pc.Providing? {
      var w' := ProvideStep(cfg, duo.w, duo.w.server, own, pc.i, pc.a).0;
      OwnStepOk(cfg, s0, duo.w, own, pc.i, pc.a);
      StepChangesOnlyPlan(cfg, own, duo.w, pc.i, pc.a);
      OthersStepOk(cfg, s0, duo.w.server, w'.server, other, own, PcOf(duo, !first));
    }
  }

  lemma {:induction false} DuoRunOk(cfg: Config, a: Tenant, b: Tenant, w: World, schedule: seq<bool>)
    requires NamespaceOf(a) != NamespaceOf(b)
    ensures DuoOk(cfg, a, b, w.server, DuoRun(cfg, a, b, w, schedule))
  {
    if schedule != [] {
      hide DuoOk, DuoStep;
      DuoRunOk(cfg, a, b, w, schedule[..|schedule|-1]);
      DuoStepOk(cfg, a, b, w.server, DuoRun(cfg, a, b, w, schedule[..|schedule|-1]), schedule[|schedule|-1]);
    } else {
      hide Plan;
    }
  }

  // ---------------------------------------------------------------- nobody is disturbed

  /** What keeps the worker of `goal` from breaking, whatever the other one does: it panics on an unknown tier,
      with the namespace done, and that is all. */
  ghost predicate SureOk(cfg: Config, s0: Server, s: Server, goal: Tenant, pc: Pc) {
    && Named(s)
    && match pc
       case Providing(_, i, a) =>
         && (i == 6 ==> a.Creating?)
         && (i > 0 ==> NamespaceKey(NamespaceOf(goal)) in s.objects)
         && (i <= 6 ==> goal.name in s.tenants && s.tenants[goal.name] == goal)
         && (i > 1 ==> KnownTier(goal.spec.tier))
       case Succeeded(_) => KnownTier(goal.spec.tier)
       case Broken => !KnownTier(goal.spec.tier) && Progress(cfg, s0, s, goal, 1)
       case _ => false
  }

  /** The most steps a worker takes: three for each object, one for the status. */
  const STEPS := 25

  function Rank(pc: Pc): nat {
    match pc
    case Providing(_, i, a) =>
      (if i > 6 then 3 * i - 2 else 3 * i) + (if a.Reading? then 1 else if a.Writing? then 2 else 0)
    case _ => STEPS
  }

  lemma OwnStepSure(cfg: Config, s0: Server, w: World, goal: Tenant, i: nat, a: Attempt)
    requires ProvideOk(cfg, s0, w.server, goal, Providing(goal, i, a))
    requires SureOk(cfg, s0, w.server, goal, Providing(goal, i, a))
    ensures var (w', pc') := ProvideStep(cfg, w, w.server, goal, i, a);
            SureOk(cfg, s0, w'.server, goal, pc') && Rank(pc') > Rank(Providing(goal, i, a))
  {
    hide Plan, Acceptable, AttemptStep, Target, KnownTier, Progress, Fresh, NamespaceOf;
    PlanKinds(cfg, goal);
    if Plan(cfg, goal)[i].Ensure? {
      var d := Plan(cfg, goal)[i].d;
      PlanObject(cfg, goal, i);
      FreshAttemptAdvances(w.server, a, d);
      AttemptWritesOnlyItsKey(w.server, w.server, a, d);
      AttemptLeavesKey(w.server, a, d);
    }
  }

  lemma AttemptLeavesKey(s: Server, a: Attempt, d: Desired)
    requires AttemptOk(s, d, a)
    ensures var (s', a') := AttemptStep(s, s, a, d); a'.Finished? && !a'.outcome.Failed? ==> d.key in s'.objects
  {
    hide Acceptable;
  }

  lemma OthersStepSure(cfg: Config, s0: Server, w: World, goal: Tenant, other: Tenant, i: nat, a: Attempt, pc: Pc)
    requires NamespaceOf(goal) != NamespaceOf(other) && goal.name != other.name && i < 9
    requires ProvideOk(cfg, s0, w.server, goal, pc) && SureOk(cfg, s0, w.server, goal, pc)
    ensures SureOk(cfg, s0, ProvideStep(cfg, w, w.server, other, i, a).0.server, goal, pc)
  {
    hide Plan, Acceptable, AttemptStep, Progress, AttemptOk, NamespaceOf;
    var s' := ProvideStep(cfg, w, w.server, other, i, a).0.server;
    StepChangesOnlyPlan(cfg, other, w, i, a);
    StepKeepsOtherTenants(cfg, w, other, i, a);
    NamespaceIsPlanned(cfg, goal);
    PlansAreDisjoint(cfg, goal, other, NamespaceKey(NamespaceOf(goal)));
    assert SameAt(w.server, s', NamespaceKey(NamespaceOf(goal)));
    if pc.Broken? {
      ProgressSurvives(cfg, s0, w.server, s', goal, other, 1);
    }
  }

  lemma NamespaceIsPlanned(cfg: Config, t: Tenant)
    ensures InPlan(cfg, t, NamespaceKey(NamespaceOf(t)))
  {
    assert Plan(cfg, t)[0] == Ensure(BuildNamespace(t));
  }

  lemma StepKeepsOtherTenants(cfg: Config, w: World, t: Tenant, i: nat, a: Attempt)
    requires Named(w.server)
    ensures var s' := ProvideStep(cfg, w, w.server, t, i, a).0.server;
            && Named(s')
            && forall n | n != t.name :: (n in s'.tenants <==> n in w.server.tenants)
                                         && (n in s'.tenants ==> s'.tenants[n] == w.server.tenants[n])
  {
    hide Plan, Acceptable, AttemptStep, NamespaceOf;
    if i < 9 && Plan(cfg, t)[i].Ensure? {
      AttemptWritesOnlyItsKey(w.server, w.server, a, Plan(cfg, t)[i].d);
    }
  }

  function Turns(schedule: seq<bool>, first: bool): nat {
    if schedule == [] then 0
    else Turns(schedule[..|schedule|-1], first) + (if schedule[|schedule|-1] == first then 1 else 0)
  }

  ghost predicate AsRead(s: Server, t: Tenant) { Named(s) && t.name in s.tenants && s.tenants[t.name] == t }

  lemma {:induction false} DuoRunSure(cfg: Config, a: Tenant, b: Tenant, w: World, schedule: seq<bool>, first: bool)
    requires NamespaceOf(a) != NamespaceOf(b) && a.name != b.name && AsRead(w.server, if first then a else b)
    ensures var duo := DuoRun(cfg, a, b, w, schedule);
            && SureOk(cfg, w.server, duo.w.server, if first then a else b, PcOf(duo, first))
            && (Rank(PcOf(duo, first)) >= STEPS || Rank(PcOf(duo, first)) >= Turns(schedule, first))
  {
    hide ProvideOk, SureOk, ProvideStep, NamespaceOf, Unplanned, Rank;
    var own, other := if first then a else b, if first then b else a;
    if schedule == [] {
      StartIsSure(cfg, w.server, own);
    } else {
      var before, last := schedule[..|schedule|-1], schedule[|schedule|-1];
      DuoRunSure(cfg, a, b, w, before, first);
      DuoRunOk(cfg, a, b, w, before);
      var duo := DuoRun(cfg, a, b, w, before);
      var pc := PcOf(duo, last);
      if pc.Providing? {
        CopyIsOwn(cfg, w.server, duo.w.server, if last then a else b, pc);
        if last == first {
          OwnStepSure(cfg, w.server, duo.w, own, pc.i, pc.a);
        } else {
          OthersStepSure(cfg, w.server, duo.w, own, other, pc.i, pc.a, PcOf(duo, first));
        }
      } else if last == first {
        StoppedIsDone(pc);
      }
    }
  }

  lemma StartIsSure(cfg: Config, s: Server, goal: Tenant)
    requires AsRead(s, goal)
    ensures SureOk(cfg, s, s, goal, Providing(goal, 0, Creating))
  {
  }

  lemma CopyIsOwn(cfg: Config, s0: Server, s: Server, goal: Tenant, pc: Pc)
    requires ProvideOk(cfg, s0, s, goal, pc) && pc.Providing?
    ensures pc.t == goal && pc.i < 9
  {
  }

  lemma StoppedIsDone(pc: Pc)
    requires !pc.Providing?
    ensures Rank(pc) == STEPS
  {
  }

  lemma EnoughTurns(cfg: Config, s0: Server, s: Server, goal: Tenant, pc: Pc)
    requires ProvideOk(cfg, s0, s, goal, pc) && SureOk(cfg, s0, s, goal, pc) && Rank(pc) >= STEPS
    ensures if KnownTier(goal.spec.tier) then pc.Succeeded? && Progress(cfg, s0, s, goal, 9)
            else pc == Broken && Progress(cfg, s0, s, goal, 1)
  {
    hide Plan, Progress, KnownTier, NamespaceOf;
    if pc.Providing? {
      PlanKinds(cfg, goal);
    }
  }

  /** Whatever the other worker does, and whether it succeeds or not: once a worker has had its turns it has
      succeeded, exactly if its tier is known, and made the targets it would have made alone. */
  lemma WorkerIsUndisturbed(cfg: Config, a: Tenant, b: Tenant, w: World, schedule: seq<bool>, first: bool)
    requires NamespaceOf(a) != NamespaceOf(b) && a.name != b.name && AsRead(w.server, if first then a else b)
    requires Turns(schedule, first) >= STEPS
    ensures var duo := DuoRun(cfg, a, b, w, schedule);
            var own := if first then a else b;
            if KnownTier(own.spec.tier) then PcOf(duo, first).Succeeded? && Progress(cfg, w.server, duo.w.server, own, 9)
            else PcOf(duo, first) == Broken && Progress(cfg, w.server, duo.w.server, own, 1)
  {
    hide ProvideOk, SureOk, Rank, Progress, Unplanned, KnownTier;
    DuoRunSure(cfg, a, b, w, schedule, first);
    DuoRunOk(cfg, a, b, w, schedule);
    EnoughTurns(cfg, w.server, DuoRun(cfg, a, b, w, schedule).w.server, if first then a else b,
                PcOf(DuoRun(cfg, a, b, w, schedule), first));
  }

  // ---------------------------------------------------------------- any two schedules agree

  lemma ContentDecided(cfg: Config, a: Tenant, b: Tenant, s0: Server, s: Server, s': Server, m: nat, n: nat, k: Key)
    requires m <= 9 && n <= 9 && Unplanned(cfg, a, b, s0, s) && Unplanned(cfg, a, b, s0, s')
    requires Progress(cfg, s0, s, a, m) && Progress(cfg, s0, s', a, m)
    requires Progress(cfg, s0, s, b, n) && Progress(cfg, s0, s', b, n)
    ensures ContentAt(s, k) == ContentAt(s', k)
  {
    hide Plan, Target;
    if InPlan(cfg, a, k) {
      var i :| 0 <= i < 9 && Plan(cfg, a)[i].Ensure? && Plan(cfg, a)[i].d.key == k;
    } else if InPlan(cfg, b, k) {
      var i :| 0 <= i < 9 && Plan(cfg, b)[i].Ensure? && Plan(cfg, b)[i].d.key == k;
    }
  }

  /** Any two schedules that give both workers their turns leave the same objects under the same keys. */
  lemma InterleavingDoesNotMatter(cfg: Config, a: Tenant, b: Tenant, w: World, one: seq<bool>, two: seq<bool>)
    requires NamespaceOf(a) != NamespaceOf(b) && a.name != b.name && AsRead(w.server, a) && AsRead(w.server, b)
    requires forall first :: Turns(one, first) >= STEPS && Turns(two, first) >= STEPS
    ensures forall k :: ContentAt(DuoRun(cfg, a, b, w, one).w.server, k) == ContentAt(DuoRun(cfg, a, b, w, two).w.server, k)
  {
    hide DuoRun, ContentAt, KnownTier, Progress, Unplanned, ProvideOk, NamespaceOf;
    DuoRunOk(cfg, a, b, w, one);
    DuoRunOk(cfg, a, b, w, two);
    WorkerIsUndisturbed(cfg, a, b, w, one, true);
    WorkerIsUndisturbed(cfg, a, b, w, two, true);
    WorkerIsUndisturbed(cfg, a, b, w, one, false);
    WorkerIsUndisturbed(cfg, a, b, w, two, false);
    var x, y := DuoRun(cfg, a, b, w, one).w.server, DuoRun(cfg, a, b, w, two).w.server;
    var m, n := if KnownTier(a.spec.tier) then 9 else 1, if KnownTier(b.spec.tier) then 9 else 1;
    forall k ensures ContentAt(x, k) == ContentAt(y, k) {
      ContentDecided(cfg, a, b, w.server, x, y, m, n, k);
    }
  }

  function Repeat(first: bool, n: nat): seq<bool> {
    if n == 0 then [] else Repeat(first, n-1) + [first]
  }

  lemma {:induction false} TurnsOfRepeat(before: seq<bool>, first: bool, n: nat)
    ensures Turns(before + Repeat(first, n), first) == Turns(before, first) + n
    ensures Turns(before + Repeat(first, n), !first) == Turns(before, !first)
  {
    if n == 0 {
      assert before + Repeat(first, 0) == before;
    } else {
      var all := before + Repeat(first, n);
      assert all[..|all|-1] == before + Repeat(first, n-1) && all[|all|-1] == first;
      TurnsOfRepeat(before, first, n-1);
    }
  }

  /** In particular, any interleaving leaves what one worker after the other leaves. */
  lemma InterleavedIsSequential(cfg: Config, a: Tenant, b: Tenant, w: World, schedule: seq<bool>)
    requires NamespaceOf(a) != NamespaceOf(b) && a.name != b.name && AsRead(w.server, a) && AsRead(w.server, b)
    requires forall first :: Turns(schedule, first) >= STEPS
    ensures var sequential := Repeat(true, STEPS) + Repeat(false, STEPS);
            forall k :: ContentAt(DuoRun(cfg, a, b, w, schedule).w.server, k)
                        == ContentAt(DuoRun(cfg, a, b, w, sequential).w.server, k)
  {
    hide DuoRun, ContentAt, NamespaceOf, Repeat;
    assert [] + Repeat(true, STEPS) == Repeat(true, STEPS);
    TurnsOfRepeat([], true, STEPS);
    TurnsOfRepeat(Repeat(true, STEPS), false, STEPS);
    InterleavingDoesNotMatter(cfg, a, b, w, schedule, Repeat(true, STEPS) + Repeat(false, STEPS));
  }
}
