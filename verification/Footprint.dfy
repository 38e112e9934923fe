/** What a reconcile leaves behind, object by object: under the keys of its plan the object that was there if
    that was acceptable, else the desired one; under every other key what was there, version included. */
module Footprint {
  import opened Objects
  import opened Tenants
  import opened ApiServer
  import opened Reconciler
  import opened Convergence

  function ContentAt(s: Server, k: Key): Option<Object> {
    if k in s.objects then Some(s.objects[k].obj) else None
  }

  ghost predicate SameAt(a: Server, b: Server, k: Key) {
    (k in a.objects <==> k in b.objects) && (k in a.objects ==> a.objects[k] == b.objects[k])
  }

  /** What a finished attempt leaves behind, by what it found: nobody else is in the picture. */
  ghost function Target(s0: Server, d: Desired): Object {
    if Settled(s0, d) then s0.objects[d.key].obj else d.obj
  }

  ghost predicate InPlan(cfg: Config, t: Tenant, k: Key) {
    exists i | 0 <= i < 9 :: Plan(cfg, t)[i].Ensure? && Plan(cfg, t)[i].d.key == k
  }

  /** The objects change at most under the keys of the plan. */
  ghost predicate ChangesOnlyPlan(cfg: Config, goal: Tenant, a: Server, b: Server) {
    forall k | !InPlan(cfg, goal, k) :: SameAt(a, b, k)
  }

  /** How far the worker of `goal` has turned the state s0 into its targets. */
  ghost predicate Progress(cfg: Config, s0: Server, s: Server, goal: Tenant, i: nat)
    requires i <= 9
  {
    forall j | 0 <= j < 9 && Plan(cfg, goal)[j].Ensure? :: var d := Plan(cfg, goal)[j].d;
      ContentAt(s, d.key) == if j < i then Some(Target(s0, d)) else ContentAt(s0, d.key)
  }

  ghost predicate AttemptOk(s: Server, d: Desired, a: Attempt) {
    !a.Finished? && Fresh(s, d, a) && (a.Writing? ==> !Acceptable(a.seen.obj, d.obj))
  }

  ghost predicate ProvideOk(cfg: Config, s0: Server, s: Server, goal: Tenant, pc: Pc) {
    match pc
    case Providing(t, i, a) =>
      && t == goal && i < 9 && Progress(cfg, s0, s, goal, i)
      && (Plan(cfg, goal)[i].Ensure? ==> AttemptOk(s, Plan(cfg, goal)[i].d, a))
    case Succeeded(_) => Progress(cfg, s0, s, goal, 9)
    case Broken => true
    case _ => false
  }

  // ---------------------------------------------------------------- one step

  lemma StepChangesOnlyPlan(cfg: Config, goal: Tenant, w: World, i: nat, a: Attempt)
    requires i < 9
    ensures ChangesOnlyPlan(cfg, goal, w.server, ProvideStep(cfg, w, w.server, goal, i, a).0.server)
  {
    hide Plan, Acceptable, AttemptStep;
    if Plan(cfg, goal)[i].Ensure? {
      AttemptWritesOnlyItsKey(w.server, w.server, a, Plan(cfg, goal)[i].d);
      assert InPlan(cfg, goal, Plan(cfg, goal)[i].d.key);
    }
  }

  lemma AttemptMakesTarget(s0: Server, s: Server, a: Attempt, d: Desired)
    requires AttemptOk(s, d, a) && ContentAt(s, d.key) == ContentAt(s0, d.key)
    ensures var (s', a') := AttemptStep(s, s, a, d);
            && (s' == s || s' == Put(s, d))
            && (!a'.Finished? ==> s' == s && AttemptOk(s', d, a'))
            && (a'.Finished? && !a'.outcome.Failed? ==> ContentAt(s', d.key) == Some(Target(s0, d)))
  {
    hide Acceptable;
  }

  lemma ProgressOnward(cfg: Config, s0: Server, s: Server, s': Server, goal: Tenant, i: nat)
    requires i < 9 && Plan(cfg, goal)[i].Ensure? && Progress(cfg, s0, s, goal, i)
    requires var d := Plan(cfg, goal)[i].d; (s' == s || s' == Put(s, d)) && ContentAt(s', d.key) == Some(Target(s0, d))
    ensures Progress(cfg, s0, s', goal, i+1)
  {
    hide Plan, Target;
    forall j | 0 <= j < 9 && j != i && Plan(cfg, goal)[j].Ensure?
      ensures Plan(cfg, goal)[j].d.key != Plan(cfg, goal)[i].d.key
    {
      if j < i { PlanKeysDiffer(cfg, goal, j, i); } else { PlanKeysDiffer(cfg, goal, i, j); }
    }
  }

  lemma OwnStepOk(cfg: Config, s0: Server, w: World, goal: Tenant, i: nat, a: Attempt)
    requires ProvideOk(cfg, s0, w.server, goal, Providing(goal, i, a))
    ensures var (w', pc') := ProvideStep(cfg, w, w.server, goal, i, a); ProvideOk(cfg, s0, w'.server, goal, pc')
  {
    hide Plan, Acceptable, AttemptStep, Target;
    PlanKinds(cfg, goal);
    if Plan(cfg, goal)[i].Ensure? {
      var d := Plan(cfg, goal)[i].d;
      AttemptMakesTarget(s0, w.server, a, d);
      var (s', a') := AttemptStep(w.server, w.server, a, d);
      if a'.Finished? && !a'.outcome.Failed? {
        ProgressOnward(cfg, s0, w.server, s', goal, i);
      }
    } else if Plan(cfg, goal)[i].MarkActive? {
      var s' := ProvideStep(cfg, w, w.server, goal, i, a).0.server;
      assert s'.objects == w.server.objects;
      assert Progress(cfg, s0, s', goal, i+1);
    }
  }

  // ---------------------------------------------------------------- a whole reconcile

  ghost predicate Exact(cfg: Config, goal: Tenant, s0: Server, w: World, pc: Pc) {
    && ChangesOnlyPlan(cfg, goal, s0, w.server)
    && if pc.Providing? || pc.Succeeded? || pc.Broken? then ProvideOk(cfg, s0, w.server, goal, pc)
       else w.server.objects == s0.objects
  }

  lemma NothingDoneYet(cfg: Config, goal: Tenant, s0: Server, s: Server)
    requires s.objects == s0.objects
    ensures Progress(cfg, s0, s, goal, 0) && ChangesOnlyPlan(cfg, goal, s0, s)
  {
    hide Plan;
  }

  lemma ChangesAddUp(cfg: Config, goal: Tenant, a: Server, b: Server, c: Server)
    requires ChangesOnlyPlan(cfg, goal, a, b) && ChangesOnlyPlan(cfg, goal, b, c)
    ensures ChangesOnlyPlan(cfg, goal, a, c)
  {
    hide InPlan;
    forall k | !InPlan(cfg, goal, k) ensures SameAt(a, c, k) {
      assert SameAt(a, b, k) && SameAt(b, c, k);
    }
  }

  lemma {:induction false} AloneIsExact(cfg: Config, goal: Tenant, w: World, nows: seq<nat>)
    requires goal.name in w.server.tenants && w.server.tenants[goal.name] == goal && Active(goal)
    ensures var (w', pc') := Alone(cfg, w, goal.name, Start, nows); Exact(cfg, goal, w.server, w', pc')
  {
    hide Plan, ProvideStep, Progress, ChangesOnlyPlan, AttemptOk;
    NothingDoneYet(cfg, goal, w.server, w.server);
    if nows != [] {
      var before, now := nows[..|nows|-1], nows[|nows|-1];
      AloneIsExact(cfg, goal, w, before);
      AloneOnStoreTrack(cfg, goal, w, before);
      var (w1, pc1) := Alone(cfg, w, goal.name, Start, before);
      var (w2, pc2) := Advance(cfg, w1, w1.server, now, goal.name, pc1);
      if pc1.Providing? {
        OwnStepOk(cfg, w.server, w1, goal, pc1.i, pc1.a);
        StepChangesOnlyPlan(cfg, goal, w1, pc1.i, pc1.a);
        ChangesAddUp(cfg, goal, w.server, w1.server, w2.server);
      } else if !pc1.Succeeded? && !pc1.Broken? {
        NothingDoneYet(cfg, goal, w.server, w2.server);
        FirstAttemptIsOk(cfg, goal, w2.server);
      }
    }
  }

  lemma FirstAttemptIsOk(cfg: Config, goal: Tenant, s: Server)
    ensures Plan(cfg, goal)[0].Ensure? ==> AttemptOk(s, Plan(cfg, goal)[0].d, Creating)
  {
    hide Plan;
  }

  /** Wherever a reconcile stops, it has touched no object but those of its plan; and a successful one has
      made exactly its targets of them, so the objects afterwards are determined by those before. */
  lemma FootprintIsExact(cfg: Config, w: World, goal: Tenant, w': World, pc: Pc)
    requires goal.name in w.server.tenants && w.server.tenants[goal.name] == goal && Active(goal)
    requires Reaches(cfg, w, goal.name, w', pc)
    ensures forall k | !InPlan(cfg, goal, k) :: SameAt(w.server, w'.server, k)
    ensures pc.Succeeded? ==> forall i | 0 <= i < 9 && Plan(cfg, goal)[i].Ensure? ::
              ContentAt(w'.server, Plan(cfg, goal)[i].d.key) == Some(Target(w.server, Plan(cfg, goal)[i].d))
  {
    hide Plan, InPlan, Target;
    var nows :| Alone(cfg, w, goal.name, Start, nows) == (w', pc);
    AloneIsExact(cfg, goal, w, nows);
  }
}
