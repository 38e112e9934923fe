/** End to end: who may do what in a tenant's namespace once a reconcile has succeeded. */
module Access {
  import opened Objects
  import opened Drift
  import opened Grants
  import opened Tenants
  import opened ApiServer
  import opened Reconciler
  import opened Convergence
  import opened Footprint

  lemma AdminCoreIsPlain() ensures Plain(ADMIN_CORE) {}
  lemma AdminCoreHasNoRepeats() ensures NoRepeats(ADMIN_CORE) {}
  lemma AdminCoreLacks() ensures "*" !in ADMIN_CORE && "bindings" !in ADMIN_CORE {}
  lemma AdminAppsIsPlain() ensures Plain(ADMIN_APPS) {}
  lemma AdminAppsHasNoRepeats() ensures NoRepeats(ADMIN_APPS) && "*" !in ADMIN_APPS {}

  lemma AdminListsAreClear()
    ensures Clear(ADMIN_CORE) && Clear(ADMIN_APPS)
  {
    hide Plain, NoRepeats;
    AdminCoreIsPlain();
    AdminCoreHasNoRepeats();
    AdminCoreLacks();
    AdminAppsIsPlain();
    AdminAppsHasNoRepeats();
  }

  lemma OperatorCoreIsClear() ensures Clear(OPERATOR_CORE) {}
  lemma OperatorAppsIsClear() ensures Clear(OPERATOR_APPS) {}
  lemma BatchIsClear() ensures Clear(ADMIN_BATCH) && Clear(OPERATOR_BATCH) {}
  lemma VerbsAreClear() ensures Clear(EDIT) && Clear(EDIT_ALL) && Clear(["create"]) {}
  lemma OthersAreClear() ensures Clear(["horizontalpodautoscalers"]) && Clear(["bindings"]) {}
  lemma GroupsAreClear() ensures Clear([""]) && Clear(["apps"]) && Clear(["batch"]) && Clear(["autoscaling"]) {}

  /** The rules built in have no separators, empty lists, wildcards or resource names, and no overlap. */
  lemma BuiltInRulesAreIrredundant()
    ensures Irredundant(AdminRules()) && Irredundant(OperatorRules())
  {
    AdminRulesAreIrredundant();
    OperatorRulesAreIrredundant();
  }

  lemma AdminRulesAreIrredundant()
    ensures Irredundant(AdminRules())
  {
    hide Clear;
    AdminListsAreClear();
    AdminCoreLacks();
    BatchIsClear();
    VerbsAreClear();
    OthersAreClear();
    GroupsAreClear();
  }

  lemma OperatorRulesAreIrredundant()
    ensures Irredundant(OperatorRules())
  {
    hide Clear;
    OperatorCoreIsClear();
    OperatorAppsIsClear();
    BatchIsClear();
    VerbsAreClear();
    GroupsAreClear();
  }

  function BuiltIn(admin: bool): seq<Rule> { if admin then AdminRules() else OperatorRules() }
  function RoleOf(t: Tenant, admin: bool): Desired {
    BuildRole(t, if admin then "-admin" else "-operator", BuiltIn(admin))
  }

  /** After a successful reconcile neither role ever grants more than its built-in rules.  It grants the same
      exactly when, before the reconcile, the role was absent, or such that it is replaced, or free of
      separators, empty lists and resource names. */
  lemma RolesGrantWhatIsBuiltInIff(cfg: Config, w: World, goal: Tenant, w': World, requeue: bool, admin: bool)
    requires goal.name in w.server.tenants && w.server.tenants[goal.name] == goal && Active(goal)
    requires Reaches(cfg, w, goal.name, w', Succeeded(requeue))
    ensures var d := RoleOf(goal, admin);
            && d.key in w'.server.objects && w'.server.objects[d.key].obj.Role?
            && (forall a | Real(a) && Allows(w'.server.objects[d.key].obj.rules, a) :: Allows(BuiltIn(admin), a))
            && (SameGrants(w'.server.objects[d.key].obj.rules, BuiltIn(admin))
                <==> (Settled(w.server, d) ==> PlainRules(w.server.objects[d.key].obj.rules)))
  {
    var d := RoleOf(goal, admin);
    SuccessProvidesEverything(cfg, w, goal, w', requeue);
    FootprintIsExact(cfg, w, goal, w', Succeeded(requeue));
    assert Plan(cfg, goal)[if admin then 2 else 3] == Ensure(d);
    hide Plan, AdminRules, OperatorRules;
    assert Settled(w'.server, d) && ContentAt(w'.server, d.key) == Some(Target(w.server, d));
    BuiltInRulesAreIrredundant();
    assert Irredundant(BuiltIn(admin));
    RoleGrantsIff(w'.server.objects[d.key].obj.rules, BuiltIn(admin));
  }

  lemma RoleGrantsIff(current: seq<Rule>, desired: seq<Rule>)
    requires Irredundant(desired) && RulesKept(current, desired)
    ensures forall a | Real(a) && Allows(current, a) :: Allows(desired, a)
    ensures SameGrants(current, desired) <==> PlainRules(current)
    ensures PlainRules(desired)
  {
    assert PlainRules(desired) by { assert forall i | 0 <= i < |desired| :: ClearRule(desired[i]); }
    hide PlainRules, Irredundant, RulesKept;
    forall a | Real(a) && Allows(current, a) ensures Allows(desired, a) {
      AcceptedGrantsNoMore(current, desired, a);
    }
    AcceptedGrantsSameIff(current, desired);
  }

  // ---------------------------------------------------------------- who may do what

  /** This binding lets members of this group do this in this namespace, through the role it refers to. */
  ghost predicate Authorizes(s: Server, k: Key, ns: string, group: string, a: Access) {
    && k in s.objects && k.kind == RoleBindingKind && k.namespace == ns && s.objects[k].obj.RoleBinding?
    && Subject("Group", "rbac.authorization.k8s.io", group) in s.objects[k].obj.subjects
    && var ref := s.objects[k].obj.roleRef;
    && ref.apiGroup == "rbac.authorization.k8s.io" && ref.kind == "Role"
    && var role := Key(RoleKind, ns, ref.name);
    && role in s.objects && s.objects[role].obj.Role? && Allows(s.objects[role].obj.rules, a)
  }

  ghost predicate May(s: Server, ns: string, group: string, a: Access) {
    exists k :: Authorizes(s, k, ns, group, a)
  }

  function GroupOf(t: Tenant, admin: bool): string { "tenant-" + t.name + (if admin then "-admins" else "-operators") }

  function BindingOf(t: Tenant, admin: bool): Desired {
    if admin then BuildBinding(t, "-admin", "-admins") else BuildBinding(t, "-operator", "-operators")
  }

  /** No binding in the tenant's namespace but the two the reconciler makes. */
  ghost predicate NoOtherBindings(s: Server, t: Tenant) {
    forall k | k in s.objects && k.kind == RoleBindingKind && k.namespace == NamespaceOf(t) ::
      k == BindingOf(t, true).key || k == BindingOf(t, false).key
  }

  ghost predicate BarFree(subjects: seq<Subject>) { forall i | 0 <= i < |subjects| :: NoBars(subjects[i]) }

  /** An accepted binding has one subject, which is the desired one or none that anybody is. */
  lemma AcceptedSubject(current: seq<Subject>, s: Subject)
    requires SubjectsKept(current, [s]) && NoBars(s)
    ensures forall x | x in current && NoBars(x) :: x == s
    ensures s in current <==> BarFree(current)
  {
    assert [s][0] == s && SubjectKey(s) in SubjectKeys([s]);
    assert current == [current[0]] && SubjectKey(current[0]) == SubjectKey(s);
    if NoBars(current[0]) { SubjectKeyInjective(current[0], s); }
  }

  lemma OutcomeForGroup(cfg: Config, w: World, goal: Tenant, w': World, requeue: bool, admin: bool)
    requires goal.name in w.server.tenants && w.server.tenants[goal.name] == goal && Active(goal)
    requires Reaches(cfg, w, goal.name, w', Succeeded(requeue))
    ensures var d := BindingOf(goal, admin);
            && d.key in w'.server.objects && w'.server.objects[d.key].obj.RoleBinding?
            && w'.server.objects[d.key].obj.roleRef ==
                 RoleRef("rbac.authorization.k8s.io", "Role", RoleOf(goal, admin).key.name)
            && SubjectsKept(w'.server.objects[d.key].obj.subjects,
                            [Subject("Group", "rbac.authorization.k8s.io", GroupOf(goal, admin))])
            && (BarFree(w'.server.objects[d.key].obj.subjects) <==>
                  (Settled(w.server, d) ==> BarFree(w.server.objects[d.key].obj.subjects)))
  {
    var d := BindingOf(goal, admin);
    SuccessProvidesEverything(cfg, w, goal, w', requeue);
    FootprintIsExact(cfg, w, goal, w', Succeeded(requeue));
    BindingIsPlanned(cfg, goal, admin);
    hide Plan, Reaches, Acceptable, BuildBinding, InPlan, SubjectsKept;
    assert Settled(w'.server, d) && ContentAt(w'.server, d.key) == Some(Target(w.server, d));
    AcceptedBinding(w'.server.objects[d.key].obj, d.obj);
  }

  lemma BindingIsPlanned(cfg: Config, t: Tenant, admin: bool)
    ensures Plan(cfg, t)[if admin then 4 else 5] == Ensure(BindingOf(t, admin))
    ensures var o := BindingOf(t, admin).obj;
            && o.RoleBinding? && BarFree(o.subjects)
            && o.subjects == [Subject("Group", "rbac.authorization.k8s.io", GroupOf(t, admin))]
            && o.roleRef == RoleRef("rbac.authorization.k8s.io", "Role", RoleOf(t, admin).key.name)
  {
    hide Plan, BarFree, BuiltIn, AdminRules, OperatorRules;
    PlanHasBindings(cfg, t);
    GroupIsBarFree(GroupOf(t, admin));
  }

  lemma PlanHasBindings(cfg: Config, t: Tenant)
    ensures Plan(cfg, t)[4] == Ensure(BindingOf(t, true)) && Plan(cfg, t)[5] == Ensure(BindingOf(t, false))
  {
    hide BuildBinding;
  }

  lemma GroupIsBarFree(group: string)
    ensures BarFree([Subject("Group", "rbac.authorization.k8s.io", group)])
  {
  }

  lemma AcceptedBinding(current: Object, desired: Object)
    requires desired.RoleBinding? && Acceptable(current, desired)
    ensures current.RoleBinding? && current.roleRef == desired.roleRef
            && SubjectsKept(current.subjects, desired.subjects)
  {
    hide MetaKept, SubjectsKept;
  }

  /** In a namespace without other bindings: who is not in the group may nothing by the group's binding, and who
      is may do what the group's stored role allows, if the binding names the group. */
  lemma MayIs(cfg: Config, w: World, goal: Tenant, w': World, requeue: bool, admin: bool, a: Access)
    requires goal.name in w.server.tenants && w.server.tenants[goal.name] == goal && Active(goal)
    requires Reaches(cfg, w, goal.name, w', Succeeded(requeue)) && NoOtherBindings(w'.server, goal)
    ensures var role, binding := RoleOf(goal, admin).key, BindingOf(goal, admin).key;
            && role in w'.server.objects && w'.server.objects[role].obj.Role?
            && binding in w'.server.objects && w'.server.objects[binding].obj.RoleBinding?
            && (May(w'.server, NamespaceOf(goal), GroupOf(goal, admin), a) <==>
                  BarFree(w'.server.objects[binding].obj.subjects) && Allows(w'.server.objects[role].obj.rules, a))
  {
    hide Reaches, Settled, Allows;
    RolesGrantWhatIsBuiltInIff(cfg, w, goal, w', requeue, admin);
    OutcomeForGroup(cfg, w, goal, w', requeue, admin);
    OutcomeForGroup(cfg, w, goal, w', requeue, !admin);
    var s, ns, group, other := w'.server, NamespaceOf(goal), GroupOf(goal, admin), GroupOf(goal, !admin);
    var mine, theirs := BindingOf(goal, admin).key, BindingOf(goal, !admin).key;
    AcceptedSubject(s.objects[mine].obj.subjects, Subject("Group", "rbac.authorization.k8s.io", group));
    AcceptedSubject(s.objects[theirs].obj.subjects, Subject("Group", "rbac.authorization.k8s.io", other));
    GroupsDiffer(goal);
    assert NoBars(Subject("Group", "rbac.authorization.k8s.io", group));
    assert !Authorizes(s, theirs, ns, group, a);
    assert Authorizes(s, mine, ns, group, a) <==>
             BarFree(s.objects[mine].obj.subjects) && Allows(s.objects[RoleOf(goal, admin).key].obj.rules, a);
    if May(s, ns, group, a) {
      var k :| Authorizes(s, k, ns, group, a);
      assert k == mine || k == theirs;
    }
  }

  lemma GroupsDiffer(t: Tenant)
    ensures GroupOf(t, true) != GroupOf(t, false)
  {
    assert |GroupOf(t, true)| != |GroupOf(t, false)|;
  }

  /** After a successful reconcile, in a namespace without other bindings: members of a tenant's groups may do
      no more than the rules built in for their group -- operators what operators may, not what admins may --
      and exactly that if and only if, before the reconcile, binding and role of the group were absent, or such
      that they are replaced, or free of what deceives the comparison. */
  lemma GroupsMayWhatIsBuiltInIff(cfg: Config, w: World, goal: Tenant, w': World, requeue: bool, admin: bool)
    requires goal.name in w.server.tenants && w.server.tenants[goal.name] == goal && Active(goal)
    requires Reaches(cfg, w, goal.name, w', Succeeded(requeue)) && NoOtherBindings(w.server, goal)
    ensures var s, ns, group := w'.server, NamespaceOf(goal), "tenant-" + goal.name + (if admin then "-admins" else "-operators");
            var rules := if admin then AdminRules() else OperatorRules();
            var binding, role := BindingOf(goal, admin), RoleOf(goal, admin);
            && (forall a | Real(a) && May(s, ns, group, a) :: Allows(rules, a))
            && ((forall a :: May(s, ns, group, a) <==> Allows(rules, a)) <==>
                  && (Settled(w.server, binding) ==> BarFree(w.server.objects[binding.key].obj.subjects))
                  && (Settled(w.server, role) ==> PlainRules(w.server.objects[role.key].obj.rules)))
  {
    NoOtherBindingsStays(cfg, w, goal, w', requeue);
    RolesGrantWhatIsBuiltInIff(cfg, w, goal, w', requeue, admin);
    OutcomeForGroup(cfg, w, goal, w', requeue, admin);
    hide Reaches, Settled, Allows, AdminRules, OperatorRules, BarFree, PlainRules, May;
    var s, ns, group := w'.server, NamespaceOf(goal), GroupOf(goal, admin);
    forall a ensures May(s, ns, group, a) <==>
                       BarFree(s.objects[BindingOf(goal, admin).key].obj.subjects)
                       && Allows(s.objects[RoleOf(goal, admin).key].obj.rules, a)
    {
      MayIs(cfg, w, goal, w', requeue, admin, a);
    }
    var any := SomethingAllowed(admin);
  }

  lemma SomethingAllowed(admin: bool) returns (a: Access)
    ensures Allows(BuiltIn(admin), a)
  {
    a := Access("", "pods", "get", "");
    assert RuleAllows(BuiltIn(admin)[0], a);
  }

  lemma NoOtherBindingsStays(cfg: Config, w: World, goal: Tenant, w': World, requeue: bool)
    requires goal.name in w.server.tenants && w.server.tenants[goal.name] == goal && Active(goal)
    requires Reaches(cfg, w, goal.name, w', Succeeded(requeue)) && NoOtherBindings(w.server, goal)
    ensures NoOtherBindings(w'.server, goal)
  {
    FootprintIsExact(cfg, w, goal, w', Succeeded(requeue));
    hide Reaches;
    forall k | k in w'.server.objects && k.kind == RoleBindingKind && k.namespace == NamespaceOf(goal)
      ensures k == BindingOf(goal, true).key || k == BindingOf(goal, false).key
    {
      if InPlan(cfg, goal, k) {
        BindingsInPlan(cfg, goal, k);
      } else {
        assert SameAt(w.server, w'.server, k);
      }
    }
  }

  lemma BindingsInPlan(cfg: Config, t: Tenant, k: Key)
    requires InPlan(cfg, t, k) && k.kind == RoleBindingKind
    ensures k == BindingOf(t, true).key || k == BindingOf(t, false).key
  {
    var i :| 0 <= i < 9 && Plan(cfg, t)[i].Ensure? && Plan(cfg, t)[i].d.key == k;
  }

  // ---------------------------------------------------------------- what the built-in rules fence in

  lemma AdminCoreLacksMore()
    ensures "resourcequotas" !in ADMIN_CORE
  {
  }

  lemma OperatorCoreWithinAdminCore()
    ensures forall x | x in OPERATOR_CORE :: x in ADMIN_CORE && x != "limitranges" && x != "resourcequotas"
  {
  }

  lemma OtherListsWithin()
    ensures forall x | x in OPERATOR_APPS :: x in ADMIN_APPS
    ensures forall x | x in OPERATOR_BATCH :: x in ADMIN_BATCH
    ensures forall x | x in EDIT :: x in EDIT_ALL && x != "deletecollection"
  {
  }

  lemma RuleWithin(x: Rule, y: Rule, a: Access)
    requires x.apiGroups == y.apiGroups && x.resourceNames == y.resourceNames == []
    requires forall r | r in x.resources :: r in y.resources
    requires forall v | v in x.verbs :: v in y.verbs
    ensures RuleAllows(x, a) ==> RuleAllows(y, a)
  {
  }

  /** Operators may nothing that admins may not. */
  lemma OperatorsWithinAdmins(a: Access)
    requires Allows(OperatorRules(), a)
    ensures Allows(AdminRules(), a)
  {
    var adm, op := AdminRules(), OperatorRules();
    OperatorCoreWithinAdminCore();
    OtherListsWithin();
    hide ADMIN_CORE, ADMIN_APPS, ADMIN_BATCH, OPERATOR_CORE, OPERATOR_APPS, OPERATOR_BATCH, EDIT, EDIT_ALL, RuleAllows;
    var i :| 0 <= i < |op| && RuleAllows(op[i], a);
    RuleWithin(op[i], adm[i], a);
    assert RuleAllows(adm[i], a);
  }

  lemma ClearCovers(list: seq<string>, x: string)
    requires Clear(list)
    ensures Covers(list, x) <==> x in list
  {
  }

  /** Neither group may touch what fences the tenant in: quotas, roles, bindings and network policies. */
  lemma AdminsAreFencedIn(a: Access)
    requires Allows(AdminRules(), a)
    ensures a.apiGroup != "rbac.authorization.k8s.io" && a.apiGroup != "networking.k8s.io"
    ensures !(a.apiGroup == "" && a.resource == "resourcequotas")
  {
    var adm := AdminRules();
    BuiltInRulesAreIrredundant();
    assert forall i | 0 <= i < |adm| :: ClearRule(adm[i]);
    AdminCoreLacksMore();
    hide ADMIN_CORE, ADMIN_APPS, ADMIN_BATCH, EDIT, EDIT_ALL, Clear, Irredundant;
    var i :| 0 <= i < |adm| && RuleAllows(adm[i], a);
    ClearCovers(adm[i].apiGroups, a.apiGroup);
    ClearCovers(adm[i].resources, a.resource);
  }

  /** But admins, and not operators, may delete the default limits. */
  lemma LimitRangesAreAdmins(name: string)
    ensures Allows(AdminRules(), Access("", "limitranges", "delete", name))
    ensures !Allows(OperatorRules(), Access("", "limitranges", "delete", name))
  {
    var a := Access("", "limitranges", "delete", name);
    var adm, op := AdminRules(), OperatorRules();
    BuiltInRulesAreIrredundant();
    assert forall i | 0 <= i < |op| :: ClearRule(op[i]);
    OperatorCoreWithinAdminCore();
    assert ADMIN_CORE[11] == "limitranges" && EDIT_ALL[6] == "delete";
    hide ADMIN_CORE, ADMIN_APPS, ADMIN_BATCH, OPERATOR_CORE, OPERATOR_APPS, OPERATOR_BATCH, EDIT, EDIT_ALL, Clear, Irredundant;
    assert RuleAllows(adm[0], a);
    if i :| 0 <= i < |op| && RuleAllows(op[i], a) {
      ClearCovers(op[i].apiGroups, a.apiGroup);
      ClearCovers(op[i].resources, a.resource);
    }
  }
}
