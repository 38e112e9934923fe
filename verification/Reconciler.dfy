/** internal/reconciler/tenant_reconciler.go: what a tenant should own, and the reconcile loop as a
    machine of atomic steps.  Between two steps anything may happen elsewhere, and the process may
    stop; the theorems about that are in the modules that import this one. */
module Reconciler {
  import opened Objects
  import opened Drift
  import opened Tenants
  import opened ApiServer
  import Store = TenantStore

  const FINALIZER := "tenant.multitenant.k8s-mtp.io/finalizer"

  // ---------------------------------------------------------------- desired objects

  datatype Defaults = Defaults(cpu: int, memory: int)
  datatype Config = Config(platformAccessLabel: string, tenantEgressPolicy: string,
                           free: Defaults, pro: Defaults, enterprise: Defaults)

  const GIB := 1024 * 1024 * 1024 * 1000
  const MIB := 1024 * 1024 * 1000

  function NamespaceOf(t: Tenant): string { "tenant-" + t.name + "-" + t.spec.name }

  function OwnedBy(t: Tenant): Meta {
    Meta(map[], map[], [OwnerRef("multitenant.k8s-mtp.io/v1", "Tenant", t.name, t.uid)])
  }

  function BuildNamespace(t: Tenant): Desired {
    Desired(NamespaceKey(NamespaceOf(t)),
            Namespace(OwnedBy(t).(labels := map["tenant.k8s-mtp.io/managed" := "true"])))
  }

  function Hard(cpu: int, memory: int, pods: int, storage: int): Quantities {
    map["cpu" := cpu, "memory" := memory, "pods" := pods, "requests.storage" := storage]
  }

  function TierHard(tier: string): Quantities
    requires KnownTier(tier)
  {
    if tier == FREE then Hard(500, 1 * GIB, 20 * 1000, 10 * GIB)
    else if tier == PRO then Hard(4 * 1000, 8 * GIB, 100 * 1000, 100 * GIB)
    else Hard(8 * 1000, 16 * GIB, 200 * 1000, 200 * GIB)
  }

  function QuotaKey(ns: string, tier: string): Key { Key(QuotaKind, ns, "tenant-quota-" + tier) }

  function BuildQuota(t: Tenant): Desired
    requires KnownTier(t.spec.tier)
  {
    Desired(QuotaKey(NamespaceOf(t), t.spec.tier), ResourceQuota(OwnedBy(t), TierHard(t.spec.tier)))
  }

  const EDIT := ["get", "list", "watch", "create", "update", "patch", "delete"]
  const EDIT_ALL := EDIT + ["deletecollection"]

  const ADMIN_CORE := ["pods", "pods/log", "pods/status", "pods/exec", "services", "services/proxy", "endpoints",
                       "configmaps", "secrets", "serviceaccounts", "events", "limitranges", "podtemplates"]
  const ADMIN_APPS := ["deployments", "deployments/scale", "deployments/status",
                       "replicasets", "replicasets/scale", "replicasets/status",
                       "daemonsets", "daemonsets/status",
                       "statefulsets", "statefulsets/scale", "statefulsets/status"]
  const ADMIN_BATCH := ["jobs", "jobs/status", "cronjobs", "cronjobs/status"]
  const OPERATOR_CORE := ["pods", "pods/log", "pods/status", "pods/exec", "services", "endpoints",
                          "configmaps", "secrets", "events"]
  const OPERATOR_APPS := ["deployments", "deployments/scale", "deployments/status",
                          "replicasets", "replicasets/scale"]
  const OPERATOR_BATCH := ["jobs", "jobs/status"]

  function AdminRules(): seq<Rule> {
    [ Rule([""], ADMIN_CORE, EDIT_ALL, []),
      Rule(["apps"], ADMIN_APPS, EDIT_ALL, []),
      Rule(["batch"], ADMIN_BATCH, EDIT_ALL, []),
      Rule(["autoscaling"], ["horizontalpodautoscalers"], EDIT, []),
      Rule([""], ["bindings"], ["create"], []) ]
  }

  function OperatorRules(): seq<Rule> {
    [ Rule([""], OPERATOR_CORE, EDIT, []),
      Rule(["apps"], OPERATOR_APPS, EDIT, []),
      Rule(["batch"], OPERATOR_BATCH, EDIT, []) ]
  }

  function BuildRole(t: Tenant, suffix: string, rules: seq<Rule>): Desired {
    Desired(Key(RoleKind, NamespaceOf(t), "tenant-" + t.name + suffix), Role(OwnedBy(t), rules))
  }

  function BuildBinding(t: Tenant, role: string, group: string): Desired {
    Desired(Key(RoleBindingKind, NamespaceOf(t), "tenant-" + t.name + role + "-binding"),
            RoleBinding(OwnedBy(t),
                        [Subject("Group", "rbac.authorization.k8s.io", "tenant-" + t.name + group)],
                        RoleRef("rbac.authorization.k8s.io", "Role", "tenant-" + t.name + role)))
  }

  function BuildNetworkPolicy(cfg: Config, t: Tenant): Desired {
    var ingress := [Traffic([Pods(map[])], []),
                    Traffic([PodsIn(map["name" := "k8s-mtp"], map[cfg.platformAccessLabel := "true"])], [])];
    var egress := [Traffic([Pods(map[])], []),
                   Traffic([Namespaces(map["name" := "kube-system"])], [Port("UDP", 53), Port("TCP", 53)]),
                   Traffic([Namespaces(map["name" := "k8s-mtp"])], [])];
    Desired(Key(NetworkPolicyKind, NamespaceOf(t), "tenant-isolation"),
            NetworkPolicy(OwnedBy(t), ["Ingress", "Egress"], ingress,
                          if cfg.tenantEgressPolicy == "internet" then egress + [Traffic([Block("0.0.0.0/0")], [])]
                          else egress))
  }

  function TierDefaults(cfg: Config, tier: string): Defaults {
    if tier == FREE then cfg.free else if tier == PRO then cfg.pro else if tier == ENTERPRISE then cfg.enterprise
    else Defaults(100, 128 * MIB)
  }

  function BuildLimitRange(cfg: Config, t: Tenant): Desired {
    var d := TierDefaults(cfg, t.spec.tier);
    var amounts := map["cpu" := d.cpu, "memory" := d.memory];
    Desired(Key(LimitRangeKind, NamespaceOf(t), "tenant-defaults"),
            LimitRange(OwnedBy(t), [LimitItem("Container", amounts, amounts)]))
  }

  /** What one reconcile does about objects and status, in order.  For a tier nobody knows, the quota
      builder returns nil and creating it panics. */
  datatype Action = Ensure(d: Desired) | MarkActive | Panic

  function Plan(cfg: Config, t: Tenant): (plan: seq<Action>)
    ensures |plan| == 9
  {
    [ Ensure(BuildNamespace(t)),
      if KnownTier(t.spec.tier) then Ensure(BuildQuota(t)) else Panic,
      Ensure(BuildRole(t, "-admin", AdminRules())),
      Ensure(BuildRole(t, "-operator", OperatorRules())),
      Ensure(BuildBinding(t, "-admin", "-admins")),
      Ensure(BuildBinding(t, "-operator", "-operators")),
      MarkActive,
      Ensure(BuildNetworkPolicy(cfg, t)),
      Ensure(BuildLimitRange(cfg, t)) ]
  }

  // ---------------------------------------------------------------- createOrUpdate in atomic steps

  datatype Attempt = Creating | Reading | Writing(seen: Stored) | Finished(outcome: Outcome)
  datatype Outcome = Created | LeftAlone(seen: Stored) | Replaced(seen: Stored) | Failed

  ghost predicate Acceptable(current: Object, desired: Object) {
    current.Kind() == desired.Kind() && Kept(current, desired)
  }

  /** One request to the server.  The read goes to a cache that may lag behind: `view`. */
  ghost function AttemptStep(s: Server, view: Server, a: Attempt, d: Desired): (Server, Attempt) {
    match a
    case Creating =>
      var (s', reply) := Create(s, d);
      (s', if reply.Done? then Finished(Created) else if reply.AlreadyExists? then Reading else Finished(Failed))
    case Reading =>
      if d.key !in view.objects then (s, Finished(Failed))
      else
        var seen := view.objects[d.key];
        (s, if Acceptable(seen.obj, d.obj) then Finished(LeftAlone(seen)) else Writing(seen))
    case Writing(seen) =>
      var (s', reply) := Update(s, d, seen.version);
      (s', if reply.Done? then Finished(Replaced(seen)) else Finished(Failed))
    case Finished(_) => (s, a)
  }

  // ---------------------------------------------------------------- Reconcile in atomic steps

  datatype World = World(server: Server, db: Store.Tables)

  datatype Pc =
    | Start
    | Purging(t: Tenant)             // next: Store.DeleteTenant
    | Releasing(t: Tenant)           // next: Update without the finalizer
    | Claiming(t: Tenant)            // next: Update with the finalizer
    | Looking(t: Tenant)             // next: Store.GetTenantByID
    | Inserting(t: Tenant)           // next: Store.CreateTenant
    | Refreshing(t: Tenant)          // next: Store.UpdateTenant
    | Providing(t: Tenant, i: nat, a: Attempt)
    | Succeeded(requeue: bool)
    | Broken

  function Without(list: seq<string>, s: string): seq<string> {
    if list == [] then []
    else Without(list[..|list|-1], s) + (if list[|list|-1] != s then [list[|list|-1]] else [])
  }

  function Onward(t: Tenant, i: nat): Pc {
    if i < 9 then Providing(t, i, Creating) else Succeeded(false)
  }

  ghost function ProvideStep(cfg: Config, w: World, view: Server, t: Tenant, i: nat, a: Attempt): (World, Pc) {
    if i >= 9 then (w, Succeeded(false))
    else
      match Plan(cfg, t)[i]
      case Panic => (w, Broken)
      case MarkActive =>
        var (s, reply) := UpdateStatus(w.server, t.(status := Status("Active", NamespaceOf(t))));
        (w.(server := s), if reply.Done? then Onward(t, i+1) else Broken)
      case Ensure(d) =>
        var (s, a') := AttemptStep(w.server, view, a, d);
        (w.(server := s),
         if !a'.Finished? then Providing(t, i, a')
         else if a'.outcome.Failed? then Broken else Onward(t, i+1))
  }

  /** One atomic step of the worker for `name`, reading from `view` and writing to `w`. */
  ghost function Advance(cfg: Config, w: World, view: Server, now: nat, name: string, pc: Pc): (World, Pc) {
    match pc
    case Start =>
      (w, if name !in view.tenants then Succeeded(false)
          else
            var t := view.tenants[name];
            if t.deleting then Purging(t) else if FINALIZER !in t.finalizers then Claiming(t) else Looking(t))
    case Purging(t) =>
      (w.(db := Store.SoftDelete(w.db, now, t.uid)), Releasing(t))
    case Releasing(t) =>
      var (s, reply) := UpdateTenant(w.server, t.(finalizers := Without(t.finalizers, FINALIZER)));
      (w.(server := s), if reply.Done? then Succeeded(false) else Broken)
    case Claiming(t) =>
      var (s, reply) := UpdateTenant(w.server, t.(finalizers := t.finalizers + [FINALIZER]));
      (w.(server := s), if reply.Done? then Succeeded(true) else Broken)
    case Looking(t) =>
      (w, if Store.Live(w.db, t.uid) then Refreshing(t) else Inserting(t))
    case Inserting(t) =>
      var (db, result) := Store.Insert(w.db, now, t.uid, t.spec, t.status.namespace);
      (w.(db := db), if result.Violated? then Broken else Onward(t, 0))
    case Refreshing(t) =>
      var (db, ok) := Store.Refresh(w.db, now, t.uid, t.spec);
      (w.(db := db), if ok then Onward(t, 0) else Broken)
    case Providing(t, i, a) => ProvideStep(cfg, w, view, t, i, a)
    case Succeeded(_) => (w, pc)
    case Broken => (w, pc)
  }

  /** The worker alone, reading a cache that is up to date; `nows` are the database's clock readings. */
  ghost function Alone(cfg: Config, w: World, name: string, pc: Pc, nows: seq<nat>): (World, Pc) {
    if nows == [] then (w, pc)
    else
      var (w', pc') := Alone(cfg, w, name, pc, nows[..|nows|-1]);
      Advance(cfg, w', w'.server, nows[|nows|-1], name, pc')
  }

  /** Alone, the worker gets from (w, pc) to (w', pc'). */
  ghost predicate Leads(cfg: Config, name: string, w: World, pc: Pc, w': World, pc': Pc) {
    exists nows :: Alone(cfg, w, name, pc, nows) == (w', pc')
  }

  lemma LeadsNowhere(cfg: Config, name: string, w: World, pc: Pc)
    ensures Leads(cfg, name, w, pc, w, pc)
  {
    assert Alone(cfg, w, name, pc, []) == (w, pc);
  }

  lemma LeadsStep(cfg: Config, name: string, w: World, pc: Pc, w': World, pc': Pc, now: nat)
    requires Leads(cfg, name, w, pc, w', pc')
    ensures var (w'', pc'') := Advance(cfg, w', w'.server, now, name, pc'); Leads(cfg, name, w, pc, w'', pc'')
  {
    hide Advance;
    var nows :| Alone(cfg, w, name, pc, nows) == (w', pc');
    assert (nows + [now])[..|nows|] == nows;
    assert Alone(cfg, w, name, pc, nows + [now]) == Advance(cfg, w', w'.server, now, name, pc');
  }

  /** One uninterrupted reconcile gets from `w` to `w'`, having arrived at `pc'`. */
  ghost predicate Reaches(cfg: Config, w: World, name: string, w': World, pc': Pc) {
    Leads(cfg, name, w, Start, w', pc')
  }

  // ---------------------------------------------------------------- finalizers

  /** Removing a finalizer keeps every other one, in order: a strictly increasing choice of positions
      covers exactly the other finalizers. */
  lemma {:induction false} WithoutKeepsOthersInOrder(list: seq<string>, s: string) returns (at: seq<nat>)
    ensures |at| == |Without(list, s)|
    ensures forall k | 0 <= k < |at| :: at[k] < |list| && list[at[k]] == Without(list, s)[k] != s
    ensures forall k, l | 0 <= k < l < |at| :: at[k] < at[l]
    ensures forall p | 0 <= p < |list| && list[p] != s :: p in at
  {
    if list == [] {
      at := [];
    } else {
      var n := |list| - 1;
      at := WithoutKeepsOthersInOrder(list[..n], s);
      if list[n] != s {
        at := at + [n];
        assert at[|at|-1] == n;
      }
    }
  }

  lemma {:induction false} WithoutRemoves(list: seq<string>, s: string)
    ensures s !in Without(list, s)
    ensures forall x | x != s :: x in Without(list, s) <==> x in list
  {
    if list != [] {
      var n := |list| - 1;
      WithoutRemoves(list[..n], s);
      assert list == list[..n] + [list[n]];
    }
  }

  method RemoveString(slice: seq<string>, s: string) returns (result: seq<string>)
    ensures result == Without(slice, s)
  {
    result := [];
    for i := 0 to |slice|
      invariant result == Without(slice[..i], s)
    {
      assert slice[..i+1][..i] == slice[..i];
      if slice[i] != s {
        result := result + [slice[i]];
      }
    }
    assert slice[..|slice|] == slice;
  }
}
