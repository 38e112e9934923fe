/** What changing a tenant's tier does to its quotas over a whole history: every tier has a quota object
    of its own, none is ever removed, and the tightest of them rules. */
module Quotas {
  import opened Objects
  import opened Drift
  import opened Tenants
  import opened ApiServer
  import opened Reconciler
  import opened Convergence
  import opened Footprint

  /** Quota keys of other tiers are outside the plan; so are those of names no tier has. */
  lemma OtherQuotasAreOutside(cfg: Config, t: Tenant, k: Key)
    requires k.kind == QuotaKind && (KnownTier(t.spec.tier) ==> k != QuotaKey(NamespaceOf(t), t.spec.tier))
    ensures !InPlan(cfg, t, k)
  {
    forall i | 0 <= i < 9 && Plan(cfg, t)[i].Ensure? ensures Plan(cfg, t)[i].d.key != k {
      if i == 1 {
        assert Plan(cfg, t)[1].d == BuildQuota(t);
      }
    }
  }

  // ---------------------------------------------------------------- histories of tier changes

  ghost predicate IsQuotaKey(ns: string, k: Key) { k.kind == QuotaKind && k.namespace == ns }

  /** Between two rounds anything may happen, to the tenant, the tables and every object, except that nobody
      touches the quotas of this namespace. */
  ghost predicate SameQuotas(a: Server, b: Server, ns: string) {
    forall k | IsQuotaKey(ns, k) :: SameAt(a, b, k)
  }

  /** Somebody sets the tier, and a reconcile succeeds. */
  ghost predicate Round(cfg: Config, ns: string, before: World, tier: string, after: World) {
    exists m: World, goal: Tenant, requeue: bool ::
      && SameQuotas(before.server, m.server, ns)
      && goal.name in m.server.tenants && m.server.tenants[goal.name] == goal && Active(goal)
      && NamespaceOf(goal) == ns && goal.spec.tier == tier
      && Reaches(cfg, m, goal.name, after, Succeeded(requeue))
  }

  ghost predicate History(cfg: Config, ns: string, worlds: seq<World>, tiers: seq<string>) {
    && |worlds| == |tiers| + 1
    && forall i | 0 <= i < |tiers| :: Round(cfg, ns, worlds[i], tiers[i], worlds[i+1])
  }

  ghost predicate IsQuotaIn(s: Server, ns: string, k: Key) { k in s.objects && IsQuotaKey(ns, k) }

  /** The quota objects of the namespace are exactly those of these tiers, each with its tier's limits. */
  ghost predicate QuotasAre(s: Server, ns: string, tiers: seq<string>) {
    && (forall tier | tier in tiers :: KnownTier(tier) && QuotaIsSet(s, ns, tier))
    && (forall k | IsQuotaIn(s, ns, k) :: exists tier | tier in tiers :: k == QuotaKey(ns, tier))
  }

  ghost predicate QuotaIsSet(s: Server, ns: string, tier: string)
    requires KnownTier(tier)
  {
    var k := QuotaKey(ns, tier);
    k in s.objects && s.objects[k].obj.ResourceQuota? && s.objects[k].obj.hard == TierHard(tier)
  }

  lemma SettledQuotaIsExact(s: Server, t: Tenant)
    requires KnownTier(t.spec.tier) && Settled(s, BuildQuota(t))
    ensures QuotaIsSet(s, NamespaceOf(t), t.spec.tier)
  {
    var k := QuotaKey(NamespaceOf(t), t.spec.tier);
    assert s.objects[k].obj.ResourceQuota?;
    MapComparisonExact(s.objects[k].obj.hard, TierHard(t.spec.tier), 0);
  }

  /** A round sets the quota of its tier and leaves every other quota of the namespace as it was. */
  lemma RoundSetsOneQuota(cfg: Config, ns: string, before: World, tier: string, after: World)
    requires Round(cfg, ns, before, tier, after)
    ensures KnownTier(tier) && QuotaIsSet(after.server, ns, tier)
    ensures forall k: Key | IsQuotaKey(ns, k) && k != QuotaKey(ns, tier) :: SameAt(before.server, after.server, k)
  {
    var m: World, goal: Tenant, requeue: bool :|
      && SameQuotas(before.server, m.server, ns)
      && goal.name in m.server.tenants && m.server.tenants[goal.name] == goal && Active(goal)
      && NamespaceOf(goal) == ns && goal.spec.tier == tier
      && Reaches(cfg, m, goal.name, after, Succeeded(requeue));
    SuccessProvidesEverything(cfg, m, goal, after, requeue);
    assert Settled(after.server, BuildQuota(goal)) by {
      assert Plan(cfg, goal)[1] == Ensure(BuildQuota(goal));
    }
    SettledQuotaIsExact(after.server, goal);
    hide Plan, Settled, Acceptable, NamespaceOf, TierHard, InPlan, Reaches;
    FootprintIsExact(cfg, m, goal, after, Succeeded(requeue));
    forall k: Key | IsQuotaKey(ns, k) && k != QuotaKey(ns, tier) ensures SameAt(before.server, after.server, k) {
      OtherQuotasAreOutside(cfg, goal, k);
      assert SameAt(before.server, m.server, k) && SameAt(m.server, after.server, k);
    }
  }

  lemma RoundAddsOneQuota(cfg: Config, ns: string, before: World, tiers: seq<string>, tier: string, after: World)
    requires QuotasAre(before.server, ns, tiers) && Round(cfg, ns, before, tier, after)
    ensures QuotasAre(after.server, ns, tiers + [tier])
  {
    hide Round, KnownTier, QuotaKey, TierHard;
    RoundSetsOneQuota(cfg, ns, before, tier, after);
    assert (tiers + [tier])[|tiers|] == tier;
    forall x | x in tiers + [tier] ensures KnownTier(x) && QuotaIsSet(after.server, ns, x) {
      if x != tier {
        assert x in tiers;
        TierKeysDiffer(ns, x, tier);
        QuotaKeyIsQuota(ns, x);
        assert SameAt(before.server, after.server, QuotaKey(ns, x));
      }
    }
    forall k | IsQuotaIn(after.server, ns, k) ensures exists x | x in tiers + [tier] :: k == QuotaKey(ns, x) {
      if k == QuotaKey(ns, tier) {
        assert tier in tiers + [tier];
      } else {
        assert SameAt(before.server, after.server, k);
        assert IsQuotaIn(before.server, ns, k);
        var x :| x in tiers && k == QuotaKey(ns, x);
        assert x in tiers + [tier];
      }
    }
  }

  lemma QuotaKeyIsQuota(ns: string, tier: string)
    ensures QuotaKey(ns, tier).kind == QuotaKind && QuotaKey(ns, tier).namespace == ns
  {
  }

  lemma TierKeysDiffer(ns: string, a: string, b: string)
    requires a != b
    ensures QuotaKey(ns, a) != QuotaKey(ns, b)
  {
    var prefix := "tenant-quota-";
    assert (prefix + a)[|prefix|..] == a && (prefix + b)[|prefix|..] == b;
  }

  /** The quota objects are exactly those of the tiers the tenant has ever had. */
  lemma {:induction false} QuotasAreTiersSeen(cfg: Config, ns: string, worlds: seq<World>, tiers: seq<string>)
    requires History(cfg, ns, worlds, tiers)
    requires forall k :: !IsQuotaIn(worlds[0].server, ns, k)
    ensures QuotasAre(worlds[|tiers|].server, ns, tiers)
  {
    hide QuotasAre, Round, History;
    HistoryPrefix(cfg, ns, worlds, tiers);
    if tiers == [] {
      NoQuotasYet(worlds[0].server, ns);
    } else {
      var n := |tiers| - 1;
      QuotasAreTiersSeen(cfg, ns, worlds[..n+1], tiers[..n]);
      RoundAddsOneQuota(cfg, ns, worlds[n], tiers[..n], tiers[n], worlds[n+1]);
      assert tiers[..n] + [tiers[n]] == tiers;
    }
  }

  lemma NoQuotasYet(s: Server, ns: string)
    requires forall k :: !IsQuotaIn(s, ns, k)
    ensures QuotasAre(s, ns, [])
  {
  }

  lemma HistoryPrefix(cfg: Config, ns: string, worlds: seq<World>, tiers: seq<string>)
    requires History(cfg, ns, worlds, tiers)
    ensures |worlds| == |tiers| + 1
    ensures tiers != [] ==>
              var n := |tiers| - 1;
              History(cfg, ns, worlds[..n+1], tiers[..n]) && Round(cfg, ns, worlds[n], tiers[n], worlds[n+1])
  {
    hide Round;
    if tiers != [] {
      var n := |tiers| - 1;
      forall i | 0 <= i < n ensures Round(cfg, ns, worlds[..n+1][i], tiers[..n][i], worlds[..n+1][i+1]) {
        assert Round(cfg, ns, worlds[i], tiers[i], worlds[i+1]);
      }
    }
  }

  // ---------------------------------------------------------------- the limit in force

  /** Kubernetes enforces every quota of a namespace: the least of their limits rules. */
  ghost predicate LimitInForce(s: Server, ns: string, resource: string, limit: int) {
    && (forall k | IsQuotaIn(s, ns, k) ::
          s.objects[k].obj.ResourceQuota? && resource in s.objects[k].obj.hard && limit <= s.objects[k].obj.hard[resource])
    && (exists k | IsQuotaIn(s, ns, k) ::
          s.objects[k].obj.ResourceQuota? && resource in s.objects[k].obj.hard && limit == s.objects[k].obj.hard[resource])
  }

  function Lower(a: string, b: string): string {
    if a == FREE || b == FREE then FREE else if a == PRO || b == PRO then PRO else ENTERPRISE
  }

  function LowestTier(tiers: seq<string>): string
    requires tiers != []
  {
    if |tiers| == 1 then tiers[0] else Lower(LowestTier(tiers[..|tiers|-1]), tiers[|tiers|-1])
  }

  const RESOURCES := {"cpu", "memory", "pods", "requests.storage"}

  lemma {:induction false} LowestIsLeast(tiers: seq<string>, resource: string)
    requires tiers != [] && (forall t | t in tiers :: KnownTier(t)) && resource in RESOURCES
    ensures LowestTier(tiers) in tiers
    ensures forall t | t in tiers :: TierHard(LowestTier(tiers))[resource] <= TierHard(t)[resource]
  {
    if |tiers| > 1 {
      var before, last := tiers[..|tiers|-1], tiers[|tiers|-1];
      assert tiers == before + [last];
      assert forall t | t in before :: t in tiers;
      assert last in tiers;
      LowestIsLeast(before, resource);
      assert TierHard(FREE)[resource] <= TierHard(PRO)[resource] <= TierHard(ENTERPRISE)[resource];
    }
  }

  /** Over every history of tier changes in one namespace, each followed by a successful reconcile: the
      limit in force is that of the lowest tier ever seen, so an upgrade never takes effect. */
  lemma {:induction false} LowestTierRules(cfg: Config, ns: string, worlds: seq<World>, tiers: seq<string>, resource: string)
    requires History(cfg, ns, worlds, tiers) && tiers != [] && resource in RESOURCES
    requires forall k :: !IsQuotaIn(worlds[0].server, ns, k)
    ensures forall t | t in tiers :: KnownTier(t)
    ensures LowestTier(tiers) in tiers
    ensures LimitInForce(worlds[|tiers|].server, ns, resource, TierHard(LowestTier(tiers))[resource])
    ensures TierHard(LowestTier(tiers))[resource] <= TierHard(tiers[|tiers|-1])[resource]
  {
    hide History, QuotasAre, LowestTier, TierHard, LimitInForce;
    HistoryPrefix(cfg, ns, worlds, tiers);
    QuotasAreTiersSeen(cfg, ns, worlds, tiers);
    LeastQuotaRules(worlds[|tiers|].server, ns, tiers, resource);
    assert tiers[|tiers|-1] in tiers;
  }

  lemma LeastQuotaRules(s: Server, ns: string, tiers: seq<string>, resource: string)
    requires QuotasAre(s, ns, tiers) && tiers != [] && resource in RESOURCES
    ensures (forall t | t in tiers :: KnownTier(t)) && LowestTier(tiers) in tiers
    ensures forall t | t in tiers :: resource in TierHard(t) && TierHard(LowestTier(tiers))[resource] <= TierHard(t)[resource]
    ensures LimitInForce(s, ns, resource, TierHard(LowestTier(tiers))[resource])
  {
    hide LowestTier, TierHard, KnownTier;
    assert forall t | t in tiers :: KnownTier(t);
    LowestIsLeast(tiers, resource);
    HardHas(resource);
    var lowest := LowestTier(tiers);
    assert QuotaIsSet(s, ns, lowest) && IsQuotaIn(s, ns, QuotaKey(ns, lowest));
  }

  lemma HardHas(resource: string)
    requires resource in RESOURCES
    ensures forall t | KnownTier(t) :: resource in TierHard(t)
  {
  }

  // ---------------------------------------------------------------- what a tier gets

  function Amounts(cfg: Config, tier: string): Defaults
    requires KnownTier(tier)
  {
    match tier
    case "free" => cfg.free
    case "pro" => cfg.pro
    case _ => cfg.enterprise
  }

  /** After a successful reconcile the quota named after the tier has the limits of the tier, to the unit, and
      the default limits of containers are those configured for the tier; where the limit range was missing or
      had to be replaced, so are the default requests. */
  lemma TierSetsLimits(cfg: Config, w: World, goal: Tenant, w': World, requeue: bool)
    requires goal.name in w.server.tenants && w.server.tenants[goal.name] == goal && Active(goal)
    requires Reaches(cfg, w, goal.name, w', Succeeded(requeue))
    ensures KnownTier(goal.spec.tier)
    ensures var gib, ns, tier, objects := 1024 * 1024 * 1024 * 1000, NamespaceOf(goal), goal.spec.tier, w'.server.objects;
            var quota := Key(QuotaKind, ns, "tenant-quota-" + tier);
            && quota in objects && objects[quota].obj.ResourceQuota?
            && objects[quota].obj.hard ==
                 match tier
                 case "free" => map["cpu" := 500, "memory" := gib, "pods" := 20_000, "requests.storage" := 10 * gib]
                 case "pro" => map["cpu" := 4_000, "memory" := 8 * gib, "pods" := 100_000, "requests.storage" := 100 * gib]
                 case _ => map["cpu" := 8_000, "memory" := 16 * gib, "pods" := 200_000, "requests.storage" := 200 * gib]
    ensures var objects, amounts := w'.server.objects, Amounts(cfg, goal.spec.tier);
            var k := Key(LimitRangeKind, NamespaceOf(goal), "tenant-defaults");
            && k in objects && objects[k].obj.LimitRange? && |objects[k].obj.limits| == 1
            && var item := objects[k].obj.limits[0];
            && Lookup(item.default, "cpu", 0) == amounts.cpu && Lookup(item.default, "memory", 0) == amounts.memory
            && (!Settled(w.server, BuildLimitRange(cfg, goal)) ==>
                  item == LimitItem("Container", map["cpu" := amounts.cpu, "memory" := amounts.memory],
                                    map["cpu" := amounts.cpu, "memory" := amounts.memory]))
  {
    SuccessProvidesEverything(cfg, w, goal, w', requeue);
    FootprintIsExact(cfg, w, goal, w', Succeeded(requeue));
    assert Plan(cfg, goal)[1] == Ensure(BuildQuota(goal)) && Plan(cfg, goal)[8] == Ensure(BuildLimitRange(cfg, goal));
    hide Plan, Reaches, InPlan, NamespaceOf;
    assert Settled(w'.server, BuildQuota(goal)) && Settled(w'.server, BuildLimitRange(cfg, goal));
    SettledQuotaIsExact(w'.server, goal);
    LimitRangeIs(cfg, w.server, w'.server, goal);
  }

  lemma LimitRangeIs(cfg: Config, s0: Server, s: Server, goal: Tenant)
    requires KnownTier(goal.spec.tier)
    requires var d := BuildLimitRange(cfg, goal); Settled(s, d) && ContentAt(s, d.key) == Some(Target(s0, d))
    ensures var amounts, k := Amounts(cfg, goal.spec.tier), Key(LimitRangeKind, NamespaceOf(goal), "tenant-defaults");
            && k in s.objects && s.objects[k].obj.LimitRange? && |s.objects[k].obj.limits| == 1
            && var item := s.objects[k].obj.limits[0];
            && Lookup(item.default, "cpu", 0) == amounts.cpu && Lookup(item.default, "memory", 0) == amounts.memory
            && (!Settled(s0, BuildLimitRange(cfg, goal)) ==>
                  item == LimitItem("Container", map["cpu" := amounts.cpu, "memory" := amounts.memory],
                                    map["cpu" := amounts.cpu, "memory" := amounts.memory]))
  {
    hide NamespaceOf;
    var d := BuildLimitRange(cfg, goal);
    var item, desired := s.objects[d.key].obj.limits[0], d.obj.limits[0];
    assert MapKept(item.default, desired.default, 0);
    assert "cpu" in desired.default && "memory" in desired.default;
  }
}
