/** What the network policy of a tenant lets through, by the meaning Kubernetes gives to network policies: a pod
    that some policy selects may take only what one of them opens.  Every policy here selects all pods of its
    namespace, as the reconciler's does.  0.0.0.0/0 is taken to match every address, those of pods included. */
module Isolation {
  import opened Objects
  import opened Drift
  import opened Tenants
  import opened ApiServer
  import opened Reconciler
  import opened Convergence
  import opened Footprint

  // ---------------------------------------------------------------- the meaning of a policy

  datatype Endpoint = PodIn(namespace: string, labels: map<string, string>) | Outside

  function LabelsOf(s: Server, ns: string): map<string, string> {
    if NamespaceKey(ns) in s.objects then s.objects[NamespaceKey(ns)].obj.meta.labels else map[]
  }

  predicate PeerIs(s: Server, ns: string, peer: Peer, e: Endpoint) {
    match peer
    case Pods(l) => e.PodIn? && e.namespace == ns && Selects(l, e.labels)
    case Namespaces(nl) => e.PodIn? && Selects(nl, LabelsOf(s, e.namespace))
    case PodsIn(nl, l) => e.PodIn? && Selects(nl, LabelsOf(s, e.namespace)) && Selects(l, e.labels)
    case Block(cidr) => cidr == "0.0.0.0/0"
  }

  /** No peers are all peers, and no ports all ports. */
  predicate Opens(s: Server, ns: string, t: Traffic, e: Endpoint, p: Port) {
    && (t.peers == [] || exists i | 0 <= i < |t.peers| :: PeerIs(s, ns, t.peers[i], e))
    && (t.ports == [] || p in t.ports)
  }

  predicate OpensOne(s: Server, ns: string, list: seq<Traffic>, e: Endpoint, p: Port) {
    exists i | 0 <= i < |list| :: Opens(s, ns, list[i], e, p)
  }

  ghost predicate Guards(s: Server, k: Key, ns: string, direction: string) {
    && k in s.objects && k.kind == NetworkPolicyKind && k.namespace == ns
    && s.objects[k].obj.NetworkPolicy? && direction in s.objects[k].obj.policyTypes
  }

  ghost predicate MayEnter(s: Server, ns: string, from: Endpoint, p: Port) {
    || (forall k :: !Guards(s, k, ns, "Ingress"))
    || exists k :: Guards(s, k, ns, "Ingress") && OpensOne(s, ns, s.objects[k].obj.ingress, from, p)
  }

  ghost predicate MayLeave(s: Server, ns: string, to: Endpoint, p: Port) {
    || (forall k :: !Guards(s, k, ns, "Egress"))
    || exists k :: Guards(s, k, ns, "Egress") && OpensOne(s, ns, s.objects[k].obj.egress, to, p)
  }

  /** A connection needs leave at both ends. */
  ghost predicate Flows(s: Server, from: Endpoint, to: Endpoint, p: Port) {
    && (from.PodIn? ==> MayLeave(s, from.namespace, to, p))
    && (to.PodIn? ==> MayEnter(s, to.namespace, from, p))
  }

  // ---------------------------------------------------------------- the reconciler's policy

  ghost predicate NoOtherPolicies(s: Server, t: Tenant) {
    forall k | k in s.objects && k.kind == NetworkPolicyKind && k.namespace == NamespaceOf(t) ::
      k == Key(NetworkPolicyKind, NamespaceOf(t), "tenant-isolation")
  }

  ghost predicate Fenced(cfg: Config, s: Server, t: Tenant) {
    var d := BuildNetworkPolicy(cfg, t);
    d.key in s.objects && s.objects[d.key].obj == d.obj && NoOtherPolicies(s, t)
  }

  predicate Labelled(labels: map<string, string>, k: string, v: string) { k in labels && labels[k] == v }

  lemma SelectsOne(k: string, v: string, labels: map<string, string>)
    ensures Selects(map[k := v], labels) <==> Labelled(labels, k, v)
    ensures Selects(map[], labels)
  {
  }

  /** The one policy decides. */
  lemma OnePolicyDecides(cfg: Config, s: Server, t: Tenant, e: Endpoint, p: Port)
    requires Fenced(cfg, s, t)
    ensures var policy := BuildNetworkPolicy(cfg, t).obj;
            && (MayEnter(s, NamespaceOf(t), e, p) <==> OpensOne(s, NamespaceOf(t), policy.ingress, e, p))
            && (MayLeave(s, NamespaceOf(t), e, p) <==> OpensOne(s, NamespaceOf(t), policy.egress, e, p))
  {
    hide NamespaceOf, OpensOne;
    var ns, k := NamespaceOf(t), Key(NetworkPolicyKind, NamespaceOf(t), "tenant-isolation");
    var policy := s.objects[k].obj;
    assert policy.policyTypes[0] == "Ingress" && policy.policyTypes[1] == "Egress";
    assert Guards(s, k, ns, "Ingress") && Guards(s, k, ns, "Egress");
    assert forall k' :: Guards(s, k', ns, "Ingress") || Guards(s, k', ns, "Egress") ==> k' == k;
  }

  lemma OnePeer(s: Server, ns: string, t: Traffic, e: Endpoint, p: Port)
    requires |t.peers| == 1
    ensures Opens(s, ns, t, e, p) <==> PeerIs(s, ns, t.peers[0], e) && (t.ports == [] || p in t.ports)
  {
  }

  lemma OpensFirstOrRest(s: Server, ns: string, first: Traffic, rest: seq<Traffic>, e: Endpoint, p: Port)
    ensures OpensOne(s, ns, [first] + rest, e, p) <==> Opens(s, ns, first, e, p) || OpensOne(s, ns, rest, e, p)
    ensures !OpensOne(s, ns, [], e, p)
  {
    hide Opens;
    var all := [first] + rest;
    if Opens(s, ns, first, e, p) { assert Opens(s, ns, all[0], e, p); }
    if i :| 0 <= i < |rest| && Opens(s, ns, rest[i], e, p) { assert all[i+1] == rest[i]; }
    if i :| 0 <= i < |all| && Opens(s, ns, all[i], e, p) { assert i > 0 ==> all[i] == rest[i-1]; }
  }

  /** Who may come in: pods of the namespace itself, and pods of the platform's that carry the access label. */
  lemma IngressIs(cfg: Config, s: Server, t: Tenant, e: Endpoint, p: Port)
    requires Fenced(cfg, s, t)
    ensures MayEnter(s, NamespaceOf(t), e, p) <==>
              e.PodIn? && (e.namespace == NamespaceOf(t)
                           || (Labelled(LabelsOf(s, e.namespace), "name", "k8s-mtp")
                               && Labelled(e.labels, cfg.platformAccessLabel, "true")))
  {
    hide NamespaceOf, LabelsOf, Opens, OpensOne, Fenced, MayEnter;
    var ns := NamespaceOf(t);
    var a := Traffic([Pods(map[])], []);
    var b := Traffic([PodsIn(map["name" := "k8s-mtp"], map[cfg.platformAccessLabel := "true"])], []);
    OnePolicyDecides(cfg, s, t, e, p);
    OpensFirstOrRest(s, ns, a, [b], e, p);
    OpensFirstOrRest(s, ns, b, [], e, p);
    assert BuildNetworkPolicy(cfg, t).obj.ingress == [a] + [b] && [b] == [b] + [];
    OnePeer(s, ns, a, e, p);
    OnePeer(s, ns, b, e, p);
    if e.PodIn? {
      SelectsOne("name", "k8s-mtp", LabelsOf(s, e.namespace));
      SelectsOne(cfg.platformAccessLabel, "true", e.labels);
    }
  }

  /** Where one may go: to pods of the namespace itself, to the cluster's name service, to the platform -- and
      to any address if and only if the configuration says so. */
  lemma EgressIs(cfg: Config, s: Server, t: Tenant, e: Endpoint, p: Port)
    requires Fenced(cfg, s, t)
    ensures MayLeave(s, NamespaceOf(t), e, p) <==>
              || cfg.tenantEgressPolicy == "internet"
              || (e.PodIn? && e.namespace == NamespaceOf(t))
              || (e.PodIn? && Labelled(LabelsOf(s, e.namespace), "name", "kube-system")
                  && (p == Port("UDP", 53) || p == Port("TCP", 53)))
              || (e.PodIn? && Labelled(LabelsOf(s, e.namespace), "name", "k8s-mtp"))
  {
    hide NamespaceOf, LabelsOf, Opens, OpensOne, Fenced, MayLeave;
    var ns := NamespaceOf(t);
    var own, dns := Traffic([Pods(map[])], []), Traffic([Namespaces(map["name" := "kube-system"])], [Port("UDP", 53), Port("TCP", 53)]);
    var platform, any := Traffic([Namespaces(map["name" := "k8s-mtp"])], []), Traffic([Block("0.0.0.0/0")], []);
    var last := if cfg.tenantEgressPolicy == "internet" then [any] else [];
    OnePolicyDecides(cfg, s, t, e, p);
    OpensFirstOrRest(s, ns, own, [dns] + ([platform] + last), e, p);
    OpensFirstOrRest(s, ns, dns, [platform] + last, e, p);
    OpensFirstOrRest(s, ns, platform, last, e, p);
    OpensFirstOrRest(s, ns, any, [], e, p);
    assert BuildNetworkPolicy(cfg, t).obj.egress == [own] + ([dns] + ([platform] + last)) && [any] == [any] + [];
    OnePeer(s, ns, own, e, p);
    OnePeer(s, ns, dns, e, p);
    OnePeer(s, ns, platform, e, p);
    OnePeer(s, ns, any, e, p);
    if e.PodIn? {
      SelectsOne("name", "kube-system", LabelsOf(s, e.namespace));
      SelectsOne("name", "k8s-mtp", LabelsOf(s, e.namespace));
    }
  }

  /** A reconcile that finds no policy, or one that it replaces, fences the tenant in. */
  lemma SuccessFencesIn(cfg: Config, w: World, goal: Tenant, w': World, requeue: bool)
    requires goal.name in w.server.tenants && w.server.tenants[goal.name] == goal && Active(goal)
    requires Reaches(cfg, w, goal.name, w', Succeeded(requeue))
    requires !Settled(w.server, BuildNetworkPolicy(cfg, goal)) && NoOtherPolicies(w.server, goal)
    ensures Fenced(cfg, w'.server, goal)
  {
    FootprintIsExact(cfg, w, goal, w', Succeeded(requeue));
    var d := BuildNetworkPolicy(cfg, goal);
    assert Plan(cfg, goal)[7] == Ensure(d) && d.key == Key(NetworkPolicyKind, NamespaceOf(goal), "tenant-isolation");
    hide Plan, Reaches, Settled, BuildNetworkPolicy;
    assert ContentAt(w'.server, d.key) == Some(Target(w.server, d));
    forall k | k in w'.server.objects && k.kind == NetworkPolicyKind && k.namespace == NamespaceOf(goal)
      ensures k == d.key
    {
      if InPlan(cfg, goal, k) {
        PolicyInPlan(cfg, goal, k);
      } else {
        assert SameAt(w.server, w'.server, k);
      }
    }
  }

  lemma PolicyInPlan(cfg: Config, t: Tenant, k: Key)
    requires InPlan(cfg, t, k) && k.kind == NetworkPolicyKind
    ensures k == BuildNetworkPolicy(cfg, t).key
  {
    var i :| 0 <= i < 9 && Plan(cfg, t)[i].Ensure? && Plan(cfg, t)[i].d.key == k;
  }

  /** No pod of one tenant reaches a pod of another that is fenced in, under any configuration, on any port and
      whatever labels either carries -- while the first one's namespace has the labels it should. */
  lemma TenantsAreIsolated(cfg: Config, s: Server, a: Tenant, b: Tenant, from: Endpoint, to: Endpoint, p: Port)
    requires NamespaceOf(a) != NamespaceOf(b) && Fenced(cfg, s, b) && Settled(s, BuildNamespace(a))
    requires from.PodIn? && from.namespace == NamespaceOf(a) && to.PodIn? && to.namespace == NamespaceOf(b)
    ensures !Flows(s, from, to, p)
  {
    var d := BuildNamespace(a);
    MapComparisonExact(s.objects[d.key].obj.meta.labels, d.obj.meta.labels, "");
    assert LabelsOf(s, from.namespace) == map["tenant.k8s-mtp.io/managed" := "true"];
    hide Settled, Fenced;
    IngressIs(cfg, s, b, from, p);
  }
}
