/** The cluster objects a tenant owns, with the fields the reconciler reads or writes.
    Quantities are whole thousandths, so "500m" is 500 and "1Gi" is 1024 * 1024 * 1024 * 1000. */
module Objects {

  datatype OwnerRef = OwnerRef(apiVersion: string, kind: string, name: string, uid: string)
  datatype Meta = Meta(labels: map<string, string>, annotations: map<string, string>, owners: seq<OwnerRef>)

  datatype Rule = Rule(apiGroups: seq<string>, resources: seq<string>, verbs: seq<string>,
                       resourceNames: seq<string>)
  datatype Subject = Subject(kind: string, apiGroup: string, name: string)
  datatype RoleRef = RoleRef(apiGroup: string, kind: string, name: string)

  datatype Peer =
    | Pods(podLabels: map<string, string>)
    | Namespaces(namespaceLabels: map<string, string>)
    | PodsIn(namespaceLabels: map<string, string>, podLabels: map<string, string>)
    | Block(cidr: string)
  datatype Port = Port(protocol: string, number: int)
  datatype Traffic = Traffic(peers: seq<Peer>, ports: seq<Port>)

  type Quantities = map<string, int>
  datatype LimitItem = LimitItem(kind: string, default: Quantities, defaultRequest: Quantities)

  datatype Kind = NamespaceKind | QuotaKind | RoleKind | RoleBindingKind | NetworkPolicyKind | LimitRangeKind

  datatype Object =
    | Namespace(meta: Meta)
    | ResourceQuota(meta: Meta, hard: Quantities)
    | Role(meta: Meta, rules: seq<Rule>)
    | RoleBinding(meta: Meta, subjects: seq<Subject>, roleRef: RoleRef)
    | NetworkPolicy(meta: Meta, policyTypes: seq<string>, ingress: seq<Traffic>, egress: seq<Traffic>)
    | LimitRange(meta: Meta, limits: seq<LimitItem>)
  {
    function Kind(): Kind {
      match this
      case Namespace(_) => NamespaceKind
      case ResourceQuota(_, _) => QuotaKind
      case Role(_, _) => RoleKind
      case RoleBinding(_, _, _) => RoleBindingKind
      case NetworkPolicy(_, _, _, _) => NetworkPolicyKind
      case LimitRange(_, _) => LimitRangeKind
    }
  }

  /** A label selector with matchLabels only. */
  predicate Selects(selector: map<string, string>, labels: map<string, string>) {
    forall k | k in selector :: k in labels && labels[k] == selector[k]
  }
}
