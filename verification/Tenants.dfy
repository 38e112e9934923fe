/** The Tenant custom resource (pkg/api/v1/types.go) and an option type. */
module Tenants {
  datatype Option<+T> = None | Some(value: T)

  datatype Spec = Spec(name: string, tier: string, ownerEmail: string)
  datatype Status = Status(phase: string, namespace: string)

  /** `version` is the resource version of the copy; `deleting` says that a deletion timestamp is set. */
  datatype Tenant = Tenant(name: string, uid: string, version: nat, finalizers: seq<string>, deleting: bool,
                           spec: Spec, status: Status)

  const FREE := "free"
  const PRO := "pro"
  const ENTERPRISE := "enterprise"

  /** The tiers the CRD schema admits. */
  predicate KnownTier(tier: string) { tier == FREE || tier == PRO || tier == ENTERPRISE }
}
