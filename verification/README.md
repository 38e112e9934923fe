# k8s-mtp, verified

k8s-mtp gives every `Tenant` custom resource a Kubernetes namespace of its own, with a quota, two roles
and their bindings, a network policy and default limits; mirrors tenants and members in PostgreSQL; rate-limits its
REST API; and runs admission webhooks that it bootstraps itself.  This project models that logic in Dafny
and proves what it does, and exactly where it does something else than one would expect.

## How the model is laid out

| files | what they model |
|---|---|
| `RateLimiter.dfy` | the per-user token bucket: its arithmetic over whole histories, and the locked method |
| `Objects.dfy`, `Tenants.dfy`, `ApiServer.dfy` | owned objects, the custom resource, and what is assumed of the API server: atomic creates, version-guarded updates, no object without its namespace, a deleted resource that stays until its finalizers are gone |
| `Text.dfy`, `Drift.dfy` | split, join and sort on strings; the six comparisons that decide whether an object is rewritten |
| `TenantStore.dfy` | the two tables with their uniqueness, foreign-key and column-width rules, and the methods on them |
| `Reconciler.dfy`, `TenantReconciler.dfy` | the desired objects; the reconcile loop as a machine of atomic steps that may stop after any of them; the loop as methods whose calls may fail at any time unless the client and the store are reliable, each method proved to be a piece of the machine's run |
| `Convergence.dfy`, `Footprint.dfy` | what one uninterrupted reconcile achieves from any state, and exactly which objects it leaves how |
| `Grants.dfy`, `Access.dfy` | what a role grants that the comparison accepts, and who may do what in the end: groups, bindings and roles together |
| `Isolation.dfy` | what the network policy of a tenant lets through |
| `Quotas.dfy` | what tier changes do over time |
| `FinalizerProtocol.dfy`, `LostUpdate.dfy`, `Independence.dfy` | interleavings: many workers, users, stale caches and crashes; one createOrUpdate among arbitrary writers; two tenants at once |
| `Bootstrap.dfy` | any number of controllers running `EnsureAll` |
| `Coverage.dfy` | the namespaces of tenants against the webhooks that are to review them |
| `Numbers.dfy` | two facts about division |
| `Admission.dfy`, `Jwk.dfy` | the mutating webhook and its JSON Patch (RFC 6902, RFC 6901); the exponent of a JSON Web Key (RFC 7518) |

Where the source changes something in place the model does too: `Limiter` and `Bucket`, `Database`, `Client` and
`TenantReconciler`, `Server` and `WebhookManager` are classes, and the comparison loops are methods.  Each is
tied to a function on values, and the theorems are about those functions and all their runs.

## What the code does that its documentation does not say

- The README promises self-healing.  It is true of what the comparisons look at: `Convergence.ReconcileConverges`.
  A network policy is compared by three lengths (`Drift.NetworkPolicyDriftUnseenIff`), a limit range by its default
  limits (`Drift.LimitRangeSeesDefaultsOnly`), a role without its resource names, so that an
  accepted role may grant less than it should -- exactly when it does, says `Grants.AcceptedGrantsSameIff` -- but never
  more (`Grants.AcceptedGrantsNoMore`).
- A tier upgrade never takes effect: the old quota stays beside the new one (`Quotas.LowestTierRules`).
- A tenant can be Active before its network policy exists: exactly when it can, says
  `Convergence.ActiveMeansIsolatedIff`.
- A new row stores the namespace of a status that is still empty, in a unique column.  While one row holds the
  empty namespace no other tenant's first reconcile succeeds, save by finding its name taken
  (`Convergence.FirstReconcileHappensOnce`).
- A reconcile can succeed and leave the tenant without a row (`Convergence.SuccessRecordsTenantIff`).
- Two tenants share a namespace when a hyphen moves from one name to the other; a namespace belongs to one tenant
  exactly when neither name has a hyphen (`Admission.NamespaceIdentifiesTenantIff`).  Tenants that share one undo each
  other's reconciles for ever (`Convergence.ReconcilesUndoEachOther`).
- The label named tier never carries the tier: it is the second part of the metadata name if that has a hyphen, else
  the first part of the spec name.  All labels a pod had are lost, and the handler panics on a tenant namespace without a second hyphen (`Admission.LabelsOfBuiltNamespaces`,
  `Admission.PatchSetsTenantLabels`, `Admission.MutatePanicsIff`).
- Obeying `Retry-After` is no guarantee: for every configuration some obedient clients are denied again
  (`RateLimiter.ObedientClientsAreDenied`), and when the requests per minute divide sixty it never helps anybody
  (`RateLimiter.RetryAfterByConfiguration`).
- The README speaks of certificate rotation; `EnsureAll` never changes an existing object, so a webhook
  configuration with an old CA keeps it (`Bootstrap.StaleConfigurationsStay`).
- `pkg/api/v1/types.go` marks tenants as namespaced, the CRD manifest makes them cluster-scoped.  The model
  follows the manifest: one tenant per name.

## Model

| member | source | states |
|---|---|---|
| RateLimiter.Limiter.Limit | internal/middleware/ratelimit.go:38-69 | a request is admitted if and only if every stretch of its key's requests that ends with it, denied ones counted, fits into the burst plus what was refilled over the stretch; the log grows by exactly this request |
| RateLimiter.Limiter.constructor | internal/middleware/ratelimit.go:29-36 | starts with no buckets, an empty log and the rate per second |
| RateLimiter.Bucket.Take | internal/middleware/ratelimit.go:60-68 | the in-place update is the value-level charge, and the answer the sign of what is left |
| RateLimiter.HistoryTest | internal/middleware/ratelimit.go:54-69 | the constant-size bucket decides that same test over the whole history, for every request of every run over many keys |
| RateLimiter.DrainIsTightestSlack | internal/middleware/ratelimit.go:61-67 | the number in a bucket is the minimum, attained, of the room that all stretches leave |
| RateLimiter.KeysAreIndependent | internal/middleware/ratelimit.go:40-69 | no decision changes when all other keys' requests are deleted from the past |
| RateLimiter.AdmittedBoundsRequests | internal/middleware/ratelimit.go:54-69 | when the last request of a key is admitted, it bounds all its requests since any earlier one, denied ones included |
| RateLimiter.WindowBound | internal/middleware/ratelimit.go:54-69 | in every run over many keys, what is admitted of one key in any window never exceeds burst plus rate times the length of the window |
| RateLimiter.RecoveryTime | internal/middleware/ratelimit.go:60-68 | after a denial at tau < 0 the next request passes exactly from (1 - tau) / rate on, which is later than 1 / rate |
| RateLimiter.RetryAfterSuffices | internal/middleware/ratelimit.go:60-73 | after a denial, waiting for the announced seconds is enough if and only if no stretch of the key's history exceeds its allowance by more than what rounding 1 / rate up brings in |
| RateLimiter.ObedientClientsAreDenied | internal/middleware/ratelimit.go:60-73 | for every positive rate and burst there is a history that is denied, waits for the announced seconds, and is denied again |
| RateLimiter.RetryAfterHelpsIff | internal/middleware/ratelimit.go:60-73 | waiting for the announced seconds cures some denial if and only if 1 / rate is not what is announced, a whole number |
| RateLimiter.RetryAfterByConfiguration | internal/middleware/ratelimit.go:29-73 | in terms of the configured requests per minute: if and only if they do not divide sixty |
| RateLimiter.ImpatientIsLockedOut | internal/middleware/ratelimit.go:60-68 | in every run over many keys, a key that after a denial never pauses longer than 1 / rate is never admitted again |
| RateLimiter.SweepingIsInvisible | internal/middleware/ratelimit.go:27-68 | deleting buckets that would be full, at any times and any number of times, changes no decision of any later request |
| RateLimiter.OnlyFullLooksAbsent | internal/middleware/ratelimit.go:56-68 | exactly a full bucket is charged like one that was just made |
| Text.SplitAfterJoin | internal/reconciler/tenant_reconciler.go:688-690 | splitting undoes joining for non-empty lists of separator-free strings |
| Text.JoinAfterSplit | cmd/webhook/main.go:175-180 | joining undoes splitting, always |
| Text.SortSorts | internal/reconciler/tenant_reconciler.go:672-686 | the result of sorting is ordered and a permutation |
| Text.SortForgetsOrder | internal/reconciler/tenant_reconciler.go:672-686 | sorted lists are equal exactly when the lists are permutations of each other |
| Drift.MapDiffers | internal/reconciler/tenant_reconciler.go:231-238 | the length-plus-lookup loop, a missing key reading as the zero value |
| Drift.MapComparisonIsEqualityIff | internal/reconciler/tenant_reconciler.go:231-238 | that loop decides map equality for every current map if and only if no desired value is the zero value |
| Drift.OwnersDiffer | internal/reconciler/tenant_reconciler.go:240-259 | the nested loop: each desired reference is the first one of its UID, with equal version, kind and name, and the lengths agree |
| Drift.OwnerComparisonExact | internal/reconciler/tenant_reconciler.go:240-259 | with distinct UIDs in each list it accepts exactly equal sets of references |
| Drift.RulesDiffer | internal/reconciler/tenant_reconciler.go:363-391 | the two loops over maps of normal forms compare the two sets, and the numbers of rules |
| Drift.NormalFormExact | internal/reconciler/tenant_reconciler.go:671-691 | for separator-free strings and non-empty lists, equal normal forms mean equal groups, resources and verbs up to order, and conversely |
| Drift.RoleLeftAloneGrantsTheSame | internal/reconciler/tenant_reconciler.go:363-391 | a role left alone allows exactly the requests that the desired one allows, under those conditions and without resource names |
| Drift.ResourceNamesAreTheGap | internal/reconciler/tenant_reconciler.go:684-690 | two plain rules of one normal form grant the same if and only if their resource names are the same set |
| Grants.AcceptedGrantsNoMore | internal/reconciler/tenant_reconciler.go:363-391 | a role that is left alone never allows a request that the desired plain role does not, whatever is written in it |
| Grants.AcceptedGrantsSameIff | internal/reconciler/tenant_reconciler.go:363-391 | for a desired role whose rules neither overlap nor repeat: a role that is left alone grants the same if and only if all its rules are separator-free, without empty lists and without resource names |
| Grants.JoinedMisses | internal/reconciler/tenant_reconciler.go:688-690 | a list with commas or of no strings that joins to the same string as a plain one misses one of its strings |
| Drift.SeparatorsDeceive | internal/reconciler/tenant_reconciler.go:688-690 | two inputs, one with a comma and one with an empty list, that compare as equal and grant different things |
| Drift.PermutingNeverTriggers | internal/reconciler/tenant_reconciler.go:363-391 | permuting the rules, and the strings within each, never triggers an update |
| Drift.SubjectsDiffer | internal/reconciler/tenant_reconciler.go:404-417 | as many subjects, and every desired subject's key among the current ones |
| Drift.SubjectComparisonExact | internal/reconciler/tenant_reconciler.go:404-417 | for distinct desired subjects whose kind and group have no bar: exactly as many and the same subjects |
| Drift.LimitsDiffer | internal/reconciler/tenant_reconciler.go:474-489 | the loop over limit items compares their default limits position by position |
| Drift.LimitRangeSeesDefaultsOnly | internal/reconciler/tenant_reconciler.go:474-489 | for non-zero defaults it accepts exactly equal default limits, whatever the default requests |
| Drift.NetworkPolicyDriftUnseenIff | internal/reconciler/tenant_reconciler.go:458-472 | an accepted network policy equals the desired one, for every current one, if and only if there is nothing to compare |
| Drift.NeedsUpdate | internal/reconciler/tenant_reconciler.go:211-228 | the decision by kind, computed by the loops, against its specification; the rows below say, kind by kind, what that specification means |
| Drift.NamespaceComparisonExact | internal/reconciler/tenant_reconciler.go:230-270 | a namespace is left alone if and only if labels, annotations and owners are as desired |
| Drift.QuotaComparisonExact | internal/reconciler/tenant_reconciler.go:272-321 | a quota, if and only if its limits are as well |
| Drift.RoleComparisonExact | internal/reconciler/tenant_reconciler.go:323-392 | a role of plain rules, if and only if it has as many and the same rules up to order and resource names, and the desired metadata |
| Drift.BindingComparisonExact | internal/reconciler/tenant_reconciler.go:394-456 | a binding, if and only if subjects, role reference and metadata are as desired |
| Drift.WrittenIsKept | internal/reconciler/tenant_reconciler.go:185-228 | what was just written is left alone by the next look at it |
| TenantStore.Database.CreateTenant | internal/store/tenant.go:10-37 | inserts the row, or skips silently when the name is taken, or is rejected by another constraint; no other row or member changes, and nothing does when the database fails |
| TenantStore.Database.GetTenantByID | internal/store/tenant.go:39-61 | the live row of that id, or nothing |
| TenantStore.Database.GetTenantByName | internal/store/tenant.go:63-85 | a row GetTenantByID finds and that has this name; an error of its own exactly when no live row has it |
| TenantStore.Database.ListTenants | internal/store/tenant.go:87-116 | exactly the rows GetTenantByID finds, each once, with pairwise distinct ids, names and namespaces |
| TenantStore.Database.UpdateTenant | internal/store/tenant.go:118-132 | changes tier, e-mail and update time of the live row of this id and nothing of any other |
| TenantStore.Database.DeleteTenant | internal/store/tenant.go:134-144 | sets the deletion time of the live row of this id, which afterwards is not live; every other row and member stays |
| TenantStore.Database.HardDeleteTenant | internal/store/tenant.go:146-154 | removes the row and its members, and no other |
| TenantStore.Database.AddMember | internal/store/member.go:15-25 | upserts: the role is the new one, the creation time the first; rejected without a tenant row or beyond a column's width |
| TenantStore.Database.RemoveMember | internal/store/member.go:27-36 | removes exactly this membership |
| TenantStore.Database.ListMembers | internal/store/member.go:38-65 | every user with a role, each once, with the stored role and creation time |
| TenantStore.Database.GetMemberRole | internal/store/member.go:67-80 | the role, or an error exactly when there is none |
| TenantStore.RunKeepsValid | internal/store/migrations/001_initial_schema.up.sql:1-19 | ids, names and namespaces stay distinct and every member refers to a tenant row, after any sequence of operations; every method keeps it too |
| TenantStore.RowIsItsHistory | internal/store/tenant.go:10-154 | after any sequence of operations every column of every row, live or deleted, is the fold of the operations on its own id |
| TenantStore.LiveUntilDeleted | internal/store/tenant.go:134-154 | a row stays live until an operation on its own id deletes it |
| TenantStore.ApplyIsLocal | internal/store/migrations/001_initial_schema.up.sql:1-19 | every statement touches the row and the members of one tenant |
| TenantStore.NameIsClaimedForever | internal/store/tenant.go:10-37 | short of hard deletes, the first row of a name keeps it with id, namespace and creation time for ever, keeps its first deletion time, and a deleted name never is live again |
| TenantStore.NamespaceStaysTaken | internal/store/migrations/001_initial_schema.up.sql:1-10 | a namespace once stored, the empty one included, can never be inserted again short of hard deletes |
| TenantStore.MembershipIsItsHistory | internal/store/member.go:15-80 | after any sequence of operations, cascading hard deletes included, the role of a user is the last successful word about them, and the creation time that of the first add since the last removal |
| Reconciler.RemoveString | internal/reconciler/tenant_reconciler.go:768-776 | the loop computes the list without the string |
| Reconciler.WithoutKeepsOthersInOrder | internal/reconciler/tenant_reconciler.go:768-776 | every other finalizer stays, in order: the result is the list at strictly increasing positions that cover all others |
| Reconciler.WithoutRemoves | internal/reconciler/tenant_reconciler.go:768-776 | the string is gone and membership of every other one unchanged |
| TenantReconcilers.TenantReconciler.CreateOrUpdate | internal/reconciler/tenant_reconciler.go:185-209 | what it did to the server is a first part of the attempt's atomic steps, all of them on success, and up to the failing one when the client is reliable; tenants are untouched |
| TenantReconcilers.TenantReconciler.AddFinalizer | internal/reconciler/tenant_reconciler.go:68-75 | runs the machine's claiming step, to its end on success |
| TenantReconcilers.TenantReconciler.ReconcileDelete | internal/reconciler/tenant_reconciler.go:77-88 | runs the machine's deletion, to its end on success, the row before the finalizer |
| TenantReconcilers.TenantReconciler.StoreRow | internal/reconciler/tenant_reconciler.go:91-104 | runs the machine's look-up and its insert or update |
| TenantReconcilers.TenantReconciler.MarkTenantActive | internal/reconciler/tenant_reconciler.go:133-138 | runs the machine's status step, seventh of nine |
| TenantReconcilers.TenantReconciler.ReconcileCreateOrUpdate | internal/reconciler/tenant_reconciler.go:90-151 | runs the machine through the row and the nine actions in order, stopping at the first failure |
| TenantReconcilers.TenantReconciler.Reconcile | internal/reconciler/tenant_reconciler.go:49-66 | every outcome is a run of the machine stopped somewhere, success a complete one; success on an active tenant leaves all its objects present and accepted; when no call fails for reasons of its own, the result is an error if and only if the tenant is active and its tier is unknown or the store's constraints refuse it |
| Convergence.SuccessProvidesEverything | internal/reconciler/tenant_reconciler.go:90-151 | from any world whatever, after a successful reconcile all eight objects are present and pass their own comparison |
| Convergence.ReconcileConverges | internal/reconciler/tenant_reconciler.go:90-228 | and however far the next reconcile gets, it leaves every object with the same content and resource version |
| Convergence.ReconcileSucceedsIff | internal/reconciler/tenant_reconciler.go:90-183 | left to itself, a reconcile of an active tenant can succeed if and only if the tier is known and the store's constraints let the row through |
| Convergence.ReconcileBreaksOnlyIf | internal/reconciler/tenant_reconciler.go:90-209 | left to itself, a reconcile of an active tenant breaks only where it could not have succeeded |
| Convergence.SuccessRecordsTenantIff | internal/store/tenant.go:18-34 | after success the tenant has a row if and only if it had one or its name was free; the row has the current tier and e-mail, and the first name and namespace |
| Convergence.FirstReconcileHappensOnce | internal/store/tenant.go:13-30 | with the empty namespace once stored, no first reconcile under a free name succeeds any more, whatever happens to the store short of hard deletes |
| Convergence.ActiveMeansIsolatedIff | internal/reconciler/tenant_reconciler.go:133-148 | wherever a reconcile of an active tenant stops, phase Active comes with network policy and limit range if and only if both were there before, or the phase was another one and the tier or the store keep the reconcile from getting that far |
| Convergence.ActiveBeforeIsolated | internal/reconciler/tenant_reconciler.go:133-148 | the stop that shows it: whenever one of the two is missing and the reconcile gets that far |
| Convergence.ActiveMeansProvided | internal/reconciler/tenant_reconciler.go:109-138 | wherever a reconcile stops, if the phase has become Active then namespace, quota, roles and bindings are there and accepted, and the status names the namespace |
| Convergence.SharedNamespaceNeverSettles | internal/reconciler/tenant_reconciler.go:153-170 | in no state have two tenants with one namespace all they should |
| Convergence.ReconcilesUndoEachOther | internal/reconciler/tenant_reconciler.go:153-209 | each successful reconcile of one of them leaves the other unsettled |
| Footprint.FootprintIsExact | internal/reconciler/tenant_reconciler.go:106-209 | wherever a reconcile stops it has touched no object outside its plan; a successful one leaves under each key of the plan the old object if it was acceptable, else the desired one |
| Convergence.InactiveTenantsMoveOn | internal/reconciler/tenant_reconciler.go:57-88 | a reconcile of an inactive tenant does not break when left to itself; on success one of a deleting tenant leaves no live row, keeps the other finalizers and removes the tenant exactly when there are none; one of a tenant without the finalizer appends it, asks for another round and makes the tenant active; neither touches an object |
| Convergence.AbsentTenantIsLeftAlone | internal/reconciler/tenant_reconciler.go:52-55 | for a tenant that is not there nothing is written and no further round asked for |
| Convergence.OtherTenantsAreUntouched | internal/reconciler/tenant_reconciler.go:49-151 | wherever a reconcile stops, active tenant or not: no other tenant resource, no other row and no member of another tenant has changed |
| Convergence.OwnersAreExact | internal/reconciler/tenant_reconciler.go:157-164 | after a successful reconcile namespace, quota, roles and bindings have the tenant as their one owner |
| Convergence.PlanKeysDiffer | internal/reconciler/tenant_reconciler.go:153-170 | the eight objects of a tenant never share a key, whatever its names |
| Access.RolesGrantWhatIsBuiltInIff | internal/reconciler/tenant_reconciler.go:491-611 | after a successful reconcile neither role grants more than its built-in rules, and it grants the same if and only if the role before the reconcile was absent, or is replaced, or was free of separators, empty lists and resource names |
| Access.GroupsMayWhatIsBuiltInIff | internal/reconciler/tenant_reconciler.go:613-669 | after a successful reconcile in a namespace without other bindings, following each stored binding to the role it refers to: the members of a tenant's operator group may no more than the operator rules, those of its admin group no more than the admin rules; and exactly that if and only if binding and role were absent before, or are replaced, or were free of what deceives the comparison |
| Access.OperatorsWithinAdmins | internal/reconciler/tenant_reconciler.go:491-611 | operators may nothing that admins may not |
| Access.AdminsAreFencedIn | internal/reconciler/tenant_reconciler.go:505-555 | admins may not touch roles, bindings, network policies or quotas |
| Access.LimitRangesAreAdmins | internal/reconciler/tenant_reconciler.go:508-517 | but they, and not operators, may delete the default limits |
| Access.BuiltInRulesAreIrredundant | internal/reconciler/tenant_reconciler.go:505-609 | no built-in rule has a separator, an empty list, a repetition, a wildcard or a resource name, and no two of a role overlap |
| FinalizerProtocol.RunKeepsInv | internal/reconciler/tenant_reconciler.go:49-104 | the protocol's invariant holds over every interleaving of workers, stops, user edits and REST operations |
| FinalizerProtocol.LiveRowMeansTenantExists | internal/reconciler/tenant_reconciler.go:49-104 | in every reachable state a live row of a tenant's UID means that this tenant exists and carries the finalizer |
| FinalizerProtocol.GoneTenantsLeaveNoRow | internal/reconciler/tenant_reconciler.go:77-88 | once a tenant is gone no live row of its UID exists, then or after any further moves |
| FinalizerProtocol.AcceptedCopyIsCurrent | internal/reconciler/tenant_reconciler.go:68-88 | an accepted update replaces exactly the copy the worker read, however old its cache |
| LostUpdate.NoLostUpdate | internal/reconciler/tenant_reconciler.go:185-209 | among arbitrary writers and with stale reads, createOrUpdate creates at an absent key, or leaves alone what it read as acceptable, or replaces precisely the object it read, or fails without a trace |
| LostUpdate.SameVersionSameObject | internal/reconciler/tenant_reconciler.go:202-206 | a resource version that is still current names the very object that was read |
| Independence.WorkerIsUndisturbed | internal/reconciler/tenant_reconciler.go:106-150 | of two workers with different names and namespaces, each that has had 25 turns in whatever interleaving has succeeded if and only if its tier is known, and made the objects it would have made alone; what the other does or whether it breaks plays no part |
| Independence.InterleavingDoesNotMatter | internal/reconciler/tenant_reconciler.go:106-150 | any two schedules that give both workers their turns leave the same objects, for known and unknown tiers |
| Independence.InterleavedIsSequential | internal/reconciler/tenant_reconciler.go:106-150 | so any interleaving leaves what one worker after the other leaves |
| Independence.PlansAreDisjoint | internal/reconciler/tenant_reconciler.go:153-170 | their sets of object keys are disjoint |
| Quotas.QuotasAreTiersSeen | internal/reconciler/tenant_reconciler.go:172-183 | after any history of tier changes, between which anything happens but to these quotas, the quota objects of the namespace are exactly those of the tiers seen, with their limits |
| Quotas.LowestTierRules | internal/reconciler/tenant_reconciler.go:693-766 | the limit in force is that of the lowest tier ever seen, and never above the current one |
| Quotas.TierSetsLimits | internal/reconciler/tenant_reconciler.go:693-766 | after a successful reconcile the quota of the tier has the tier's limits, to the unit, and containers get the default limits configured for the tier -- and the default requests where the limit range was missing or replaced |
| Isolation.IngressIs | internal/reconciler/tenant_reconciler.go:778-805 | into a fenced namespace come its own pods and the platform's pods that carry the access label, and nobody else |
| Isolation.EgressIs | internal/reconciler/tenant_reconciler.go:807-859 | out of it one gets to its own pods, to port 53 of the cluster's name service and to the platform -- and anywhere if and only if the configuration says internet |
| Isolation.SuccessFencesIn | internal/reconciler/tenant_reconciler.go:140-143 | a successful reconcile that found no policy, or one it replaces, leaves the namespace so fenced |
| Isolation.TenantsAreIsolated | internal/reconciler/tenant_reconciler.go:778-882 | no pod of another tenant reaches a pod of a fenced tenant, under any configuration, labels and port |
| Quotas.RoundSetsOneQuota | internal/reconciler/tenant_reconciler.go:172-209 | one successful reconcile sets the quota of its tier and leaves every other quota of the namespace as it was |
| Bootstrap.WebhookManager.EnsureAll | internal/webhook/manager.go:27-49 | without an error the missing objects are added and the others untouched; with one, a first part of them; no error when the server is reliable |
| Bootstrap.WebhookManager.EnsureTLSSecret | internal/webhook/manager.go:51-95 | makes the secret of the generated certificates if and only if there is none |
| Bootstrap.WebhookManager.EnsureDeployment | internal/webhook/manager.go:97-175 | makes the deployment if and only if there is none |
| Bootstrap.WebhookManager.EnsureService | internal/webhook/manager.go:177-219 | makes the service if and only if there is none |
| Bootstrap.WebhookManager.EnsureValidatingWebhookConfig | internal/webhook/manager.go:221-287 | without the secret fails and changes nothing; else makes the configuration with the stored CA if and only if there is none |
| Bootstrap.WebhookManager.EnsureMutatingWebhookConfiguration | internal/webhook/manager.go:289-356 | the same for the mutating configuration |
| Bootstrap.BootstrapIsSafe | internal/webhook/manager.go:27-49 | with any number of processes, crashes and restarts: nothing that exists is ever changed, every webhook configuration carries the stored CA and the path, rules, failure policy and selector of its kind, and no object exists before those it depends on |
| Bootstrap.DependenciesComeFirst | internal/webhook/manager.go:27-49 | the same by name: deployment after secret, service after deployment, validating after service, mutating after validating, and both with the CA of the stored secret |
| Bootstrap.DoneMeansComplete | internal/webhook/manager.go:27-49 | when any process ends without an error all five objects exist and fit together |
| Bootstrap.AloneCompletes | internal/webhook/manager.go:27-49 | alone and without failures, EnsureAll ends in success and adds exactly what was missing, from every site |
| Bootstrap.StaleConfigurationsStay | internal/webhook/manager.go:221-235 | afterwards a configuration carries the stored CA if and only if it was missing before or carried it already |
| Coverage.TenantPodsAreReviewed | internal/webhook/manager.go:269-276 | after a successful reconcile every webhook configuration that bootstraps have made selects the tenant's namespace, fails closed and carries the stored CA, and the handlers take that namespace and patch its pods |
| Coverage.ConfigurationsReachTheirHandlers | cmd/webhook/main.go:38-41 | whatever bootstraps have run, the validating configuration calls the handler that validates and the mutating one the handler that patches, for created and updated pods |
| Admission.LabelsOfBuiltNamespaces | cmd/webhook/main.go:166-182 | for every namespace the reconciler builds, what the two labels carry: the first part of the metadata name, and its second part or else the first part of the spec name; they are metadata name and spec name if and only if neither has a hyphen |
| Admission.PrintedSplits | internal/reconciler/tenant_reconciler.go:156 | what a built namespace splits into, for all names |
| Admission.MutatePanicsIff | cmd/webhook/main.go:149-181 | namespaces without the prefix are left alone, and the handler panics if and only if there is the prefix and no further hyphen |
| Admission.NamespaceIdentifiesTenantIff | internal/reconciler/tenant_reconciler.go:156 | no tenant with another name pair has this tenant's namespace if and only if neither of its names has a hyphen |
| Admission.NamespacesDiffer | internal/reconciler/tenant_reconciler.go:156 | of two tenants: distinct name pairs give distinct namespaces when both metadata names, or both spec names, are hyphen-free |
| Admission.HyphensCollide | internal/reconciler/tenant_reconciler.go:156 | two tenants with different names and the same namespace |
| Admission.PatchSetsTenantLabels | cmd/webhook/main.go:166-182 | by section 4.1 of RFC 6902 the patch applies exactly to documents with a metadata object, leaves exactly the two tenant labels, changes nothing else, and twice is once |
| Admission.PathTokens | cmd/webhook/main.go:169-179 | the three pointers by sections 3 and 4 of RFC 6901, with the escaped slash |
| Jwk.Exponent | internal/middleware/auth.go:128-131 | the loop of shift and or computes the big-endian value in 64-bit wrap-around arithmetic |
| Jwk.BytesAreDigits | internal/middleware/auth.go:128-131 | every byte of the input is a digit of that value in base 256, counted from the end |
| Jwk.WrapIsSigned | internal/middleware/auth.go:128-131 | wrapping is into 64 signed bits and by whole multiples of 2^64 |
| Jwk.ShiftOrAppends | internal/middleware/auth.go:130 | a shift by eight bits on 64, or-ed bit by bit with a byte, appends that byte modulo 2^64 |
| Jwk.ExponentIsExactIff | internal/middleware/auth.go:128-131 | it is the value itself if and only if that fits 63 bits, and so always for up to seven bytes |
| Jwk.LeadingZerosDoNotCount | internal/middleware/auth.go:128-131 | a leading zero byte changes nothing |
| Jwk.BuildKeySet | internal/middleware/auth.go:70-77 | the loop computes the fold of the keys that decode |
| Jwk.LastKeyWins | internal/middleware/auth.go:70-77 | a key that does not decode is skipped and of several with one id the last is kept |
| Jwk.UnknownKeyIsAbsent | internal/middleware/auth.go:70-77 | an id no decodable key has is not in the set |

## Left out

- Rounding of `float64` in the limiter: tokens, rates and times are real numbers.
- HTTP, JSON encoding, logging, the CLI, `main`, Helm and Terraform: input, output and wiring.
- JWT signatures and claims, base64, RSA and certificate generation: library code; decoded bytes and certificates are inputs.
- SQL text, driver, migrations and the audit table; id syntax (`id` is any string); the creation time that `CreateTenant` copies back into the resource.
- Defaults that the API server adds to objects, its refusal to change a role reference or to create in a terminating namespace, name-length limits, garbage collection by owner reference, and updates that change nothing and so keep their version: the server is taken to store what it is sent.
- Writes whose reply is lost: a request that fails has changed nothing; a process that stops right after a write covers the rest.
- `Controller` and `BlockOwnerDeletion` of owner references, the namespace of subjects, non-resource URLs and wildcards over subresources: the comparisons do not read the former, and permissions are those of (group, resource, verb, name); in `Grants` no group, resource or verb that is asked for has a comma in its name.
- `validatePodResource`, `validateContainer`, `validateEphemeralContainer`: branching on one container at a time, easy members.
- The admins and operators lists of the spec: the reconciler does not use them.
- Pod selectors of network policies: every policy is one for all pods of its namespace, as the reconciler's is; blocks of addresses but 0.0.0.0/0.
- Cluster role bindings, and subjects other than groups, in what `Access` counts as permission.
- Access.GroupsMayWhatIsBuiltInIff: assumes that the namespace has no bindings but the reconciler's two.
- Isolation.SuccessFencesIn: is silent on a policy that was there and is accepted by its lengths; `Drift.NetworkPolicyDriftUnseenIff` says what that may be.
- JSON Patch operations other than add, and pointers into arrays: the handler sends none.
- Sorting is modelled by insertion sort; by `Text.SortedIsUnique` every sorting algorithm gives the same list.
- Conversion of Kubernetes quantities: they are whole thousandths.
- Text.JoinInjective: states nothing about the empty list, which joins to the same string as the list of one empty string; `Drift.SeparatorsDeceive` shows the consequence.
- The names, labels, ports, side-effect class and review versions of the bootstrap objects: no step reads them.
- RateLimiter.Bucket.Take: is part of one function in the source; it is split from `Limit`, whose lock makes the whole one step.
- FinalizerProtocol.LiveRowMeansTenantExists: assumes that users leave the controller's own finalizer in place, that a worker's reads of a tenant never go backwards, that one worker runs per name, and that ids made for REST rows are not tenant UIDs.
- Convergence.ReconcileConverges: is about a reconcile that runs alone on a cache that is up to date; the state it starts from is arbitrary. Interference is the subject of `LostUpdate`, `FinalizerProtocol` and `Independence`.
- Independence.InterleavingDoesNotMatter: starts where both workers begin with their objects, read as stored; the store step before that shares the uniqueness constraints.
- Bootstrap.BootstrapIsSafe: starts from an empty cluster and has no outside deletions.
