/** The controller's parts fit together: the namespaces the reconciler makes are the ones that the webhooks it
    installs select, and that the webhook's handler takes apart without panicking. */
module Coverage {
  import opened Objects
  import opened Drift
  import opened Tenants
  import opened Reconciler
  import opened Convergence
  import Admission
  import Bootstrap

  lemma SettledNamespaceIsLabelled(cfg: Config, w: World, goal: Tenant, w': World, requeue: bool)
    requires goal.name in w.server.tenants && w.server.tenants[goal.name] == goal && Active(goal)
    requires Reaches(cfg, w, goal.name, w', Succeeded(requeue))
    ensures var d := BuildNamespace(goal);
            && d.key in w'.server.objects
            && w'.server.objects[d.key].obj.meta.labels == map["tenant.k8s-mtp.io/managed" := "true"]
  {
    SuccessProvidesEverything(cfg, w, goal, w', requeue);
    var d := BuildNamespace(goal);
    assert Plan(cfg, goal)[0] == Ensure(d);
    hide Plan;
    assert Settled(w'.server, d);
    MapComparisonExact(w'.server.objects[d.key].obj.meta.labels, d.obj.meta.labels, "");
  }

  /** After a successful reconcile of a tenant, and any run of bootstraps: each webhook configuration there is
      selects the tenant's namespace, fails closed, and trusts the stored secret; and the handlers look at pods
      there and patch them. */
  lemma TenantPodsAreReviewed(cfg: Config, w: World, goal: Tenant, w': World, requeue: bool,
                              moves: seq<Bootstrap.Move>, i: nat)
    requires goal.name in w.server.tenants && w.server.tenants[goal.name] == goal && Active(goal)
    requires Reaches(cfg, w, goal.name, w', Succeeded(requeue))
    requires 3 <= i < 5 && Bootstrap.ORDER[i] in Bootstrap.Run(Bootstrap.EMPTY, moves).site
    ensures var site := Bootstrap.Run(Bootstrap.EMPTY, moves).site;
            var hook := site[Bootstrap.ORDER[i]];
            var key := BuildNamespace(goal).key;
            && hook.Webhook? && hook.failurePolicy == "Fail" && Bootstrap.CarriesStoredCA(site, Bootstrap.ORDER[i])
            && key in w'.server.objects && Selects(hook.selector, w'.server.objects[key].obj.meta.labels)
            && Admission.ShouldValidateNamespace(key.name) && Admission.Mutate(key.name).Patched?
  {
    SettledNamespaceIsLabelled(cfg, w, goal, w', requeue);
    Bootstrap.BootstrapIsSafe(moves, []);
    Admission.LabelsOfBuiltNamespaces(goal);
  }

  /** Pods are created and updated past this handler. */
  ghost predicate Reviews(site: Bootstrap.Site, slot: Bootstrap.Slot, handler: Admission.Handler) {
    && slot in site && site[slot].Webhook?
    && Admission.Route(site[slot].path) == Some(handler)
    && site[slot].operations == ["CREATE", "UPDATE"] && site[slot].resources == ["pods"]
  }

  /** Whatever bootstraps have run: the validating configuration calls the handler that validates, and the
      mutating one the handler that patches, for every created and updated pod. */
  lemma ConfigurationsReachTheirHandlers(moves: seq<Bootstrap.Move>)
    ensures var site := Bootstrap.Run(Bootstrap.EMPTY, moves).site;
            && (Bootstrap.ValidatingSlot in site ==> Reviews(site, Bootstrap.ValidatingSlot, Admission.ValidatePod))
            && (Bootstrap.MutatingSlot in site ==> Reviews(site, Bootstrap.MutatingSlot, Admission.MutatePod))
  {
    Bootstrap.BootstrapIsSafe(moves, []);
    assert Bootstrap.ORDER[3] == Bootstrap.ValidatingSlot && Bootstrap.ORDER[4] == Bootstrap.MutatingSlot;
  }
}
