/** internal/webhook/manager.go: EnsureAll, run by any number of controller processes over one API
    server, each of which may fail, stop and start again at any point.  Certificates are opaque values
    handed to whoever generates them; the client reads the server directly, without a cache. */
module Bootstrap {

  datatype Slot = SecretSlot | DeploymentSlot | ServiceSlot | ValidatingSlot | MutatingSlot
  datatype Thing =
    | Secret(ca: string, serverCert: string, serverKey: string)
    | Deployment(image: string)
    | Service
    | Webhook(caBundle: string, path: string, operations: seq<string>, resources: seq<string>, failurePolicy: string,
              selector: map<string, string>)

  /** The five objects, those that exist. */
  type Site = map<Slot, Thing>

  datatype Certs = Certs(ca: string, serverCert: string, serverKey: string)

  const ORDER := [SecretSlot, DeploymentSlot, ServiceSlot, ValidatingSlot, MutatingSlot]

  /** Where EnsureAll stands: about to look for object i, about to read the CA for it, about to create it. */
  datatype Pc =
    | Checking(i: nat)
    | Loading(i: nat)
    | Comparing(i: nat, ca: string)
    | Making(i: nat, thing: Thing)
    | Done
    | Exited

  function Enter(i: nat): Pc {
    if i < 3 then Checking(i) else if i < 5 then Loading(i) else Done
  }

  function Path(i: nat): string { if i == 3 then "/validate-pod" else "/mutate-pod" }

  /** The validating (i == 3) or the mutating (i == 4) configuration. */
  function Hook(ca: string, i: nat): Thing {
    Webhook(ca, Path(i), ["CREATE", "UPDATE"], ["pods"], "Fail", map["tenant.k8s-mtp.io/managed" := "true"])
  }

  /** One request to the server.  `certs` is what a generation at this point would yield. */
  function Advance(site: Site, pc: Pc, image: string, certs: Certs): (Site, Pc) {
    match pc
    case Checking(i) =>
      (site,
       if i >= 3 then Exited
       else if ORDER[i] in site then Enter(i+1)
       else Making(i, if i == 0 then Secret(certs.ca, certs.serverCert, certs.serverKey)
                      else if i == 1 then Deployment(image) else Service))
    case Loading(i) =>
      (site, if SecretSlot in site && site[SecretSlot].Secret? then Comparing(i, site[SecretSlot].ca) else Exited)
    case Comparing(i, ca) =>
      (site, if i >= 5 then Exited else if ORDER[i] in site then Enter(i+1) else Making(i, Hook(ca, i)))
    case Making(i, thing) =>
      if i >= 5 || ORDER[i] in site then (site, Exited) else (site[ORDER[i] := thing], Enter(i+1))
    case Done => (site, Done)
    case Exited => (site, Exited)
  }

  // ---------------------------------------------------------------- many processes

  datatype System = System(site: Site, procs: map<nat, Pc>)
  datatype Move = Step(p: nat, image: string, certs: Certs) | Start(p: nat) | Fail(p: nat)

  const EMPTY := System(map[], map[])

  function PcOf(sys: System, p: nat): Pc { if p in sys.procs then sys.procs[p] else Exited }

  function Next(sys: System, m: Move): System {
    match m
    case Step(p, image, certs) =>
      var (site, pc) := Advance(sys.site, PcOf(sys, p), image, certs);
      System(site, sys.procs[p := pc])
    case Start(p) => sys.(procs := sys.procs[p := Checking(0)])
    case Fail(p) => sys.(procs := sys.procs[p := Exited])
  }

  function Run(sys: System, moves: seq<Move>): System {
    if moves == [] then sys else Next(Run(sys, moves[..|moves|-1]), moves[|moves|-1])
  }

  // ---------------------------------------------------------------- the invariant

  ghost predicate Have(site: Site, n: nat)
    requires n <= 5
  {
    forall j | 0 <= j < n :: ORDER[j] in site
  }

  ghost predicate HasCA(site: Site, ca: string) {
    SecretSlot in site && site[SecretSlot].Secret? && site[SecretSlot].ca == ca
  }

  /** Every webhook configuration carries the CA of the stored secret, and nothing exists before what it
      depends on: no object without those earlier in the order. */
  ghost predicate Sound(site: Site) {
    && (SecretSlot in site ==> site[SecretSlot].Secret?)
    && (forall i | 3 <= i < 5 && ORDER[i] in site ::
          site[ORDER[i]].Webhook? && HasCA(site, site[ORDER[i]].caBundle) && site[ORDER[i]] == Hook(site[ORDER[i]].caBundle, i))
    && (forall i | 0 <= i < 5 && ORDER[i] in site :: Have(site, i))
  }

  ghost predicate PcOk(site: Site, pc: Pc) {
    match pc
    case Checking(i) => i < 3 && Have(site, i)
    case Loading(i) => 3 <= i < 5 && Have(site, i)
    case Comparing(i, ca) => 3 <= i < 5 && Have(site, i) && HasCA(site, ca)
    case Making(i, thing) =>
      && i < 5 && Have(site, i)
      && (i == 0 ==> thing.Secret?)
      && (i >= 3 ==> thing.Webhook? && HasCA(site, thing.caBundle) && thing == Hook(thing.caBundle, i))
    case Done => Have(site, 5)
    case Exited => true
  }

  ghost predicate Inv(sys: System) {
    Sound(sys.site) && forall p | p in sys.procs :: PcOk(sys.site, sys.procs[p])
  }

  ghost predicate Extends(a: Site, b: Site) { forall s | s in a :: s in b && b[s] == a[s] }

  lemma AdvanceIsSound(site: Site, pc: Pc, image: string, certs: Certs)
    requires Sound(site) && PcOk(site, pc)
    ensures var (site', pc') := Advance(site, pc, image, certs);
            Sound(site') && PcOk(site', pc') && Extends(site, site')
  {
    if pc.Making? && ORDER[pc.i] !in site {
      var site' := site[ORDER[pc.i] := pc.thing];
      assert forall i | 0 <= i < 5 && i != pc.i :: ORDER[i] != ORDER[pc.i];
      assert Have(site', pc.i + 1);
    }
  }

  lemma PcOkSurvives(a: Site, b: Site, pc: Pc)
    requires Extends(a, b) && PcOk(a, pc)
    ensures PcOk(b, pc)
  {
  }

  lemma NextKeepsInv(sys: System, m: Move)
    requires Inv(sys)
    ensures Inv(Next(sys, m)) && Extends(sys.site, Next(sys, m).site)
  {
    hide Sound, PcOk, Advance;
    match m
    case Step(p, image, certs) =>
      assert PcOk(sys.site, PcOf(sys, p)) by { ExitedIsOk(sys.site); }
      AdvanceIsSound(sys.site, PcOf(sys, p), image, certs);
      forall q | q in sys.procs ensures PcOk(Next(sys, m).site, sys.procs[q]) {
        PcOkSurvives(sys.site, Next(sys, m).site, sys.procs[q]);
      }
    case Start(p) => ExitedIsOk(sys.site);
    case Fail(p) => ExitedIsOk(sys.site);
  }

  lemma ExitedIsOk(site: Site)
    ensures PcOk(site, Exited) && PcOk(site, Checking(0))
  {
  }

  lemma {:induction false} RunKeepsInv(sys: System, moves: seq<Move>)
    requires Inv(sys)
    ensures Inv(Run(sys, moves)) && Extends(sys.site, Run(sys, moves).site)
  {
    hide Inv, Next;
    if moves != [] {
      RunKeepsInv(sys, moves[..|moves|-1]);
      NextKeepsInv(Run(sys, moves[..|moves|-1]), moves[|moves|-1]);
    }
  }

  // ---------------------------------------------------------------- the theorems

  /** However many processes run EnsureAll, whenever they crash and restart: what exists at some time is
      there unchanged ever after -- so the secret is written once -- and the site is sound throughout. */
  lemma BootstrapIsSafe(before: seq<Move>, after: seq<Move>)
    ensures Sound(Run(EMPTY, before).site)
    ensures Extends(Run(EMPTY, before).site, Run(Run(EMPTY, before), after).site)
  {
    assert Inv(EMPTY);
    RunKeepsInv(EMPTY, before);
    RunKeepsInv(Run(EMPTY, before), after);
  }

  /** What a sound site is, object by object. */
  lemma DependenciesComeFirst(moves: seq<Move>)
    ensures var site := Run(EMPTY, moves).site;
            && (SecretSlot in site ==> site[SecretSlot].Secret?)
            && (DeploymentSlot in site ==> SecretSlot in site)
            && (ServiceSlot in site ==> DeploymentSlot in site)
            && (ValidatingSlot in site ==> ServiceSlot in site && CarriesStoredCA(site, ValidatingSlot))
            && (MutatingSlot in site ==> ValidatingSlot in site && CarriesStoredCA(site, MutatingSlot))
  {
    BootstrapIsSafe(moves, []);
    var site := Run(EMPTY, moves).site;
    assert ORDER[0] == SecretSlot && ORDER[1] == DeploymentSlot && ORDER[2] == ServiceSlot;
    assert ORDER[3] == ValidatingSlot && ORDER[4] == MutatingSlot;
  }

  /** Where a process that ends without an error leaves the cluster. */
  lemma DoneMeansComplete(moves: seq<Move>, p: nat)
    requires PcOf(Run(EMPTY, moves), p) == Done
    ensures Have(Run(EMPTY, moves).site, 5) && Sound(Run(EMPTY, moves).site)
  {
    assert Inv(EMPTY);
    RunKeepsInv(EMPTY, moves);
  }

  // ---------------------------------------------------------------- one process alone, from any site

  /** Requests left until the end, at most. */
  function Left(pc: Pc): nat {
    match pc
    case Checking(i) => 16 - 3 * (if i > 5 then 5 else i)
    case Loading(i) => 17 - 3 * (if i > 5 then 5 else i)
    case Comparing(i, _) => 16 - 3 * (if i > 5 then 5 else i)
    case Making(i, _) => 15 - 3 * (if i > 5 then 5 else i)
    case Done => 0
    case Exited => 0
  }

  function Alone(site: Site, pc: Pc, image: string, certs: Certs): (Site, Pc)
    requires pc.Checking? ==> pc.i < 3
    requires pc.Loading? || pc.Comparing? || pc.Making? ==> pc.i < 5
    decreases Left(pc)
  {
    if pc.Done? || pc.Exited? then (site, pc)
    else var (site', pc') := Advance(site, pc, image, certs); Alone(site', pc', image, certs)
  }

  predicate SecretReadable(site: Site) { SecretSlot in site ==> site[SecretSlot].Secret? }

  /** The object EnsureAll makes at place i when it finds none. */
  function ThingFor(site: Site, i: nat, image: string, certs: Certs): Thing {
    if i == 0 then Secret(certs.ca, certs.serverCert, certs.serverKey)
    else if i == 1 then Deployment(image)
    else if i == 2 then Service
    else Hook(if SecretSlot in site && site[SecretSlot].Secret? then site[SecretSlot].ca else "", i)
  }

  function Fill(site: Site, s: Slot, thing: Thing): Site { if s in site then site else site[s := thing] }

  /** The site with the first n objects in place, those that were missing added. */
  function Filled(site: Site, n: nat, image: string, certs: Certs): Site
    requires n <= 5
  {
    if n == 0 then site
    else var s := Filled(site, n-1, image, certs); Fill(s, ORDER[n-1], ThingFor(s, n-1, image, certs))
  }

  lemma {:induction false} FilledGrows(site: Site, m: nat, n: nat, image: string, certs: Certs)
    requires m <= n <= 5
    ensures Extends(Filled(site, m, image, certs), Filled(site, n, image, certs))
  {
    if m < n {
      FilledGrows(site, m, n-1, image, certs);
    }
  }

  lemma SecretIsFilled(site: Site, n: nat, image: string, certs: Certs)
    requires SecretReadable(site) && 1 <= n <= 5
    ensures var s := Filled(site, n, image, certs);
            HasCA(s, if SecretSlot in site then site[SecretSlot].ca else certs.ca)
  {
    assert Filled(site, 0, image, certs) == site;
    FilledGrows(site, 1, n, image, certs);
  }

  /** Alone, EnsureAll always finishes, and adds exactly what was missing. */
  lemma AloneCompletes(site: Site, image: string, certs: Certs)
    requires SecretReadable(site)
    ensures Alone(site, Checking(0), image, certs) == (Filled(site, 5, image, certs), Done)
  {
    AloneUpTo(site, 5, image, certs);
  }

  lemma {:induction false} AloneUpTo(site: Site, n: nat, image: string, certs: Certs)
    requires SecretReadable(site) && n <= 5
    ensures Alone(site, Checking(0), image, certs) == Alone(Filled(site, n, image, certs), Enter(n), image, certs)
  {
    if n > 0 {
      AloneUpTo(site, n-1, image, certs);
      if n > 1 { SecretIsFilled(site, n-1, image, certs); }
      AloneFills(Filled(site, n-1, image, certs), n-1, image, certs);
    }
  }

  lemma AloneFills(site: Site, i: nat, image: string, certs: Certs)
    requires i < 5 && (i >= 3 ==> SecretSlot in site && site[SecretSlot].Secret?)
    ensures Alone(site, Enter(i), image, certs)
            == Alone(Fill(site, ORDER[i], ThingFor(site, i, image, certs)), Enter(i+1), image, certs)
  {
    var look := if i < 3 then Enter(i) else Comparing(i, site[SecretSlot].ca);
    assert Alone(site, Enter(i), image, certs) == Alone(site, look, image, certs);
    if ORDER[i] !in site {
      var make := Making(i, ThingFor(site, i, image, certs));
      assert Alone(site, look, image, certs) == Alone(site, make, image, certs);
    }
  }

  ghost predicate CarriesStoredCA(site: Site, s: Slot) {
    s in site && site[s].Webhook? && HasCA(site, site[s].caBundle)
  }

  /** EnsureAll repairs no configuration: afterwards the two of them carry the stored CA exactly when each
      was missing before, or carried already the CA of a secret that was there. */
  lemma StaleConfigurationsStay(site: Site, image: string, certs: Certs)
    requires SecretReadable(site)
    ensures var after := Filled(site, 5, image, certs);
            var ca := if SecretSlot in site then site[SecretSlot].ca else certs.ca;
            forall s | s in {ValidatingSlot, MutatingSlot} ::
              CarriesStoredCA(after, s) <==> (s in site ==> site[s].Webhook? && site[s].caBundle == ca)
  {
    hide Filled;
    SecretIsFilled(site, 3, image, certs);
    SecretIsFilled(site, 4, image, certs);
    SecretIsFilled(site, 5, image, certs);
    FilledGrows(site, 0, 5, image, certs);
    FilledGrows(site, 4, 5, image, certs);
    ConfigIsFilled(site, 3, image, certs);
    ConfigIsFilled(site, 4, image, certs);
  }

  lemma ConfigIsFilled(site: Site, i: nat, image: string, certs: Certs)
    requires 3 <= i < 5
    ensures var s := Filled(site, i, image, certs);
            Filled(site, i+1, image, certs) == Fill(s, ORDER[i], ThingFor(s, i, image, certs))
    ensures Filled(site, 0, image, certs) == site
    ensures ORDER[i] in Filled(site, i, image, certs) <==> ORDER[i] in site
  {
    var a, b, c := Filled(site, 1, image, certs), Filled(site, 2, image, certs), Filled(site, 3, image, certs);
    assert b == Fill(a, DeploymentSlot, ThingFor(a, 1, image, certs));
    assert c == Fill(b, ServiceSlot, ThingFor(b, 2, image, certs));
  }

  // ---------------------------------------------------------------- the manager

  class Server {
    const reliable: bool  // no request fails for reasons of its own
    var site: Site

    constructor (site: Site, reliable: bool)
      ensures this.site == site && this.reliable == reliable
    {
      this.site, this.reliable := site, reliable;
    }

    method Fails() returns (down: bool)
      ensures reliable ==> !down
    {
      down := *;
      down := down && !reliable;
    }

    method Get(s: Slot) returns (down: bool, present: bool, thing: Thing)
      ensures reliable ==> !down
      ensures !down ==> (present <==> s in site) && (present ==> thing == site[s])
    {
      down := Fails();
      present, thing := s in site, Service;
      if present { thing := site[s]; }
    }

    method Create(s: Slot, thing: Thing) returns (ok: bool)
      modifies this
      ensures reliable ==> (ok <==> s !in old(site))
      ensures ok ==> s !in old(site) && site == old(site)[s := thing]
      ensures !ok ==> site == old(site)
    {
      var down := Fails();
      ok := !down && s !in site;
      if ok { site := site[s := thing]; }
    }
  }

  /** Every method adds the one object it is about if that is missing, and nothing else ever. */
  class WebhookManager {
    const server: Server
    const image: string

    constructor (server: Server, image: string)
      ensures this.server == server && this.image == image
    {
      this.server, this.image := server, image;
    }

    method EnsureTLSSecret(certs: Certs) returns (err: bool)
      modifies server
      ensures var thing := Secret(certs.ca, certs.serverCert, certs.serverKey);
              Fills(old(server.site), server.site, SecretSlot, thing, err)
      ensures server.reliable ==> !err
    {
      var down, present, _ := server.Get(SecretSlot);
      if down { return true; }
      if present { return false; }
      var ok := server.Create(SecretSlot, Secret(certs.ca, certs.serverCert, certs.serverKey));
      return !ok;
    }

    method EnsureDeployment() returns (err: bool)
      modifies server
      ensures Fills(old(server.site), server.site, DeploymentSlot, Deployment(image), err)
      ensures server.reliable ==> !err
    {
      var down, present, _ := server.Get(DeploymentSlot);
      if down { return true; }
      if present { return false; }
      var ok := server.Create(DeploymentSlot, Deployment(image));
      return !ok;
    }

    method EnsureService() returns (err: bool)
      modifies server
      ensures Fills(old(server.site), server.site, ServiceSlot, Service, err)
      ensures server.reliable ==> !err
    {
      var down, present, _ := server.Get(ServiceSlot);
      if down { return true; }
      if present { return false; }
      var ok := server.Create(ServiceSlot, Service);
      return !ok;
    }

    method EnsureValidatingWebhookConfig() returns (err: bool)
      requires SecretReadable(server.site)
      modifies server
      ensures SecretSlot !in old(server.site) ==> err && server.site == old(server.site)
      ensures SecretSlot in old(server.site) ==>
                Fills(old(server.site), server.site, ValidatingSlot,
                      Webhook(old(server.site)[SecretSlot].ca, "/validate-pod", ["CREATE", "UPDATE"], ["pods"], "Fail",
                              map["tenant.k8s-mtp.io/managed" := "true"]), err)
      ensures server.reliable && SecretSlot in old(server.site) ==> !err
    {
      var down, present, secret := server.Get(SecretSlot);
      if down || !present { return true; }
      var caCert := secret.ca;
      down, present, secret := server.Get(ValidatingSlot);
      if down { return true; }
      if present { return false; }
      var selector := map["tenant.k8s-mtp.io/managed" := "true"];
      var ok := server.Create(ValidatingSlot, Webhook(caCert, "/validate-pod", ["CREATE", "UPDATE"], ["pods"], "Fail", selector));
      return !ok;
    }

    method EnsureMutatingWebhookConfiguration() returns (err: bool)
      requires SecretReadable(server.site)
      modifies server
      ensures SecretSlot !in old(server.site) ==> err && server.site == old(server.site)
      ensures SecretSlot in old(server.site) ==>
                Fills(old(server.site), server.site, MutatingSlot,
                      Webhook(old(server.site)[SecretSlot].ca, "/mutate-pod", ["CREATE", "UPDATE"], ["pods"], "Fail",
                              map["tenant.k8s-mtp.io/managed" := "true"]), err)
      ensures server.reliable && SecretSlot in old(server.site) ==> !err
    {
      var down, present, secret := server.Get(SecretSlot);
      if down || !present { return true; }
      var caCert := secret.ca;
      down, present, secret := server.Get(MutatingSlot);
      if down { return true; }
      if present { return false; }
      var selector := map["tenant.k8s-mtp.io/managed" := "true"];
      var ok := server.Create(MutatingSlot, Webhook(caCert, "/mutate-pod", ["CREATE", "UPDATE"], ["pods"], "Fail", selector));
      return !ok;
    }

    /** Without an error the site is completed; with one it lies between what was and the completion. */
    method EnsureAll(certs: Certs) returns (err: bool)
      requires SecretReadable(server.site)
      modifies server
      ensures SecretReadable(server.site)
      ensures !err ==> server.site == Filled(old(server.site), 5, image, certs)
      ensures exists n | 0 <= n <= 5 :: server.site == Filled(old(server.site), n, image, certs)
      ensures server.reliable ==> !err
    {
      hide Filled, Fills;
      ghost var site0 := server.site;
      ghost var s := site0;
      assert Filled(site0, 0, image, certs) == site0 by { FilledUnfolds(site0, image, certs); }
      err := EnsureTLSSecret(certs);
      OneMoreFilled(site0, s, server.site, 0, image, certs, err);
      if err { return; }
      s := server.site;
      err := EnsureDeployment();
      OneMoreFilled(site0, s, server.site, 1, image, certs, err);
      if err { return; }
      s := server.site;
      err := EnsureService();
      OneMoreFilled(site0, s, server.site, 2, image, certs, err);
      if err { return; }
      s := server.site;
      err := EnsureValidatingWebhookConfig();
      OneMoreFilled(site0, s, server.site, 3, image, certs, err);
      if err { return; }
      s := server.site;
      err := EnsureMutatingWebhookConfiguration();
      OneMoreFilled(site0, s, server.site, 4, image, certs, err);
    }
  }

  lemma FilledUnfolds(site: Site, image: string, certs: Certs)
    ensures Filled(site, 0, image, certs) == site
    ensures forall n | 0 <= n < 5 :: Filled(site, n+1, image, certs)
              == Fill(Filled(site, n, image, certs), ORDER[n], ThingFor(Filled(site, n, image, certs), n, image, certs))
  {
  }

  lemma OneMoreFilled(site0: Site, before: Site, after: Site, i: nat, image: string, certs: Certs, err: bool)
    requires SecretReadable(site0) && i < 5 && before == Filled(site0, i, image, certs)
    requires Fills(before, after, ORDER[i], ThingFor(before, i, image, certs), err)
    ensures after == Filled(site0, i, image, certs) || after == Filled(site0, i+1, image, certs)
    ensures !err ==> after == Filled(site0, i+1, image, certs)
    ensures SecretReadable(after) && (!err ==> SecretSlot in after && after[SecretSlot].Secret?)
  {
    hide Filled;
    FilledUnfolds(site0, image, certs);
    if i > 0 { SecretIsFilled(site0, i, image, certs); }
    SecretIsFilled(site0, i+1, image, certs);
  }

  ghost predicate Fills(before: Site, after: Site, s: Slot, thing: Thing, err: bool) {
    && (after == before || after == Fill(before, s, thing))
    && (!err ==> after == Fill(before, s, thing))
  }
}
