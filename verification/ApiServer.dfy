/** What the reconciler may assume of the Kubernetes API server: atomic creates and updates guarded by
    resource versions, namespaces before their contents, and a custom resource that outlives its
    deletion until its last finalizer is gone.  The server stores what it is sent. */
module ApiServer {
  import opened Objects
  import opened Tenants

  datatype Key = Key(kind: Kind, namespace: string, name: string)
  datatype Stored = Stored(obj: Object, version: nat)
  datatype Desired = Desired(key: Key, obj: Object)

  /** `clock` is the last resource version handed out, so no version is ever used twice. */
  datatype Server = Server(objects: map<Key, Stored>, tenants: map<string, Tenant>, clock: nat)

  datatype Reply = Done | AlreadyExists | NotFound | Conflict

  function NamespaceKey(ns: string): Key { Key(NamespaceKind, "", ns) }

  function Put(s: Server, d: Desired): Server {
    Server(s.objects[d.key := Stored(d.obj, s.clock + 1)], s.tenants, s.clock + 1)
  }

  function Create(s: Server, d: Desired): (Server, Reply) {
    if d.key.kind != NamespaceKind && NamespaceKey(d.key.namespace) !in s.objects then (s, NotFound)
    else if d.key in s.objects then (s, AlreadyExists)
    else (Put(s, d), Done)
  }

  function Update(s: Server, d: Desired, version: nat): (Server, Reply) {
    if d.key !in s.objects then (s, NotFound)
    else if s.objects[d.key].version != version then (s, Conflict)
    else (Put(s, d), Done)
  }

  function PutTenant(s: Server, t: Tenant): Server {
    if t.deleting && t.finalizers == [] then Server(s.objects, s.tenants - {t.name}, s.clock + 1)
    else Server(s.objects, s.tenants[t.name := t.(version := s.clock + 1)], s.clock + 1)
  }

  /** Update of metadata and spec; the status and the deletion timestamp are not the writer's to change. */
  function UpdateTenant(s: Server, t: Tenant): (Server, Reply) {
    if t.name !in s.tenants then (s, NotFound)
    else
      var stored := s.tenants[t.name];
      if stored.version != t.version || stored.uid != t.uid then (s, Conflict)
      else (PutTenant(s, t.(status := stored.status, deleting := stored.deleting)), Done)
  }

  /** Update of the status subresource alone. */
  function UpdateStatus(s: Server, t: Tenant): (Server, Reply) {
    if t.name !in s.tenants then (s, NotFound)
    else
      var stored := s.tenants[t.name];
      if stored.version != t.version || stored.uid != t.uid then (s, Conflict)
      else (PutTenant(s, stored.(status := t.status)), Done)
  }

  /** Anything any writers may have done in the meantime: whatever is new carries a new version. */
  ghost predicate Evolves(a: Server, b: Server) {
    && a.clock <= b.clock
    && forall k | k in b.objects ::
         (k in a.objects && b.objects[k] == a.objects[k]) || a.clock < b.objects[k].version <= b.clock
  }

  /** Versions in use were handed out. */
  ghost predicate ObjectsDated(s: Server) {
    forall k | k in s.objects :: s.objects[k].version <= s.clock
  }

  /** Tenants are kept under their names. */
  ghost predicate Named(s: Server) {
    forall n | n in s.tenants :: s.tenants[n].name == n
  }
}
