/** The two tables behind internal/store/tenant.go and internal/store/member.go, with the UNIQUE,
    PRIMARY KEY, FOREIGN KEY and VARCHAR rules of migrations/001_initial_schema.up.sql.  Each SQL
    statement is a function on the tables; class Database runs them, and may also fail at any time. */
module TenantStore {
  import opened Tenants

  datatype Row = Row(name: string, namespace: string, tier: string, ownerEmail: string,
                     createdAt: nat, updatedAt: nat, deletedAt: Option<nat>)
  datatype MemberRow = MemberRow(role: string, createdAt: nat)

  /** `tenants` by primary key, `members` by (tenant id, user id). */
  datatype Tables = Tables(tenants: map<string, Row>, members: map<(string, string), MemberRow>)

  const EMPTY := Tables(map[], map[])

  predicate Live(db: Tables, id: string) { id in db.tenants && db.tenants[id].deletedAt.None? }
  predicate NameTaken(db: Tables, name: string) { exists id | id in db.tenants :: db.tenants[id].name == name }
  predicate NamespaceTaken(db: Tables, ns: string) { exists id | id in db.tenants :: db.tenants[id].namespace == ns }

  /** What the schema guarantees in every state. */
  ghost predicate Valid(db: Tables) {
    && (forall i, j | i in db.tenants && j in db.tenants && i != j ::
          db.tenants[i].name != db.tenants[j].name && db.tenants[i].namespace != db.tenants[j].namespace)
    && (forall k | k in db.members :: k.0 in db.tenants)
  }

  // ---------------------------------------------------------------- the statements

  predicate FitsColumns(spec: Spec, namespace: string) {
    |spec.name| <= 63 && |namespace| <= 63 && |spec.tier| <= 20 && |spec.ownerEmail| <= 255
  }

  datatype Insertion = Inserted(createdAt: nat) | Skipped | Violated

  /** INSERT ... ON CONFLICT (name) DO NOTHING: a taken name is skipped silently, and before the
      other two uniqueness constraints are looked at. */
  function Insert(db: Tables, now: nat, id: string, spec: Spec, namespace: string): (Tables, Insertion) {
    if !FitsColumns(spec, namespace) then (db, Violated)
    else if NameTaken(db, spec.name) then (db, Skipped)
    else if id in db.tenants || NamespaceTaken(db, namespace) then (db, Violated)
    else
      var row := Row(spec.name, namespace, spec.tier, spec.ownerEmail, now, now, None);
      (db.(tenants := db.tenants[id := row]), Inserted(now))
  }

  /** UPDATE ... SET tier, owner_email WHERE id AND deleted_at IS NULL. */
  function Refresh(db: Tables, now: nat, id: string, spec: Spec): (Tables, bool) {
    if !Live(db, id) then (db, true)
    else if |spec.tier| > 20 || |spec.ownerEmail| > 255 then (db, false)
    else
      var row := db.tenants[id].(tier := spec.tier, ownerEmail := spec.ownerEmail, updatedAt := now);
      (db.(tenants := db.tenants[id := row]), true)
  }

  /** UPDATE ... SET deleted_at = NOW() WHERE id AND deleted_at IS NULL. */
  function SoftDelete(db: Tables, now: nat, id: string): Tables {
    if Live(db, id) then db.(tenants := db.tenants[id := db.tenants[id].(deletedAt := Some(now))]) else db
  }

  /** DELETE, with the members of the tenant by ON DELETE CASCADE. */
  function HardDelete(db: Tables, id: string): Tables {
    Tables(db.tenants - {id}, map k | k in db.members && k.0 != id :: db.members[k])
  }

  predicate MayJoin(db: Tables, tenantId: string, userId: string, role: string) {
    tenantId in db.tenants && |userId| <= 255 && |role| <= 20
  }

  /** INSERT ... ON CONFLICT (tenant_id, user_id) DO UPDATE SET role. */
  function Join(db: Tables, now: nat, tenantId: string, userId: string, role: string): Tables {
    if !MayJoin(db, tenantId, userId, role) then db
    else
      var k := (tenantId, userId);
      var row := if k in db.members then db.members[k].(role := role) else MemberRow(role, now);
      db.(members := db.members[k := row])
  }

  function Leave(db: Tables, tenantId: string, userId: string): Tables {
    db.(members := db.members - {(tenantId, userId)})
  }

  // ---------------------------------------------------------------- runs

  datatype Op =
    | CreateOp(id: string, spec: Spec, namespace: string)
    | UpdateOp(id: string, spec: Spec)
    | DeleteOp(id: string)
    | HardDeleteOp(id: string)
    | AddOp(tenantId: string, userId: string, role: string)
    | RemoveOp(tenantId: string, userId: string)
  datatype Timed = Timed(now: nat, op: Op)

  function Apply(db: Tables, t: Timed): Tables {
    match t.op
    case CreateOp(id, spec, ns) => Insert(db, t.now, id, spec, ns).0
    case UpdateOp(id, spec) => Refresh(db, t.now, id, spec).0
    case DeleteOp(id) => SoftDelete(db, t.now, id)
    case HardDeleteOp(id) => HardDelete(db, id)
    case AddOp(tid, uid, role) => Join(db, t.now, tid, uid, role)
    case RemoveOp(tid, uid) => Leave(db, tid, uid)
  }

  function Run(db: Tables, ops: seq<Timed>): Tables {
    if ops == [] then db else Apply(Run(db, ops[..|ops|-1]), ops[|ops|-1])
  }

  lemma ApplyKeepsValid(db: Tables, t: Timed)
    requires Valid(db)
    ensures Valid(Apply(db, t))
  {
    hide Valid;
    match t.op
    case CreateOp(id, spec, ns) => InsertKeepsValid(db, t.now, id, spec, ns);
    case UpdateOp(id, spec) => RowUpdateKeepsValid(db, id, Refresh(db, t.now, id, spec).0);
    case DeleteOp(id) => RowUpdateKeepsValid(db, id, SoftDelete(db, t.now, id));
    case HardDeleteOp(id) => MemberOpsKeepValid(db, t.now, id, "", "");
    case AddOp(tid, uid, role) => MemberOpsKeepValid(db, t.now, tid, uid, role);
    case RemoveOp(tid, uid) => MemberOpsKeepValid(db, t.now, tid, uid, "");
  }

  lemma MemberOpsKeepValid(db: Tables, now: nat, tid: string, uid: string, role: string)
    requires Valid(db)
    ensures Valid(HardDelete(db, tid)) && Valid(Join(db, now, tid, uid, role)) && Valid(Leave(db, tid, uid))
  {
  }

  lemma InsertKeepsValid(db: Tables, now: nat, id: string, spec: Spec, ns: string)
    requires Valid(db)
    ensures Valid(Insert(db, now, id, spec, ns).0)
  {
  }

  lemma RowUpdateKeepsValid(db: Tables, id: string, after: Tables)
    requires Valid(db) && after.members == db.members && after.tenants.Keys == db.tenants.Keys
    requires forall i | i in db.tenants :: after.tenants[i].name == db.tenants[i].name
                                           && after.tenants[i].namespace == db.tenants[i].namespace
    ensures Valid(after)
  {
  }

  lemma {:induction false} RunKeepsValid(db: Tables, ops: seq<Timed>)
    requires Valid(db)
    ensures Valid(Run(db, ops))
  {
    if ops != [] {
      RunKeepsValid(db, ops[..|ops|-1]);
      ApplyKeepsValid(Run(db, ops[..|ops|-1]), ops[|ops|-1]);
    }
  }

  // ---------------------------------------------------------------- store history

  /** What time may do to the rows, hard deletes aside. */
  ghost predicate Ages(a: Row, b: Row) {
    && a.name == b.name && a.namespace == b.namespace && a.createdAt == b.createdAt
    && (a.deletedAt.Some? ==> b.deletedAt == a.deletedAt)
  }

  ghost predicate Evolves(a: Tables, b: Tables) {
    forall id | id in a.tenants :: id in b.tenants && Ages(a.tenants[id], b.tenants[id])
  }

  ghost predicate NoHardDelete(ops: seq<Timed>) {
    forall i | 0 <= i < |ops| :: !ops[i].op.HardDeleteOp?
  }

  lemma {:induction false} RunEvolves(db: Tables, ops: seq<Timed>)
    requires NoHardDelete(ops)
    ensures Evolves(db, Run(db, ops))
  {
    if ops != [] {
      RunEvolves(db, ops[..|ops|-1]);
    }
  }

  /** The first row to claim a name keeps it, with its id, namespace and creation time, through every
      later history; once it is deleted, with its first deletion time, and the name is never live again. */
  lemma {:induction false} NameIsClaimedForever(db: Tables, id: string, ops: seq<Timed>)
    requires Valid(db) && id in db.tenants && NoHardDelete(ops)
    ensures var later := Run(db, ops); var name := db.tenants[id].name;
            && id in later.tenants && Ages(db.tenants[id], later.tenants[id])
            && (forall other | other in later.tenants && later.tenants[other].name == name :: other == id)
            && (!Live(db, id) ==> forall other | Live(later, other) :: later.tenants[other].name != name)
  {
    RunEvolves(db, ops);
    RunKeepsValid(db, ops);
  }

  /** A namespace once stored stays taken, so with "" stored -- the status of a tenant that was never
      reconciled -- no other first reconcile can ever insert its row. */
  lemma NamespaceStaysTaken(db: Tables, ops: seq<Timed>, now: nat, id: string, spec: Spec, ns: string)
    requires NamespaceTaken(db, ns) && NoHardDelete(ops)
    ensures !Insert(Run(db, ops), now, id, spec, ns).1.Inserted?
  {
    RunEvolves(db, ops);
    var holder :| holder in db.tenants && db.tenants[holder].namespace == ns;
    assert holder in Run(db, ops).tenants;
  }

  // ---------------------------------------------------------------- every row is its history

  function RowAt(db: Tables, id: string): Option<Row> { if id in db.tenants then Some(db.tenants[id]) else None }

  function MemberAt(db: Tables, tid: string, uid: string): Option<MemberRow> {
    if (tid, uid) in db.members then Some(db.members[(tid, uid)]) else None
  }

  /** No other tenant's row, and no member of another tenant, differs. */
  ghost predicate SameElsewhere(a: Tables, b: Tables, id: string) {
    forall other | other != id ::
      RowAt(a, other) == RowAt(b, other) && forall uid :: MemberAt(a, other, uid) == MemberAt(b, other, uid)
  }

  lemma SameElsewhereAddsUp(a: Tables, b: Tables, c: Tables, id: string)
    requires SameElsewhere(a, b, id) && SameElsewhere(b, c, id)
    ensures SameElsewhere(a, c, id)
  {
  }

  function IdOf(op: Op): string {
    match op
    case CreateOp(id, _, _) => id
    case UpdateOp(id, _) => id
    case DeleteOp(id) => id
    case HardDeleteOp(id) => id
    case AddOp(id, _, _) => id
    case RemoveOp(id, _) => id
  }

  /** Every statement touches the rows and members of one tenant. */
  lemma ApplyIsLocal(db: Tables, t: Timed)
    ensures SameElsewhere(db, Apply(db, t), IdOf(t.op)) && SameElsewhere(db, db, IdOf(t.op))
  {
    var after := Apply(db, t);
    forall other | other != IdOf(t.op)
      ensures RowAt(db, other) == RowAt(after, other)
      ensures forall uid :: MemberAt(db, other, uid) == MemberAt(after, other, uid)
    {
      if t.op.RemoveOp? {
        forall uid ensures MemberAt(db, other, uid) == MemberAt(after, other, uid) {
          assert (other, uid) != (t.op.tenantId, t.op.userId);
        }
      }
    }
  }

  predicate MayInsert(db: Tables, id: string, spec: Spec, namespace: string) {
    && |spec.name| <= 63 && |namespace| <= 63 && |spec.tier| <= 20 && |spec.ownerEmail| <= 255
    && id !in db.tenants && !NameTaken(db, spec.name) && !NamespaceTaken(db, namespace)
  }

  /** The row of an id by the record alone: the operations that name this id, in their order. */
  function LastRow(db: Tables, ops: seq<Timed>, id: string): Option<Row> {
    if ops == [] then RowAt(db, id)
    else
      var before, last := ops[..|ops|-1], ops[|ops|-1];
      var row := LastRow(db, before, id);
      match last.op
      case CreateOp(i, spec, ns) =>
        if i == id && MayInsert(Run(db, before), id, spec, ns)
        then Some(Row(spec.name, ns, spec.tier, spec.ownerEmail, last.now, last.now, None)) else row
      case UpdateOp(i, spec) =>
        if i == id && row.Some? && row.value.deletedAt.None? && |spec.tier| <= 20 && |spec.ownerEmail| <= 255
        then Some(row.value.(tier := spec.tier, ownerEmail := spec.ownerEmail, updatedAt := last.now)) else row
      case DeleteOp(i) =>
        if i == id && row.Some? && row.value.deletedAt.None?
        then Some(row.value.(deletedAt := Some(last.now))) else row
      case HardDeleteOp(i) => if i == id then None else row
      case _ => row
  }

  /** Every row, live or deleted, is the fold of the operations on its own id. */
  lemma {:induction false} RowIsItsHistory(db: Tables, ops: seq<Timed>, id: string)
    ensures RowAt(Run(db, ops), id) == LastRow(db, ops, id)
  {
    if ops != [] {
      RowIsItsHistory(db, ops[..|ops|-1], id);
    }
  }

  /** So a row stays live until an operation on its own id deletes it. */
  lemma {:induction false} LiveUntilDeleted(db: Tables, ops: seq<Timed>, id: string)
    requires Live(db, id)
    requires forall i | 0 <= i < |ops| :: ops[i].op != DeleteOp(id) && ops[i].op != HardDeleteOp(id)
    ensures Live(Run(db, ops), id)
  {
    if ops != [] {
      LiveUntilDeleted(db, ops[..|ops|-1], id);
    }
  }

  // ---------------------------------------------------------------- membership is its history

  /** The membership of a user by the record alone: the last role given in a successful add, since the first
      add after the last removal. */
  function LastWord(db: Tables, ops: seq<Timed>, tid: string, uid: string): Option<MemberRow> {
    if ops == [] then MemberAt(db, tid, uid)
    else
      var before, last := ops[..|ops|-1], ops[|ops|-1];
      var member := LastWord(db, before, tid, uid);
      match last.op
      case AddOp(t, u, role) =>
        if t == tid && u == uid && LastRow(db, before, t).Some? && |u| <= 255 && |role| <= 20
        then Some(MemberRow(role, if member.Some? then member.value.createdAt else last.now)) else member
      case RemoveOp(t, u) => if t == tid && u == uid then None else member
      case HardDeleteOp(t) => if t == tid then None else member
      case _ => member
  }

  function RoleOf(db: Tables, tid: string, uid: string): Option<string> {
    if (tid, uid) in db.members then Some(db.members[(tid, uid)].role) else None
  }

  /** Membership, role and creation time, is the fold of its history, cascading hard deletes included. */
  lemma {:induction false} MembershipIsItsHistory(db: Tables, ops: seq<Timed>, tid: string, uid: string)
    ensures MemberAt(Run(db, ops), tid, uid) == LastWord(db, ops, tid, uid)
  {
    if ops != [] {
      MembershipIsItsHistory(db, ops[..|ops|-1], tid, uid);
      RowIsItsHistory(db, ops[..|ops|-1], tid);
    }
  }

  // ---------------------------------------------------------------- reading back

  /** The five columns the queries select. */
  datatype Record = Record(id: string, name: string, namespace: string, tier: string, ownerEmail: string)

  function RecordOf(id: string, row: Row): Record {
    Record(id, row.name, row.namespace, row.tier, row.ownerEmail)
  }

  function GetByID(db: Tables, id: string): Option<Record> {
    if Live(db, id) then Some(RecordOf(id, db.tenants[id])) else None
  }

  datatype Member = Member(userId: string, role: string, createdAt: nat)

  ghost function Users(list: seq<Member>): set<string> { set i | 0 <= i < |list| :: list[i].userId }

  lemma UsersAppend(list: seq<Member>, m: Member)
    ensures Users(list + [m]) == Users(list) + {m.userId}
  {
    var all := list + [m];
    assert all[|list|] == m && forall i | 0 <= i < |list| :: all[i] == list[i];
  }

  datatype Failure = NoRows | Rejected | Unavailable
  datatype Result<+T> = Ok(value: T) | Err(failure: Failure)

  // ---------------------------------------------------------------- the database handle

  class Database {
    const reliable: bool  // no call fails for reasons of its own
    var tenants: map<string, Row>
    var members: map<(string, string), MemberRow>

    function State(): Tables
      reads this
    {
      Tables(tenants, members)
    }

    constructor (reliable: bool)
      ensures Valid(State()) && State() == EMPTY && this.reliable == reliable
    {
      this.reliable, tenants, members := reliable, map[], map[];
    }

    method Fails() returns (down: bool)
      ensures reliable ==> !down
    {
      down := *;
      down := down && !reliable;
    }

    /** Also nil when the name belongs to another row and nothing was inserted. */
    method CreateTenant(now: nat, uid: string, spec: Spec, namespace: string) returns (r: Result<()>)
      requires Valid(State())
      modifies this
      ensures Valid(State())
      ensures SameElsewhere(old(State()), State(), uid)
      ensures r == Err(Unavailable) ==> State() == old(State())
      ensures r != Err(Unavailable) ==>
                var (after, done) := Insert(old(State()), now, uid, spec, namespace);
                State() == after && r == (if done.Violated? then Err(Rejected) else Ok(()))
      ensures MayInsert(old(State()), uid, spec, namespace) && r.Ok? ==>
                RowAt(State(), uid) == Some(Row(spec.name, namespace, spec.tier, spec.ownerEmail, now, now, None))
      ensures reliable ==> r != Err(Unavailable)
    {
      hide Valid, SameElsewhere;
      ApplyKeepsValid(State(), Timed(now, CreateOp(uid, spec, namespace)));
      ApplyIsLocal(State(), Timed(now, CreateOp(uid, spec, namespace)));
      var down := Fails();
      if down { return Err(Unavailable); }
      if !FitsColumns(spec, namespace) { return Err(Rejected); }
      if NameTaken(State(), spec.name) { return Ok(()); }
      if uid in tenants || NamespaceTaken(State(), namespace) { return Err(Rejected); }
      tenants := tenants[uid := Row(spec.name, namespace, spec.tier, spec.ownerEmail, now, now, None)];
      r := Ok(());
    }

    method GetTenantByID(id: string) returns (r: Result<Option<Record>>)
      ensures r == Err(Unavailable) || r == Ok(GetByID(State(), id))
      ensures reliable ==> r != Err(Unavailable)
    {
      var down := Fails();
      if down { return Err(Unavailable); }
      if id in tenants && tenants[id].deletedAt.None? {
        return Ok(Some(RecordOf(id, tenants[id])));
      }
      r := Ok(None);
    }

    /** Finds the live row of that name, which is unique in a valid database. */
    method GetTenantByName(name: string) returns (r: Result<Record>)
      requires Valid(State())
      ensures r == Err(Unavailable)
              || (r == Err(NoRows) && forall id | Live(State(), id) :: tenants[id].name != name)
              || (r.Ok? && GetByID(State(), r.value.id) == Some(r.value) && r.value.name == name)
      ensures reliable ==> r != Err(Unavailable)
    {
      var down := Fails();
      if down { return Err(Unavailable); }
      var hits := set id | id in tenants && tenants[id].name == name && tenants[id].deletedAt.None?;
      if hits == {} {
        assert forall id | Live(State(), id) && tenants[id].name == name :: id in hits;
        return Err(NoRows);
      }
      var id :| id in hits;
      r := Ok(RecordOf(id, tenants[id]));
    }

    /** The three views agree: the list holds each tenant found by id, once, and nothing else;
        ids, names and namespaces in it are pairwise distinct. */
    method ListTenants() returns (r: Result<seq<Record>>)
      requires Valid(State())
      ensures r == Err(Unavailable) || r.Ok?
      ensures r.Ok? ==> forall id, x :: GetByID(State(), id) == Some(x) <==> x in r.value && x.id == id
      ensures r.Ok? ==> forall i, j | 0 <= i < j < |r.value| ::
                r.value[i].id != r.value[j].id && r.value[i].name != r.value[j].name
                && r.value[i].namespace != r.value[j].namespace
      ensures reliable ==> r != Err(Unavailable)
    {
      var down := Fails();
      if down { return Err(Unavailable); }
      var rows := set id | id in tenants && tenants[id].deletedAt.None?;
      var list: seq<Record> := [];
      ghost var seen: set<string> := {};
      while rows != {}
        invariant rows !! seen && rows + seen == set id | id in tenants && tenants[id].deletedAt.None?
        invariant forall i | 0 <= i < |list| :: list[i].id in seen && GetByID(State(), list[i].id) == Some(list[i])
        invariant forall id | id in seen :: RecordOf(id, tenants[id]) in list
        invariant forall i, j | 0 <= i < j < |list| :: list[i].id != list[j].id
        decreases rows
      {
        var id :| id in rows;
        var x := RecordOf(id, tenants[id]);
        list := list + [x];
        rows, seen := rows - {id}, seen + {id};
      }
      return Ok(list);
    }

    method UpdateTenant(now: nat, uid: string, spec: Spec) returns (r: Result<()>)
      requires Valid(State())
      modifies this
      ensures Valid(State())
      ensures SameElsewhere(old(State()), State(), uid)
      ensures r == Err(Unavailable) ==> State() == old(State())
      ensures r != Err(Unavailable) ==>
                var (after, done) := Refresh(old(State()), now, uid, spec);
                State() == after && r == (if done then Ok(()) else Err(Rejected))
      ensures reliable ==> r != Err(Unavailable)
    {
      hide Valid, SameElsewhere;
      ApplyKeepsValid(State(), Timed(now, UpdateOp(uid, spec)));
      ApplyIsLocal(State(), Timed(now, UpdateOp(uid, spec)));
      var down := Fails();
      if down { return Err(Unavailable); }
      if uid in tenants && tenants[uid].deletedAt.None? {
        if |spec.tier| > 20 || |spec.ownerEmail| > 255 { return Err(Rejected); }
        tenants := tenants[uid := tenants[uid].(tier := spec.tier, ownerEmail := spec.ownerEmail, updatedAt := now)];
      }
      r := Ok(());
    }

    method DeleteTenant(now: nat, id: string) returns (r: Result<()>)
      requires Valid(State())
      modifies this
      ensures Valid(State())
      ensures SameElsewhere(old(State()), State(), id)
      ensures r == Err(Unavailable) ==> State() == old(State())
      ensures r != Err(Unavailable) ==> r == Ok(()) && State() == SoftDelete(old(State()), now, id)
      ensures r.Ok? ==> !Live(State(), id)
      ensures reliable ==> r != Err(Unavailable)
    {
      hide Valid, SameElsewhere;
      ApplyKeepsValid(State(), Timed(now, DeleteOp(id)));
      ApplyIsLocal(State(), Timed(now, DeleteOp(id)));
      var down := Fails();
      if down { return Err(Unavailable); }
      if id in tenants && tenants[id].deletedAt.None? {
        tenants := tenants[id := tenants[id].(deletedAt := Some(now))];
      }
      r := Ok(());
    }

    method HardDeleteTenant(id: string) returns (r: Result<()>)
      requires Valid(State())
      modifies this
      ensures Valid(State())
      ensures SameElsewhere(old(State()), State(), id)
      ensures r == Err(Unavailable) ==> State() == old(State())
      ensures r != Err(Unavailable) ==> r == Ok(()) && State() == HardDelete(old(State()), id)
      ensures reliable ==> r != Err(Unavailable)
    {
      hide Valid, SameElsewhere;
      ApplyKeepsValid(State(), Timed(0, HardDeleteOp(id)));
      ApplyIsLocal(State(), Timed(0, HardDeleteOp(id)));
      var down := Fails();
      if down { return Err(Unavailable); }
      tenants := tenants - {id};
      members := map k | k in members && k.0 != id :: members[k];
      r := Ok(());
    }

    method AddMember(now: nat, tenantId: string, userId: string, role: string) returns (r: Result<()>)
      requires Valid(State())
      modifies this
      ensures Valid(State())
      ensures SameElsewhere(old(State()), State(), tenantId)
      ensures r == Err(Unavailable) ==> State() == old(State())
      ensures r != Err(Unavailable) ==>
                && State() == Join(old(State()), now, tenantId, userId, role)
                && (r == Ok(()) <==> MayJoin(old(State()), tenantId, userId, role))
      ensures r.Ok? ==>
                var was := MemberAt(old(State()), tenantId, userId);
                MemberAt(State(), tenantId, userId) == Some(MemberRow(role, if was.None? then now else was.value.createdAt))
      ensures reliable ==> r != Err(Unavailable)
    {
      hide Valid, SameElsewhere;
      ApplyKeepsValid(State(), Timed(now, AddOp(tenantId, userId, role)));
      ApplyIsLocal(State(), Timed(now, AddOp(tenantId, userId, role)));
      var down := Fails();
      if down { return Err(Unavailable); }
      if tenantId !in tenants || |userId| > 255 || |role| > 20 { return Err(Rejected); }
      var k := (tenantId, userId);
      if k in members {
        members := members[k := members[k].(role := role)];
      } else {
        members := members[k := MemberRow(role, now)];
      }
      r := Ok(());
    }

    method RemoveMember(tenantId: string, userId: string) returns (r: Result<()>)
      requires Valid(State())
      modifies this
      ensures Valid(State())
      ensures SameElsewhere(old(State()), State(), tenantId)
      ensures r == Err(Unavailable) ==> State() == old(State())
      ensures r != Err(Unavailable) ==> r == Ok(()) && State() == Leave(old(State()), tenantId, userId)
      ensures reliable ==> r != Err(Unavailable)
    {
      hide Valid, SameElsewhere;
      ApplyKeepsValid(State(), Timed(0, RemoveOp(tenantId, userId)));
      ApplyIsLocal(State(), Timed(0, RemoveOp(tenantId, userId)));
      var down := Fails();
      if down { return Err(Unavailable); }
      members := members - {(tenantId, userId)};
      r := Ok(());
    }

    method GetMemberRole(tenantId: string, userId: string) returns (r: Result<string>)
      ensures r == Err(Unavailable)
              || r == (match RoleOf(State(), tenantId, userId) case None => Err(NoRows) case Some(x) => Ok(x))
      ensures reliable ==> r != Err(Unavailable)
    {
      var down := Fails();
      if down { return Err(Unavailable); }
      if (tenantId, userId) !in members { return Err(NoRows); }
      r := Ok(members[(tenantId, userId)].role);
    }

    /** Each user of the tenant once, with the role GetMemberRole gives, and nobody else. */
    method ListMembers(tenantId: string) returns (r: Result<seq<Member>>)
      ensures r == Err(Unavailable) || r.Ok?
      ensures r.Ok? ==> forall i | 0 <= i < |r.value| ::
                MemberAt(State(), tenantId, r.value[i].userId) == Some(MemberRow(r.value[i].role, r.value[i].createdAt))
      ensures r.Ok? ==> forall i, j | 0 <= i < j < |r.value| :: r.value[i].userId != r.value[j].userId
      ensures r.Ok? ==> forall u :: RoleOf(State(), tenantId, u).Some? <==> u in Users(r.value)
      ensures reliable ==> r != Err(Unavailable)
    {
      var down := Fails();
      if down { return Err(Unavailable); }
      var todo := set k | k in members && k.0 == tenantId :: k.1;
      ghost var all := todo;
      assert forall u :: u in all <==> (tenantId, u) in members;
      var list: seq<Member> := [];
      while todo != {}
        invariant todo <= all && Users(list) == all - todo
        invariant forall i | 0 <= i < |list| :: MemberAt(State(), tenantId, list[i].userId) == Some(MemberRow(list[i].role, list[i].createdAt))
        invariant forall i, j | 0 <= i < j < |list| :: list[i].userId != list[j].userId
        decreases todo
      {
        var u :| u in todo;
        UsersAppend(list, Member(u, members[(tenantId, u)].role, members[(tenantId, u)].createdAt));
        assert forall i | 0 <= i < |list| :: list[i].userId in Users(list);
        list := list + [Member(u, members[(tenantId, u)].role, members[(tenantId, u)].createdAt)];
        todo := todo - {u};
      }
      return Ok(list);
    }
  }
}
