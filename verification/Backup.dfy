/**
  Company backup and restore.  A backup lists the company's rows table by table; a restore deletes the
  company's current rows and inserts the listed ones, in one transaction.

  The database enforces its foreign keys: a DELETE cascades, nulls or is refused as each key says, and
  an INSERT is refused when a row it inserts names one that does not exist once the statement is done.
 */
module Backup {
  import opened Wrappers
  import opened BackupTables
  import Collections

  const CHUNK := 500

  datatype Key = Key(table: Table, id: int)

  datatype Ref = Ref(to: Key, onDelete: OnDelete)

  /** The columns that decide scope, the other foreign-key columns, the credential, and the rest. */
  datatype Row = Row(company: Option<int>, parent: Option<int>, refs: set<Ref>, password: Option<string>, data: string)

  datatype Saved = Saved(id: int, row: Row)

  type Rows = map<int, Row>
  type Db = map<Table, Rows>
  type Payload = map<Table, seq<Saved>>

  /**
    Each table's scope and foreign keys, and the insertion order with each table's place in it.  The
    deletion order is the numbering of the tables.
   */
  datatype Plan = Plan(scope: Table -> Scope, keys: Table -> set<ForeignKey>, order: seq<Table>, rank: Table -> nat)

  ghost predicate Full(db: Db)
  {
    forall t: Table :: t in db
  }

  ghost predicate SoundScopes(plan: Plan)
  {
    && (forall t: Table :: plan.scope(t).Single? <==> t == COMPANIES)
    && (forall t: Table :: plan.scope(t).ChildOf? ==>
          var p := plan.scope(t).parent; t < p && plan.scope(p) == OfCompany && p != USERS && plan.rank(p) < plan.rank(t))
    && plan.scope(USERS) == OfCompany && plan.scope(BRANCHES) == OfCompany
  }

  /** Every table is inserted in exactly one place, the company first. */
  ghost predicate SoundOrder(plan: Plan)
  {
    && (forall i :: 0 <= i < |plan.order| ==> plan.rank(plan.order[i]) == i)
    && (forall t: Table :: plan.rank(t) < |plan.order| && plan.order[plan.rank(t)] == t)
    && (forall t: Table :: t != COMPANIES ==> plan.rank(COMPANIES) < plan.rank(t))
  }

  /** Keys that delete or block lead forward in the deletion order; keys lead backward in the insertion order, or to users. */
  ghost predicate SoundKey(plan: Plan, t: Table, f: ForeignKey)
  {
    && (f.onDelete.SetNull? || ((f.to == t || t < f.to) && t != USERS && t != COMPANIES))
    && (f.to == t || f.to == USERS || plan.rank(f.to) < plan.rank(t))
    && (t == BRANCHES ==> f.onDelete.SetNull?)
    && (t == USERS ==> f.to == BRANCHES)
  }

  /** What the program's comments ask of its two lists, given the schema. */
  ghost predicate Sound(plan: Plan)
  {
    && SoundScopes(plan)
    && SoundOrder(plan)
    && (forall t: Table, f :: f in plan.keys(t) ==> SoundKey(plan, t, f))
  }

  // ---------------------------------------------------------------- scope

  predicate Belongs(scope: Scope, parents: Rows, company: int, id: int, row: Row)
  {
    match scope
    case OfCompany => row.company == Some(company)
    case Single => id == company
    case ChildOf(_) => row.parent.Some? && row.parent.value in parents && parents[row.parent.value].company == Some(company)
  }

  function Mine(scope: Scope, parents: Rows, company: int, rows: Rows): Rows
  {
    map id | id in rows && Belongs(scope, parents, company, id, rows[id]) :: rows[id]
  }

  function Others(scope: Scope, parents: Rows, company: int, rows: Rows): Rows
  {
    map id | id in rows && !Belongs(scope, parents, company, id, rows[id]) :: rows[id]
  }

  function ParentRows(scope: Scope, db: Db): Rows
  {
    if scope.ChildOf? && scope.parent in db then db[scope.parent] else map[]
  }

  /** The rows of `t` that the backup's query and the restore's DELETE select for `company`. */
  function MineIn(plan: Plan, db: Db, company: int, t: Table): Rows
    requires t in db
  {
    Mine(plan.scope(t), ParentRows(plan.scope(t), db), company, db[t])
  }

  function OthersIn(plan: Plan, db: Db, company: int, t: Table): Rows
    requires t in db
  {
    Others(plan.scope(t), ParentRows(plan.scope(t), db), company, db[t])
  }

  // ---------------------------------------------------------------- references between rows

  predicate Has(db: Db, k: Key)
  {
    k.table in db && k.id in db[k.table]
  }

  function AllKeys(db: Db): set<Key>
  {
    set t, id | t in db && id in db[t] :: Key(t, id)
  }

  /** Every row a row names: through its company column, its document, and its other foreign keys. */
  function Links(plan: Plan, t: Table, row: Row): set<Ref>
  {
    row.refs
    + (if row.company.Some? then {Ref(Key(COMPANIES, row.company.value), Cascade)} else {})
    + (if plan.scope(t).ChildOf? && row.parent.Some? then {Ref(Key(plan.scope(t).parent, row.parent.value), Cascade)} else {})
  }

  function LinksOf(plan: Plan, db: Db, k: Key): set<Ref>
    requires Has(db, k)
  {
    Links(plan, k.table, db[k.table][k.id])
  }

  // ---------------------------------------------------------------- backup

  /** `saved` lists exactly the rows of `rows`, each once, in any order. */
  ghost predicate Lists(saved: seq<Saved>, rows: Rows)
  {
    && (forall i :: 0 <= i < |saved| ==> saved[i].id in rows && saved[i].row == rows[saved[i].id])
    && (forall i, j :: 0 <= i < j < |saved| ==> saved[i].id != saved[j].id)
    && (forall id :: id in rows ==> exists i :: 0 <= i < |saved| && saved[i].id == id)
  }

  /** Rows as they leave the database: users without their password hashes. */
  function Exported(t: Table, rows: Rows): Rows
  {
    if t == USERS then map id | id in rows :: rows[id].(password := None) else rows
  }

  /** A backup in which every table could be read. */
  ghost predicate IsBackup(plan: Plan, db: Db, company: int, payload: Payload)
    requires Full(db)
  {
    forall t: Table :: t in payload && Lists(payload[t], Exported(t, MineIn(plan, db, company, t)))
  }

  /** A query's rows, in whatever order the database returns them. */
  method ListRows(rows: Rows) returns (saved: seq<Saved>)
    ensures Lists(saved, rows)
  {
    saved := [];
    var left := rows.Keys;
    while left != {}
      invariant left <= rows.Keys
      invariant forall i :: 0 <= i < |saved| ==> saved[i].id in rows && saved[i].row == rows[saved[i].id] && saved[i].id !in left
      invariant forall i, j :: 0 <= i < j < |saved| ==> saved[i].id != saved[j].id
      invariant forall id :: id in rows && id !in left ==> exists i :: 0 <= i < |saved| && saved[i].id == id
      decreases |left|
    {
      var id := Collections.TakeOne(left);
      ghost var before := saved;
      saved := saved + [Saved(id, rows[id])];
      left := left - {id};
      assert saved[|before|].id == id;
      forall other | other in rows && other !in left
        ensures exists i :: 0 <= i < |saved| && saved[i].id == other
      {
        if other != id {
          var i :| 0 <= i < |before| && before[i].id == other;
          assert saved[i].id == other;
        }
      }
    }
  }

  /** `db:backup-company`, when no query fails. */
  method BackupCompany(plan: Plan, db: Db, company: int) returns (payload: Payload)
    requires Full(db)
    ensures IsBackup(plan, db, company, payload)
  {
    payload := map[];
    for t := 0 to TABLES
      invariant forall u: Table :: u < t ==> u in payload && Lists(payload[u], Exported(u, MineIn(plan, db, company, u)))
    {
      var saved := ListRows(Exported(t, MineIn(plan, db, company, t)));
      payload := payload[t := saved];
    }
  }

  // ---------------------------------------------------------------- validation

  /** What a single row must satisfy on its own. */
  predicate ValidRow(t: Table, scope: Scope, company: int, s: Saved)
  {
    && (t == USERS ==> s.row.password.None?)
    && match scope
       case OfCompany => s.row.company == Some(company)
       case Single => s.id == company
       case ChildOf(_) => s.row.parent.Some? && (s.row.company.Some? ==> s.row.company.value == company)
  }

  predicate ListsParent(payload: Payload, p: Table, id: int)
  {
    p in payload && exists i :: 0 <= i < |payload[p]| && payload[p][i].id == id
  }

  predicate HoldsParent(db: Db, p: Table, company: int, id: int)
  {
    p in db && id in db[p] && db[p][id].company == Some(company)
  }

  /** The parents named by the first `k` lines. */
  function ParentIds(rows: seq<Saved>, k: nat): (ids: set<int>)
    requires k <= |rows|
  {
    set j | 0 <= j < k && rows[j].row.parent.Some? :: rows[j].row.parent.value
  }

  predicate AllHeld(db: Db, p: Table, company: int, ids: set<int>)
  {
    forall id :: id in ids ==> HoldsParent(db, p, company, id)
  }

  /**
    A line whose parent the payload does not list is looked up in the database, together with the
    parents of every line before it.
   */
  predicate ParentKnown(db: Db, payload: Payload, p: Table, company: int, rows: seq<Saved>, k: nat)
    requires k < |rows|
  {
    rows[k].row.parent.Some? &&
    (ListsParent(payload, p, rows[k].row.parent.value) || AllHeld(db, p, company, ParentIds(rows, k + 1)))
  }

  predicate ValidLine(db: Db, payload: Payload, company: int, t: Table, scope: Scope, rows: seq<Saved>, k: nat)
    requires k < |rows|
  {
    ValidRow(t, scope, company, rows[k]) && (scope.ChildOf? ==> ParentKnown(db, payload, scope.parent, company, rows, k))
  }

  predicate ValidLines(db: Db, payload: Payload, company: int, t: Table, scope: Scope, rows: seq<Saved>, n: nat)
    requires n <= |rows|
  {
    n == 0 || (ValidLines(db, payload, company, t, scope, rows, n - 1) && ValidLine(db, payload, company, t, scope, rows, n - 1))
  }

  predicate ValidTable(plan: Plan, db: Db, payload: Payload, company: int, t: Table)
    requires t in payload
  {
    ValidLines(db, payload, company, t, plan.scope(t), payload[t], |payload[t]|)
  }

  ghost predicate Validates(plan: Plan, db: Db, company: int, payload: Payload)
  {
    forall t: Table :: t in payload ==> ValidTable(plan, db, payload, company, t)
  }

  lemma ParentIdsNext(rows: seq<Saved>, k: nat)
    requires k < |rows| && rows[k].row.parent.Some?
    ensures ParentIds(rows, k + 1) == ParentIds(rows, k) + {rows[k].row.parent.value}
  {
  }

  /** A line's parent is looked for in the payload first, then, with every parent seen so far, in the database. */
  method ValidateLine(db: Db, payload: Payload, company: int, t: Table, scope: Scope, rows: seq<Saved>, k: nat, seen: set<int>)
    returns (ok: bool, parentIds: set<int>)
    requires k < |rows| && (scope.ChildOf? ==> seen == ParentIds(rows, k))
    ensures ok == ValidLine(db, payload, company, t, scope, rows, k)
    ensures ok && scope.ChildOf? ==> parentIds == ParentIds(rows, k + 1)
  {
    ok, parentIds := ValidRow(t, scope, company, rows[k]), seen;
    if ok && scope.ChildOf? {
      parentIds := seen + {rows[k].row.parent.value};
      ParentIdsNext(rows, k);
      ok := ListsParent(payload, scope.parent, rows[k].row.parent.value) || AllHeld(db, scope.parent, company, parentIds);
    }
  }

  lemma {:induction false} OneInvalidLine(
    db: Db, payload: Payload, company: int, t: Table, scope: Scope, rows: seq<Saved>, k: nat, n: nat)
    requires k < n <= |rows|
    ensures ValidLines(db, payload, company, t, scope, rows, n) ==> ValidLine(db, payload, company, t, scope, rows, k)
    decreases n
  {
    if k < n - 1 {
      OneInvalidLine(db, payload, company, t, scope, rows, k, n - 1);
    }
  }

  /** The row loop of `validateBackupRows`. */
  method ValidateRows(db: Db, payload: Payload, company: int, t: Table, scope: Scope, rows: seq<Saved>) returns (ok: bool)
    ensures ok == ValidLines(db, payload, company, t, scope, rows, |rows|)
  {
    var parentIds: set<int> := {};
    for k := 0 to |rows|
      invariant ValidLines(db, payload, company, t, scope, rows, k)
      invariant scope.ChildOf? ==> parentIds == ParentIds(rows, k)
    {
      ok, parentIds := ValidateLine(db, payload, company, t, scope, rows, k, parentIds);
      if !ok {
        OneInvalidLine(db, payload, company, t, scope, rows, k, |rows|);
        return;
      }
    }
    ok := true;
  }

  /** `validateBackupRows`. */
  method ValidateBackupRows(plan: Plan, db: Db, company: int, payload: Payload) returns (ok: bool)
    ensures ok == Validates(plan, db, company, payload)
  {
    for t := 0 to TABLES
      invariant forall u: Table :: u < t && u in payload ==> ValidTable(plan, db, payload, company, u)
    {
      if t in payload {
        var valid := ValidateRows(db, payload, company, t, plan.scope(t), payload[t]);
        if !valid {
          assert !ValidTable(plan, db, payload, company, t);
          return false;
        }
      }
    }
    ok := true;
  }

  // ---------------------------------------------------------------- one DELETE

  predicate Cascades(plan: Plan, db: Db, k: Key, into: set<Key>)
    requires Has(db, k)
  {
    exists r :: r in LinksOf(plan, db, k) && r.onDelete.Cascade? && r.to in into
  }

  /** Rows outside `found` that name a row of it by a cascading key. */
  function Dependents(plan: Plan, db: Db, found: set<Key>): set<Key>
  {
    set k | k in AllKeys(db) && k !in found && Cascades(plan, db, k, found)
  }

  lemma DependentsShrink(plan: Plan, db: Db, found: set<Key>)
    requires Dependents(plan, db, found) != {}
    ensures |AllKeys(db) - (found + Dependents(plan, db, found))| < |AllKeys(db) - found|
  {
    Collections.FewerLeft(AllKeys(db), found, Dependents(plan, db, found));
  }

  /** The rows that disappear with `found`: the cascade, level by level, until nothing more is reached. */
  function Closure(plan: Plan, db: Db, found: set<Key>): set<Key>
    decreases |AllKeys(db) - found|
  {
    var next := Dependents(plan, db, found);
    if next == {} then found
    else
      DependentsShrink(plan, db, found);
      Closure(plan, db, found + next)
  }

  predicate Blocks(plan: Plan, db: Db, k: Key, dead: set<Key>)
    requires Has(db, k)
  {
    exists r :: r in LinksOf(plan, db, k) && r.onDelete.Block? && r.to in dead
  }

  /** A row that stays names a row that goes, by a key that forbids it. */
  predicate Blocked(plan: Plan, db: Db, dead: set<Key>)
  {
    exists k :: k in AllKeys(db) && k !in dead && Blocks(plan, db, k, dead)
  }

  /** A surviving row: its keys into the deleted rows are nulled. */
  function Nulled(row: Row, dead: set<Key>): Row
  {
    row.(refs := set r | r in row.refs && r.to !in dead)
  }

  function PruneTable(t: Table, rows: Rows, dead: set<Key>): Rows
  {
    map id | id in rows && Key(t, id) !in dead :: Nulled(rows[id], dead)
  }

  function Prune(db: Db, dead: set<Key>): Db
  {
    map t | t in db :: PruneTable(t, db[t], dead)
  }

  /** The rows one table's DELETE selects. */
  function SelectedIn(plan: Plan, db: Db, company: int, t: Table): set<Key>
    requires t in db
  {
    set id | id in MineIn(plan, db, company, t) :: Key(t, id)
  }

  function DeleteFrom(plan: Plan, db: Db, company: int, t: Table): Option<Db>
    requires t in db
  {
    var dead := Closure(plan, db, SelectedIn(plan, db, company, t));
    if Blocked(plan, db, dead) then None else Some(Prune(db, dead))
  }

  // ---------------------------------------------------------------- the deletions

  predicate HasCredentials(rows: seq<Saved>)
  {
    exists i :: 0 <= i < |rows| && rows[i].row.password.Some?
  }

  /** Tables the payload lacks, and users that carry no credentials, have no DELETE or INSERT of their own. */
  predicate Skips(payload: Payload, t: Table)
  {
    t !in payload || (t == USERS && !HasCredentials(payload[t]))
  }

  /** The database after the first `n` turns of the deletion loop; none once a DELETE was refused. */
  function Deletions(plan: Plan, db: Db, company: int, payload: Payload, n: nat): (left: Option<Db>)
    requires n <= TABLES && Full(db)
    ensures left.Some? ==> Full(left.value)
  {
    if n == 0 then Some(db)
    else
      var before := Deletions(plan, db, company, payload, n - 1);
      if before.None? || Skips(payload, n - 1) then before
      else DeleteFrom(plan, before.value, company, n - 1)
  }

  /** Once refused, refused for good. */
  lemma {:induction false} RefusalLasts(plan: Plan, db: Db, company: int, payload: Payload, n: nat, m: nat)
    requires n <= m <= TABLES && Full(db) && Deletions(plan, db, company, payload, n).None?
    ensures Deletions(plan, db, company, payload, m).None?
    decreases m
  {
    if n < m {
      RefusalLasts(plan, db, company, payload, n, m - 1);
    }
  }

  /** The DELETE loop. */
  method DeleteRows(plan: Plan, db: Db, company: int, payload: Payload) returns (left: Option<Db>)
    requires Full(db)
    ensures left == Deletions(plan, db, company, payload, TABLES)
  {
    var current := db;
    for t := 0 to TABLES
      invariant Full(current)
      invariant Deletions(plan, db, company, payload, t) == Some(current)
    {
      if Skips(payload, t) {
        continue;
      }
      var step := DeleteFrom(plan, current, company, t);
      if step.None? {
        RefusalLasts(plan, db, company, payload, t + 1, TABLES);
        return None;
      }
      current := step.value;
    }
    left := Some(current);
  }

  // ---------------------------------------------------------------- one INSERT

  predicate HasId(saved: seq<Saved>, id: int)
  {
    exists i :: 0 <= i < |saved| && saved[i].id == id
  }

  /** The table with the listed rows added; none when an id is taken. */
  function InsertAll(rows: Rows, saved: seq<Saved>): Option<Rows>
  {
    if saved == [] then Some(rows)
    else
      var last := saved[|saved| - 1];
      match InsertAll(rows, saved[..|saved| - 1])
      case None => None
      case Some(m) => if last.id in m then None else Some(m[last.id := last.row])
  }

  /** The key leads to a row of another table, or to one that `own`, the table inserted into, holds. */
  predicate Holds(db: Db, t: Table, own: Rows, r: Ref)
  {
    if r.to.table == t then r.to.id in own else Has(db, r.to)
  }

  predicate AllHold(plan: Plan, db: Db, t: Table, own: Rows, row: Row)
  {
    forall r :: r in Links(plan, t, row) ==> Holds(db, t, own, r)
  }

  /** One multi-row INSERT into `t`, whose rows so far are `rows`; the keys are checked when it is done. */
  function Statement(plan: Plan, db: Db, t: Table, rows: Rows, chunk: seq<Saved>): Option<Rows>
  {
    match InsertAll(rows, chunk)
    case None => None
    case Some(m) => if forall k :: 0 <= k < |chunk| ==> AllHold(plan, db, t, m, chunk[k].row) then Some(m) else None
  }

  // ---------------------------------------------------------------- chunks

  /** How many rows are in once the statement that inserts row `k` is done. */
  function ChunkEnd(k: nat, n: nat): nat
  {
    var end := (k / CHUNK + 1) * CHUNK;
    if end <= n then end else n
  }

  /** Row `k` is accepted when the first `upTo` rows are in: its keys lead to other tables' rows, or to rows already there. */
  predicate RowLands(plan: Plan, db: Db, t: Table, rows: Rows, saved: seq<Saved>, k: nat, upTo: nat)
    requires k < |saved| && upTo <= |saved|
  {
    forall r :: r in Links(plan, t, saved[k].row) ==>
      if r.to.table == t then r.to.id in rows || HasId(saved[..upTo], r.to.id) else Has(db, r.to)
  }

  /** Every id is free, and every row is accepted when its own chunk is in. */
  predicate ChunksLand(plan: Plan, db: Db, t: Table, rows: Rows, saved: seq<Saved>)
  {
    && InsertAll(rows, saved).Some?
    && forall k :: 0 <= k < |saved| ==> RowLands(plan, db, t, rows, saved, k, ChunkEnd(k, |saved|))
  }

  lemma {:induction false} InsertJoins(rows: Rows, a: seq<Saved>, b: seq<Saved>)
    ensures InsertAll(rows, a + b) == match InsertAll(rows, a) case None => None case Some(m) => InsertAll(m, b)
    decreases |b|
  {
    if b == [] {
      assert a + b == a;
    } else {
      InsertJoins(rows, a, b[..|b| - 1]);
      assert (a + b)[..|a + b| - 1] == a + b[..|b| - 1];
    }
  }

  ghost predicate FreshIds(rows: Rows, saved: seq<Saved>)
  {
    && (forall i :: 0 <= i < |saved| ==> saved[i].id !in rows)
    && (forall i, j :: 0 <= i < j < |saved| ==> saved[i].id != saved[j].id)
  }

  /** `after` is `before` with the listed rows added. */
  ghost predicate Adds(before: Rows, after: Rows, saved: seq<Saved>)
  {
    && (forall id :: id in after <==> id in before || HasId(saved, id))
    && (forall id :: id in before ==> id in after && after[id] == before[id])
    && (forall i :: 0 <= i < |saved| ==> saved[i].id in after && after[saved[i].id] == saved[i].row)
  }

  lemma HasIdSnoc(front: seq<Saved>, last: Saved, id: int)
    ensures HasId(front + [last], id) <==> HasId(front, id) || id == last.id
  {
    var saved := front + [last];
    if HasId(front, id) {
      var i :| 0 <= i < |front| && front[i].id == id;
      assert saved[i].id == id;
    }
    if id == last.id {
      assert saved[|front|].id == id;
    }
  }

  lemma FreshSnoc(rows: Rows, saved: seq<Saved>)
    requires saved != [] && FreshIds(rows, saved[..|saved| - 1])
    requires !HasId(saved[..|saved| - 1], saved[|saved| - 1].id) && saved[|saved| - 1].id !in rows
    ensures FreshIds(rows, saved)
  {
    var front, last := saved[..|saved| - 1], saved[|saved| - 1];
    forall i, j | 0 <= i < j < |saved| ensures saved[i].id != saved[j].id {
      if j == |front| {
        assert front[i].id != last.id;
      }
    }
  }

  /** Adding rows goes through exactly when all ids are new, and then adds exactly the listed rows. */
  lemma {:induction false} InsertMeans(rows: Rows, saved: seq<Saved>)
    ensures InsertAll(rows, saved).Some? <==> FreshIds(rows, saved)
    ensures InsertAll(rows, saved).Some? ==> Adds(rows, InsertAll(rows, saved).value, saved)
    decreases |saved|
  {
    if saved != [] {
      var front, last := saved[..|saved| - 1], saved[|saved| - 1];
      InsertMeans(rows, front);
      forall id ensures HasId(saved, id) <==> HasId(front, id) || id == last.id {
        HasIdSnoc(front, last, id);
        Collections.FrontLast(saved);
      }
      if FreshIds(rows, front) && !HasId(front, last.id) && last.id !in rows {
        FreshSnoc(rows, saved);
      }
    }
  }

  /** The chunks so far are in, and each of their rows was accepted. */
  ghost predicate InsertedTo(plan: Plan, db: Db, t: Table, rows: Rows, saved: seq<Saved>, start: int, grown: Rows)
  {
    && 0 <= start <= |saved|
    && (start % CHUNK == 0 || start == |saved|)
    && InsertAll(rows, saved[..start]) == Some(grown)
    && forall k :: 0 <= k < start ==> RowLands(plan, db, t, rows, saved, k, ChunkEnd(k, |saved|))
  }

  lemma PrefixFits(rows: Rows, saved: seq<Saved>, start: nat, end: nat, grown: Rows)
    requires start <= end <= |saved| && InsertAll(rows, saved[..start]) == Some(grown)
    ensures InsertAll(rows, saved[..end]) == InsertAll(grown, saved[start..end])
    ensures InsertAll(rows, saved[..end]).None? ==> InsertAll(rows, saved).None?
  {
    assert saved[..start] + saved[start..end] == saved[..end];
    assert saved[..end] + saved[end..] == saved;
    InsertJoins(rows, saved[..start], saved[start..end]);
    InsertJoins(rows, saved[..end], saved[end..]);
  }

  lemma ChunkEndIs(k: nat, start: nat, end: nat, n: nat)
    requires start % CHUNK == 0 && start <= k < end <= n && end == if start + CHUNK <= n then start + CHUNK else n
    ensures ChunkEnd(k, n) == end
  {
    assert k / CHUNK == start / CHUNK;
  }

  lemma HoldsIsLands(plan: Plan, db: Db, t: Table, rows: Rows, saved: seq<Saved>, k: nat, upTo: nat, m: Rows)
    requires k < |saved| && upTo <= |saved| && InsertAll(rows, saved[..upTo]) == Some(m)
    ensures AllHold(plan, db, t, m, saved[k].row) <==> RowLands(plan, db, t, rows, saved, k, upTo)
  {
    InsertMeans(rows, saved[..upTo]);
  }

  lemma ChunkRowsDecide(plan: Plan, db: Db, t: Table, rows: Rows, saved: seq<Saved>, start: int, end: int, grown: Rows, m: Rows)
    requires InsertedTo(plan, db, t, rows, saved, start, grown) && start < |saved|
    requires end == if start + CHUNK <= |saved| then start + CHUNK else |saved|
    requires InsertAll(grown, saved[start..end]) == InsertAll(rows, saved[..end]) == Some(m)
    ensures Statement(plan, db, t, grown, saved[start..end]).None? ==> !ChunksLand(plan, db, t, rows, saved)
    ensures Statement(plan, db, t, grown, saved[start..end]).Some? ==>
              Statement(plan, db, t, grown, saved[start..end]) == Some(m) && InsertedTo(plan, db, t, rows, saved, end, m)
  {
    var chunk := saved[start..end];
    forall k | start <= k < end
      ensures AllHold(plan, db, t, m, chunk[k - start].row) <==> RowLands(plan, db, t, rows, saved, k, ChunkEnd(k, |saved|))
    {
      ChunkEndIs(k, start, end, |saved|);
      HoldsIsLands(plan, db, t, rows, saved, k, end, m);
    }
    if !(forall k :: 0 <= k < |chunk| ==> AllHold(plan, db, t, m, chunk[k].row)) {
      var k :| 0 <= k < |chunk| && !AllHold(plan, db, t, m, chunk[k].row);
      assert !RowLands(plan, db, t, rows, saved, start + k, ChunkEnd(start + k, |saved|));
    } else {
      forall k | start <= k < end ensures RowLands(plan, db, t, rows, saved, k, ChunkEnd(k, |saved|)) {
        assert AllHold(plan, db, t, m, chunk[k - start].row);
      }
    }
  }

  lemma ChunkDecides(plan: Plan, db: Db, t: Table, rows: Rows, saved: seq<Saved>, start: int, end: int, grown: Rows)
    requires InsertedTo(plan, db, t, rows, saved, start, grown) && start < |saved|
    requires end == if start + CHUNK <= |saved| then start + CHUNK else |saved|
    ensures Statement(plan, db, t, grown, saved[start..end]).None? ==> !ChunksLand(plan, db, t, rows, saved)
    ensures Statement(plan, db, t, grown, saved[start..end]).Some? ==>
              InsertedTo(plan, db, t, rows, saved, end, Statement(plan, db, t, grown, saved[start..end]).value)
  {
    PrefixFits(rows, saved, start, end, grown);
    if InsertAll(rows, saved[..end]).Some? {
      ChunkRowsDecide(plan, db, t, rows, saved, start, end, grown, InsertAll(rows, saved[..end]).value);
    }
  }

  /** One table's rows in statements of at most 500: accepted exactly when every row is accepted within its own chunk. */
  method InsertChunks(plan: Plan, db: Db, t: Table, rows: Rows, saved: seq<Saved>) returns (written: Option<Rows>)
    ensures written == if ChunksLand(plan, db, t, rows, saved) then InsertAll(rows, saved) else None
  {
    var grown := rows;
    var start := 0;
    while start < |saved|
      invariant InsertedTo(plan, db, t, rows, saved, start, grown)
    {
      var end := if start + CHUNK <= |saved| then start + CHUNK else |saved|;
      var chunk := Statement(plan, db, t, grown, saved[start..end]);
      ChunkDecides(plan, db, t, rows, saved, start, end, grown);
      if chunk.None? {
        return None;
      }
      grown := chunk.value;
      start := end;
    }
    assert saved[..|saved|] == saved;
    written := Some(grown);
  }

  // ---------------------------------------------------------------- the whole restore

  /** A row has the foreign-key columns of its table, and no others. */
  ghost predicate Typed(plan: Plan, t: Table, row: Row)
  {
    forall r :: r in row.refs ==> ForeignKey(r.to.table, r.onDelete) in plan.keys(t)
  }

  ghost predicate TypedPayload(plan: Plan, payload: Payload)
  {
    forall t: Table, i :: t in payload && 0 <= i < |payload[t]| ==> Typed(plan, t, payload[t][i].row)
  }

  /** What a table holds after a restore that went through, given what the deletions left. */
  function Target(left: Db, payload: Payload, t: Table): Rows
    requires t in left
  {
    if Skips(payload, t) then left[t]
    else
      match InsertAll(left[t], payload[t])
      case Some(rows) => rows
      case None => left[t]
  }

  function TargetDb(left: Db, payload: Payload): Db
  {
    map t | t in left :: Target(left, payload, t)
  }

  /** The table's rows are accepted, chunk by chunk, into what the deletions left of it. */
  predicate Lands(plan: Plan, left: Db, payload: Payload, t: Table)
    requires t in left
  {
    Skips(payload, t) || ChunksLand(plan, TargetDb(left, payload), t, left[t], payload[t])
  }

  /** Exactly the restores that go through. */
  ghost predicate Accepted(plan: Plan, db: Db, company: int, payload: Payload)
    requires Full(db)
  {
    && Validates(plan, db, company, payload)
    && Deletions(plan, db, company, payload, TABLES).Some?
    && forall t: Table :: Lands(plan, Deletions(plan, db, company, payload, TABLES).value, payload, t)
  }

  lemma LineIsValid(plan: Plan, db: Db, company: int, payload: Payload, t: Table, k: nat)
    requires Validates(plan, db, company, payload) && t in payload && k < |payload[t]|
    ensures ValidLine(db, payload, company, t, plan.scope(t), payload[t], k)
  {
    assert ValidTable(plan, db, payload, company, t);
    OneInvalidLine(db, payload, company, t, plan.scope(t), payload[t], k, |payload[t]|);
  }

  /** What an accepted line says of itself: it names a document, and no other company. */
  lemma LineIsOwn(plan: Plan, db: Db, company: int, payload: Payload, t: Table, k: nat)
    requires Validates(plan, db, company, payload) && t in payload && k < |payload[t]| && plan.scope(t).ChildOf?
    ensures payload[t][k].row.parent.Some?
    ensures payload[t][k].row.company == None || payload[t][k].row.company == Some(company)
  {
    LineIsValid(plan, db, company, payload, t, k);
  }

  /** One line whose document is not listed has the documents of all lines before it looked up as well: each must be the company's own in the database. */
  lemma LookupCoversEarlier(plan: Plan, db: Db, company: int, payload: Payload, t: Table, j: nat, k: nat)
    requires Validates(plan, db, company, payload) && t in payload && j <= k < |payload[t]| && plan.scope(t).ChildOf?
    requires payload[t][k].row.parent.Some? && !ListsParent(payload, plan.scope(t).parent, payload[t][k].row.parent.value)
    ensures payload[t][j].row.parent.Some?
    ensures var p, q := plan.scope(t).parent, payload[t][j].row.parent.value;
            p in db && q in db[p] && db[p][q].company == Some(company)
  {
    LineIsValid(plan, db, company, payload, t, k);
    LineIsValid(plan, db, company, payload, t, j);
    assert payload[t][j].row.parent.value in ParentIds(payload[t], k + 1);
  }

  /** A validated payload carries no credentials, and then both loops pass over the users. */
  lemma UsersAreSkipped(plan: Plan, db: Db, company: int, payload: Payload)
    requires Validates(plan, db, company, payload)
    ensures Skips(payload, USERS)
  {
    if USERS in payload && HasCredentials(payload[USERS]) {
      var i :| 0 <= i < |payload[USERS]| && payload[USERS][i].row.password.Some?;
      LineIsValid(plan, db, company, payload, USERS, i);
      assert false;
    }
  }

  lemma SameLookups(plan: Plan, a: Db, b: Db, t: Table, rows: Rows, saved: seq<Saved>)
    requires forall k, r :: 0 <= k < |saved| && r in Links(plan, t, saved[k].row) && r.to.table != t ==> (Has(a, r.to) <==> Has(b, r.to))
    ensures ChunksLand(plan, a, t, rows, saved) <==> ChunksLand(plan, b, t, rows, saved)
  {
    forall k | 0 <= k < |saved|
      ensures RowLands(plan, a, t, rows, saved, k, ChunkEnd(k, |saved|)) <==> RowLands(plan, b, t, rows, saved, k, ChunkEnd(k, |saved|))
    {
    }
  }

  /** The tables before place `n` of the insertion list are filled, the others as the deletions left them. */
  ghost predicate FilledTo(plan: Plan, left: Db, payload: Payload, n: nat, grown: Db)
    requires Full(left)
  {
    && Full(grown)
    && forall t: Table :: grown[t] == if plan.rank(t) < n then Target(left, payload, t) else left[t]
  }

  /** Every key of a row to insert leads to a table already filled, to the table itself, or to the users. */
  lemma LinkIsSettled(plan: Plan, left: Db, payload: Payload, grown: Db, t: Table, k: nat, r: Ref)
    requires Sound(plan) && Full(left) && TypedPayload(plan, payload) && Skips(payload, USERS)
    requires FilledTo(plan, left, payload, plan.rank(t), grown)
    requires t in payload && k < |payload[t]| && r in Links(plan, t, payload[t][k].row) && r.to.table != t
    ensures Has(grown, r.to) <==> Has(TargetDb(left, payload), r.to)
  {
    if r in payload[t][k].row.refs {
      assert Typed(plan, t, payload[t][k].row);
      assert SoundKey(plan, t, ForeignKey(r.to.table, r.onDelete));
    }
    assert r.to.table == USERS || plan.rank(r.to.table) < plan.rank(t);
  }

  lemma TableDecides(plan: Plan, left: Db, payload: Payload, grown: Db, t: Table)
    requires Sound(plan) && Full(left) && TypedPayload(plan, payload) && Skips(payload, USERS) && !Skips(payload, t)
    requires FilledTo(plan, left, payload, plan.rank(t), grown)
    ensures grown[t] == left[t]
    ensures ChunksLand(plan, grown, t, grown[t], payload[t]) <==> Lands(plan, left, payload, t)
  {
    forall k, r | 0 <= k < |payload[t]| && r in Links(plan, t, payload[t][k].row) && r.to.table != t
      ensures Has(grown, r.to) <==> Has(TargetDb(left, payload), r.to)
    {
      LinkIsSettled(plan, left, payload, grown, t, k, r);
    }
    SameLookups(plan, grown, TargetDb(left, payload), t, left[t], payload[t]);
  }

  lemma FilledNext(plan: Plan, left: Db, payload: Payload, i: nat, grown: Db, after: Db)
    requires Sound(plan) && Full(left) && i < |plan.order| && FilledTo(plan, left, payload, i, grown)
    requires after == grown[plan.order[i] := Target(left, payload, plan.order[i])]
    ensures FilledTo(plan, left, payload, i + 1, after)
  {
    forall t: Table ensures plan.rank(t) < i + 1 <==> plan.rank(t) < i || t == plan.order[i] {
      assert SoundOrder(plan);
    }
  }

  /** The tables before place `n` of the insertion list land. */
  ghost predicate LandedTo(plan: Plan, left: Db, payload: Payload, n: nat)
    requires Full(left)
  {
    forall t: Table :: plan.rank(t) < n ==> Lands(plan, left, payload, t)
  }

  lemma LandedNext(plan: Plan, left: Db, payload: Payload, i: nat)
    requires Sound(plan) && Full(left) && i < |plan.order|
    ensures LandedTo(plan, left, payload, i + 1) <==> LandedTo(plan, left, payload, i) && Lands(plan, left, payload, plan.order[i])
  {
    forall t: Table ensures plan.rank(t) < i + 1 <==> plan.rank(t) < i || t == plan.order[i] {
      assert SoundOrder(plan);
    }
  }

  lemma SkippedStays(left: Db, payload: Payload, grown: Db, t: Table)
    requires t in left && t in grown && Skips(payload, t) && grown[t] == left[t]
    ensures grown[t := Target(left, payload, t)] == grown
  {
  }

  /** The INSERT loop, table after table. */
  method InsertRows(plan: Plan, left: Db, payload: Payload) returns (written: Option<Db>)
    requires Sound(plan) && Full(left) && TypedPayload(plan, payload) && Skips(payload, USERS)
    ensures written.Some? <==> forall t: Table :: Lands(plan, left, payload, t)
    ensures written.Some? ==> Full(written.value) && forall t: Table :: written.value[t] == Target(left, payload, t)
  {
    var grown := left;
    for i := 0 to |plan.order|
      invariant FilledTo(plan, left, payload, i, grown)
      invariant LandedTo(plan, left, payload, i)
    {
      var t := plan.order[i];
      LandedNext(plan, left, payload, i);
      FilledNext(plan, left, payload, i, grown, grown[t := Target(left, payload, t)]);
      if Skips(payload, t) {
        SkippedStays(left, payload, grown, t);
        continue;
      }
      var rows := InsertChunks(plan, grown, t, grown[t], payload[t]);
      TableDecides(plan, left, payload, grown, t);
      if rows.None? {
        return None;
      }
      grown := grown[t := rows.value];
    }
    written := Some(grown);
  }

  class CompanyTables {
    var tables: Db

    constructor (tables: Db)
      ensures this.tables == tables
    {
      this.tables := tables;
    }

    /** `db:restore-company`: validate, then one transaction that a refused statement rolls back. */
    method RestoreCompany(plan: Plan, company: int, payload: Payload) returns (reply: Result<()>)
      requires Sound(plan) && Full(tables) && TypedPayload(plan, payload)
      modifies this
      ensures Full(tables)
      ensures reply.Ok? <==> Accepted(plan, old(tables), company, payload)
      ensures reply.Ok? ==>
                var left := Deletions(plan, old(tables), company, payload, TABLES).value;
                forall t: Table :: tables[t] == Target(left, payload, t)
      ensures reply.Err? ==> tables == old(tables)
    {
      var valid := ValidateBackupRows(plan, tables, company, payload);
      if !valid {
        return Err("invalid backup rows");
      }
      UsersAreSkipped(plan, tables, company, payload);
      var left := DeleteRows(plan, tables, company, payload);
      if left.None? {
        return Err("restore failed");
      }
      var written := InsertRows(plan, left.value, payload);
      match written {
        case None => return Err("restore failed");
        case Some(grown) =>
          tables := grown;
          reply := Ok(());
      }
    }
  }
}
