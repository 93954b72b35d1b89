/** What a restore guarantees: isolation for every payload, the round trip for full backups, and exactly when it goes through. */
module BackupProofs {
  import opened Wrappers
  import opened BackupTables
  import opened Backup
  import opened BackupCascade
  import Collections

  // ---------------------------------------------------------------- the program's own lists

  function ProgramPlan(): Plan
  {
    Plan(ScopeOf, ForeignKeys, seq(TABLES, (i: int) requires 0 <= i < TABLES => InsertTable(i)), InsertRank)
  }

  lemma ProgramOrderIsSound()
    ensures SoundOrder(ProgramPlan())
  {
    forall i: nat | i < TABLES ensures InsertRank(InsertTable(i)) == i {
      InsertRanked(i);
    }
    forall t: Table ensures InsertRank(t) < TABLES && InsertTable(InsertRank(t)) == t {
      InsertHas(t);
    }
    forall t: Table | t != COMPANIES ensures InsertRank(COMPANIES) < InsertRank(t) {
      CompanyIsEdge(t);
    }
  }

  lemma ProgramScopesAreSound()
    ensures SoundScopes(ProgramPlan())
  {
    forall t: Table ensures ScopeOf(t).Single? <==> t == COMPANIES {
      CompanyIsEdge(t);
    }
    forall t: Table | ScopeOf(t).ChildOf?
      ensures var p := ScopeOf(t).parent; t < p && ScopeOf(p) == OfCompany && p != USERS && InsertRank(p) < InsertRank(t)
    {
      ParentsInPlace(t);
    }
    CompanyIsEdge(COMPANIES);
  }

  lemma ProgramKeyIsSound(t: Table, f: ForeignKey)
    requires f in ForeignKeys(t)
    ensures SoundKey(ProgramPlan(), t, f)
  {
    KeysDeleteForward(t, f);
    KeysInsertBackward(t, f);
    EdgeKeys(f);
  }

  /** The program's two lists are sound for the schema's foreign keys: this is what their comments ask of them. */
  lemma ProgramPlanIsSound()
    ensures Sound(ProgramPlan())
  {
    ProgramOrderIsSound();
    ProgramScopesAreSound();
    forall t: Table, f | f in ProgramPlan().keys(t) ensures SoundKey(ProgramPlan(), t, f) {
      ProgramKeyIsSound(t, f);
    }
  }

  // ---------------------------------------------------------------- chunks

  /** Each row of the same table that a listed row names is there already, or is listed no later than the row's own chunk ends. */
  predicate SelfKeysInChunks(plan: Plan, t: Table, rows: Rows, saved: seq<Saved>)
  {
    forall k, r :: 0 <= k < |saved| && r in Links(plan, t, saved[k].row) && r.to.table == t ==>
      r.to.id in rows || HasId(saved[..ChunkEnd(k, |saved|)], r.to.id)
  }

  lemma LandsLater(plan: Plan, db: Db, t: Table, rows: Rows, saved: seq<Saved>, k: nat)
    requires k < |saved|
    ensures RowLands(plan, db, t, rows, saved, k, ChunkEnd(k, |saved|)) ==> RowLands(plan, db, t, rows, saved, k, |saved|)
  {
    forall id | HasId(saved[..ChunkEnd(k, |saved|)], id) ensures HasId(saved[..|saved|], id) {
      var i :| 0 <= i < ChunkEnd(k, |saved|) && saved[i].id == id;
      assert saved[..|saved|][i].id == id;
    }
  }

  lemma ChunksLandOnce(plan: Plan, db: Db, t: Table, rows: Rows, saved: seq<Saved>)
    ensures ChunksLand(plan, db, t, rows, saved) <==>
            Statement(plan, db, t, rows, saved).Some? && SelfKeysInChunks(plan, t, rows, saved)
  {
    if InsertAll(rows, saved).Some? {
      InsertMeans(rows, saved);
      assert saved[..|saved|] == saved;
      forall k | 0 <= k < |saved|
        ensures RowLands(plan, db, t, rows, saved, k, |saved|) <==> AllHold(plan, db, t, InsertAll(rows, saved).value, saved[k].row)
      {
        HoldsIsLands(plan, db, t, rows, saved, k, |saved|, InsertAll(rows, saved).value);
      }
      forall k | 0 <= k < |saved|
        ensures RowLands(plan, db, t, rows, saved, k, ChunkEnd(k, |saved|)) ==> RowLands(plan, db, t, rows, saved, k, |saved|)
      {
        LandsLater(plan, db, t, rows, saved, k);
      }
    }
  }

  /**
    Inserting in chunks of 500 has the outcome of inserting all at once if and only if that is refused
    too, or each row names, in its own table, only rows there already or listed by the end of its chunk.
   */
  lemma ChunkedIsAtOnceIff(plan: Plan, db: Db, t: Table, rows: Rows, saved: seq<Saved>)
    ensures (if ChunksLand(plan, db, t, rows, saved) then InsertAll(rows, saved) else None) == Statement(plan, db, t, rows, saved)
            <==> Statement(plan, db, t, rows, saved) == None || SelfKeysInChunks(plan, t, rows, saved)
  {
    ChunksLandOnce(plan, db, t, rows, saved);
  }

  /** 501 accounts of one company, the first of which has the last as its parent. */
  function LateParent(company: int): seq<Saved>
  {
    seq(501, i => Saved(i, Row(Some(company), None, if i == 0 then {Ref(Key(ACCOUNTS, 500), Cascade)} else {}, None, "")))
  }

  /** One statement takes them all; 500 at a time, the first statement is refused, although no id is taken. */
  lemma LateParentIsRefused(plan: Plan, db: Db, company: int)
    requires plan.scope(ACCOUNTS) == OfCompany && Has(db, Key(COMPANIES, company))
    ensures Statement(plan, db, ACCOUNTS, map[], LateParent(company)).Some?
    ensures !ChunksLand(plan, db, ACCOUNTS, map[], LateParent(company))
  {
    var saved := LateParent(company);
    InsertMeans(map[], saved);
    assert saved[500].id == 500;
    assert Ref(Key(ACCOUNTS, 500), Cascade) in Links(plan, ACCOUNTS, saved[0].row);
    assert ChunkEnd(0, 501) == 500;
    assert !HasId(saved[..500], 500);
    assert !RowLands(plan, db, ACCOUNTS, map[], saved, 0, 500);
  }

  // ---------------------------------------------------------------- isolation

  /** What the deletions of an accepted restore left. */
  ghost function Left(plan: Plan, db: Db, company: int, payload: Payload): (left: Db)
    requires Full(db) && Deletions(plan, db, company, payload, TABLES).Some?
    ensures Full(left)
  {
    Deletions(plan, db, company, payload, TABLES).value
  }

  /** The database after an accepted restore. */
  ghost function Restored(plan: Plan, db: Db, company: int, payload: Payload): (after: Db)
    requires Full(db) && Deletions(plan, db, company, payload, TABLES).Some?
    ensures Full(after)
  {
    TargetDb(Left(plan, db, company, payload), payload)
  }

  lemma TargetAdds(plan: Plan, left: Db, payload: Payload, t: Table)
    requires t in left && !Skips(payload, t) && Lands(plan, left, payload, t)
    ensures FreshIds(left[t], payload[t]) && Adds(left[t], Target(left, payload, t), payload[t])
  {
    InsertMeans(left[t], payload[t]);
  }

  /** A listed parent ends up in the restored parent table, as the company's own. */
  lemma ListedParentIsMine(plan: Plan, db: Db, left: Db, company: int, payload: Payload, p: Table, q: int)
    requires Validates(plan, db, company, payload) && plan.scope(p) == OfCompany && p != USERS
    requires p in left && Lands(plan, left, payload, p) && ListsParent(payload, p, q)
    ensures q in Target(left, payload, p) && Target(left, payload, p)[q].company == Some(company)
  {
    TargetAdds(plan, left, payload, p);
    var i :| 0 <= i < |payload[p]| && payload[p][i].id == q;
    LineIsValid(plan, db, company, payload, p, i);
  }

  /** A parent found in the database, if it is still there, is still the company's. */
  lemma HeldParentIsMine(plan: Plan, db: Db, company: int, payload: Payload, p: Table, q: int)
    requires SoundScopes(plan) && Full(db) && Deletions(plan, db, company, payload, TABLES).Some?
    requires Lands(plan, Left(plan, db, company, payload), payload, p)
    requires HoldsParent(db, p, company, q) && !ListsParent(payload, p, q)
    requires q in Restored(plan, db, company, payload)[p]
    ensures Restored(plan, db, company, payload)[p][q].company == Some(company)
  {
    DeletionsMean(plan, db, company, payload, TABLES);
    if !Skips(payload, p) {
      TargetAdds(plan, Left(plan, db, company, payload), payload, p);
    }
  }

  /** A line lands only next to its parent. */
  lemma ParentLands(plan: Plan, left: Db, payload: Payload, t: Table, k: nat)
    requires SoundScopes(plan) && Full(left) && Lands(plan, left, payload, t) && !Skips(payload, t)
    requires k < |payload[t]| && plan.scope(t).ChildOf? && payload[t][k].row.parent.Some?
    ensures payload[t][k].row.parent.value in TargetDb(left, payload)[plan.scope(t).parent]
  {
    var r := Ref(Key(plan.scope(t).parent, payload[t][k].row.parent.value), Cascade);
    assert r in Links(plan, t, payload[t][k].row);
    assert RowLands(plan, TargetDb(left, payload), t, left[t], payload[t], k, ChunkEnd(k, |payload[t]|));
    assert Has(TargetDb(left, payload), r.to);
  }

  lemma ParentIsMine(plan: Plan, db: Db, company: int, payload: Payload, t: Table, k: nat)
    requires SoundScopes(plan) && Full(db) && Accepted(plan, db, company, payload)
    requires !Skips(payload, t) && k < |payload[t]| && plan.scope(t).ChildOf?
    ensures var q := payload[t][k].row.parent;
            q.Some? && q.value in Restored(plan, db, company, payload)[plan.scope(t).parent] &&
            Restored(plan, db, company, payload)[plan.scope(t).parent][q.value].company == Some(company)
  {
    var p, left := plan.scope(t).parent, Left(plan, db, company, payload);
    LineIsValid(plan, db, company, payload, t, k);
    assert Lands(plan, left, payload, t) && Lands(plan, left, payload, p);
    var q := payload[t][k].row.parent.value;
    ParentLands(plan, left, payload, t, k);
    if ListsParent(payload, p, q) {
      ListedParentIsMine(plan, db, left, company, payload, p, q);
    } else {
      assert q in ParentIds(payload[t], k + 1);
      HeldParentIsMine(plan, db, company, payload, p, q);
    }
  }

  lemma LineIsMine(plan: Plan, db: Db, company: int, payload: Payload, t: Table, k: nat)
    requires SoundScopes(plan) && Full(db) && Accepted(plan, db, company, payload)
    requires !Skips(payload, t) && k < |payload[t]|
    ensures Belongs(plan.scope(t), ParentRows(plan.scope(t), Restored(plan, db, company, payload)), company, payload[t][k].id, payload[t][k].row)
  {
    if plan.scope(t).ChildOf? {
      ParentIsMine(plan, db, company, payload, t, k);
    } else {
      LineIsValid(plan, db, company, payload, t, k);
    }
  }

  /** Whatever the payload, every row a restore adds belongs to the company. */
  lemma AddedRowsAreMine(plan: Plan, db: Db, company: int, payload: Payload, t: Table)
    requires SoundScopes(plan) && Full(db) && Accepted(plan, db, company, payload)
    ensures forall id :: id in Restored(plan, db, company, payload)[t] && id !in Left(plan, db, company, payload)[t] ==>
              id in MineIn(plan, Restored(plan, db, company, payload), company, t)
  {
    var left := Left(plan, db, company, payload);
    assert Lands(plan, left, payload, t);
    if !Skips(payload, t) {
      TargetAdds(plan, left, payload, t);
      forall id | id in Target(left, payload, t) && id !in left[t]
        ensures id in MineIn(plan, Restored(plan, db, company, payload), company, t)
      {
        var k :| 0 <= k < |payload[t]| && payload[t][k].id == id;
        LineIsMine(plan, db, company, payload, t, k);
      }
    }
  }

  // ---------------------------------------------------------------- what other companies keep

  /** A payload row is the company's by its own columns, except for a line. */
  lemma ListedBelongs(plan: Plan, db: Db, company: int, payload: Payload, t: Table, i: nat)
    requires Validates(plan, db, company, payload) && t in payload && i < |payload[t]| && !plan.scope(t).ChildOf?
    ensures Belongs(plan.scope(t), map[], company, payload[t][i].id, payload[t][i].row)
  {
    LineIsValid(plan, db, company, payload, t, i);
  }

  /** What the deletions left, a restore leaves too; what they took comes back only if the payload lists it. */
  lemma RestoredRow(plan: Plan, db: Db, company: int, payload: Payload, k: Key)
    requires SoundScopes(plan) && Full(db) && Accepted(plan, db, company, payload) && Has(db, k)
    ensures StaysIn(db, Left(plan, db, company, payload), k) ==> StaysIn(db, Restored(plan, db, company, payload), k)
    ensures StaysIn(db, Restored(plan, db, company, payload), k) ==>
              StaysIn(db, Left(plan, db, company, payload), k) ||
              (!Skips(payload, k.table) && exists i :: 0 <= i < |payload[k.table]| && payload[k.table][i].id == k.id && payload[k.table][i].row == db[k.table][k.id])
  {
    var left := Left(plan, db, company, payload);
    assert Lands(plan, left, payload, k.table);
    if !Skips(payload, k.table) {
      TargetAdds(plan, left, payload, k.table);
    }
  }

  /**
    Whatever the payload, an accepted restore leaves a row of another company as it was if that names no
    row the deletions take; and, save for a line, only then.
   */
  lemma OthersSurvive(plan: Plan, db: Db, company: int, payload: Payload, k: Key)
    requires SoundScopes(plan) && Full(db) && Accepted(plan, db, company, payload)
    requires Has(db, k) && k !in Owned(plan, db, company)
    ensures NamesNoneDead(plan, db, company, payload, k) ==> StaysIn(db, Restored(plan, db, company, payload), k)
    ensures StaysIn(db, Restored(plan, db, company, payload), k) && !plan.scope(k.table).ChildOf? ==>
              NamesNoneDead(plan, db, company, payload, k)
  {
    OthersStayIff(plan, db, company, payload, k);
    RestoredRow(plan, db, company, payload, k);
    if !plan.scope(k.table).ChildOf? && !Skips(payload, k.table) {
      forall i: nat | i < |payload[k.table]| && payload[k.table][i].id == k.id ensures payload[k.table][i].row != db[k.table][k.id] {
        ListedBelongs(plan, db, company, payload, k.table, i);
      }
    }
  }

  /** A line of another company that the payload lists unchanged has lost its document to the company. */
  lemma RelistedLine(plan: Plan, db: Db, company: int, payload: Payload, k: Key, i: nat)
    requires SoundScopes(plan) && Full(db) && Integrity(plan, db) && Accepted(plan, db, company, payload)
    requires Has(db, k) && k !in Owned(plan, db, company) && plan.scope(k.table).ChildOf? && !Skips(payload, k.table)
    requires i < |payload[k.table]| && payload[k.table][i].id == k.id && payload[k.table][i].row == db[k.table][k.id]
    ensures !OthersKept(plan, db, Restored(plan, db, company, payload), company)
  {
    var p, left := plan.scope(k.table).parent, Left(plan, db, company, payload);
    LineIsValid(plan, db, company, payload, k.table, i);
    var q := payload[k.table][i].row.parent.value;
    assert Ref(Key(p, q), Cascade) in LinksOf(plan, db, k);
    assert q in ParentIds(payload[k.table], i + 1);
    assert ListsParent(payload, p, q);
    assert Lands(plan, left, payload, p);
    ListedParentIsMine(plan, db, left, company, payload, p, q);
    assert Has(db, Key(p, q)) && Key(p, q) !in Owned(plan, db, company);
  }

  lemma LineSurvives(plan: Plan, db: Db, company: int, payload: Payload, k: Key)
    requires SoundScopes(plan) && Full(db) && Integrity(plan, db) && Accepted(plan, db, company, payload)
    requires Has(db, k) && k !in Owned(plan, db, company) && plan.scope(k.table).ChildOf?
    requires OthersKept(plan, db, Restored(plan, db, company, payload), company)
    ensures NamesNoneDead(plan, db, company, payload, k)
  {
    OthersStayIff(plan, db, company, payload, k);
    RestoredRow(plan, db, company, payload, k);
    assert StaysIn(db, Restored(plan, db, company, payload), k);
    if !Skips(payload, k.table) {
      forall i: nat | i < |payload[k.table]| && payload[k.table][i].id == k.id ensures payload[k.table][i].row != db[k.table][k.id] {
        if payload[k.table][i].row == db[k.table][k.id] {
          RelistedLine(plan, db, company, payload, k, i);
        }
      }
    }
  }

  /** Whatever the payload, an accepted restore leaves all other companies' rows as they were if and only if none names a row the deletions take. */
  lemma OthersSurviveIff(plan: Plan, db: Db, company: int, payload: Payload)
    requires SoundScopes(plan) && Full(db) && Integrity(plan, db) && Accepted(plan, db, company, payload)
    ensures OthersKept(plan, db, Restored(plan, db, company, payload), company) <==>
            forall k :: Has(db, k) && k !in Owned(plan, db, company) ==> NamesNoneDead(plan, db, company, payload, k)
  {
    var after := Restored(plan, db, company, payload);
    forall k | Has(db, k) && k !in Owned(plan, db, company)
      ensures NamesNoneDead(plan, db, company, payload, k) ==> StaysIn(db, after, k)
      ensures OthersKept(plan, db, after, company) ==> NamesNoneDead(plan, db, company, payload, k)
    {
      OthersSurvive(plan, db, company, payload, k);
      if OthersKept(plan, db, after, company) && plan.scope(k.table).ChildOf? {
        LineSurvives(plan, db, company, payload, k);
      }
    }
  }

  // ---------------------------------------------------------------- full backups

  /** The data as the schema keeps it: typed rows and no dangling key.  Keys between companies are possible. */
  ghost predicate Kept(plan: Plan, db: Db)
  {
    TypedDb(plan, db) && Integrity(plan, db)
  }

  lemma BackupIsWhole(plan: Plan, saved: Db, company: int, payload: Payload)
    requires Full(saved) && IsBackup(plan, saved, company, payload)
    ensures IsWhole(payload)
  {
    assert Lists(payload[USERS], Exported(USERS, MineIn(plan, saved, company, USERS)));
  }

  /** The deletions before an accepted restore of a full backup left exactly the rows not taken. */
  lemma WholeLeft(plan: Plan, saved: Db, db: Db, company: int, payload: Payload)
    requires Sound(plan) && Full(saved) && Full(db) && Kept(plan, db) && IsBackup(plan, saved, company, payload)
    requires Deletions(plan, db, company, payload, TABLES).Some?
    ensures Left(plan, db, company, payload) == Prune(db, Taken(plan, db, company))
    ensures Owned(plan, db, company) <= Taken(plan, db, company)
  {
    BackupIsWhole(plan, saved, company, payload);
    FullLeft(plan, db, company, payload);
    ClosureContains(plan, db, Owned(plan, db, company));
  }

  lemma ListsHasId(saved: seq<Saved>, rows: Rows, id: int)
    requires Lists(saved, rows)
    ensures HasId(saved, id) <==> id in rows
  {
  }

  /** `after` consists of the rows `mine`, all in scope, and the rows `others`, all out of scope. */
  ghost predicate Parts(scope: Scope, parents: Rows, company: int, after: Rows, mine: Rows, others: Rows)
  {
    && (forall id :: id in after <==> id in mine || id in others)
    && (forall id :: id in mine ==> id in after && after[id] == mine[id] && Belongs(scope, parents, company, id, mine[id]))
    && (forall id :: id in others ==> id in after && after[id] == others[id] && !Belongs(scope, parents, company, id, others[id]))
  }

  lemma PartsAreScopes(scope: Scope, parents: Rows, company: int, after: Rows, mine: Rows, others: Rows)
    requires Parts(scope, parents, company, after, mine, others)
    ensures Mine(scope, parents, company, after) == mine && Others(scope, parents, company, after) == others
  {
    var ours, theirs := Mine(scope, parents, company, after), Others(scope, parents, company, after);
    forall id: int ensures (id in ours <==> id in mine) && (id in theirs <==> id in others) {}
    Collections.SameEntries(ours, mine);
    Collections.SameEntries(theirs, others);
  }

  lemma ListedAdds(before: Rows, after: Rows, saved: seq<Saved>, mine: Rows)
    requires Lists(saved, mine) && Adds(before, after, saved)
    ensures forall id :: id in after <==> id in mine || id in before
    ensures forall id :: id in mine ==> id in after && after[id] == mine[id]
  {
    forall id ensures HasId(saved, id) <==> id in mine {
      ListsHasId(saved, mine, id);
    }
  }

  lemma StillLeft(plan: Plan, db: Db, company: int, payload: Payload, k: Key)
    requires SoundScopes(plan) && Full(db) && Accepted(plan, db, company, payload)
    requires Has(Left(plan, db, company, payload), k)
    ensures Has(Restored(plan, db, company, payload), k)
    ensures Restored(plan, db, company, payload)[k.table][k.id] == Left(plan, db, company, payload)[k.table][k.id]
  {
    var left := Left(plan, db, company, payload);
    assert Lands(plan, left, payload, k.table);
    if !Skips(payload, k.table) {
      TargetAdds(plan, left, payload, k.table);
    }
  }

  /** The document of a line that is left is left too. */
  lemma ParentIsLeft(plan: Plan, db: Db, dead: set<Key>, k: Key)
    requires Full(db) && Integrity(plan, db) && IsClosed(plan, db, dead) && Has(Prune(db, dead), k)
    requires plan.scope(k.table).ChildOf? && db[k.table][k.id].parent.Some?
    ensures Has(Prune(db, dead), Key(plan.scope(k.table).parent, db[k.table][k.id].parent.value))
  {
    var up := Key(plan.scope(k.table).parent, db[k.table][k.id].parent.value);
    assert Ref(up, Cascade) in LinksOf(plan, db, k);
    assert !Cascades(plan, db, k, dead);
  }

  /** A row the deletions leave is outside the company then. */
  lemma LeftIsOutside(plan: Plan, saved: Db, db: Db, company: int, payload: Payload, k: Key)
    requires Sound(plan) && Full(saved) && Full(db) && Kept(plan, db) && IsBackup(plan, saved, company, payload)
    requires Deletions(plan, db, company, payload, TABLES).Some? && Has(Left(plan, db, company, payload), k)
    ensures var left := Left(plan, db, company, payload);
            && !Belongs(plan.scope(k.table), ParentRows(plan.scope(k.table), left), company, k.id, left[k.table][k.id])
            && (plan.scope(k.table).ChildOf? && left[k.table][k.id].parent.Some? ==>
                  Has(left, Key(plan.scope(k.table).parent, left[k.table][k.id].parent.value)))
  {
    var taken := Taken(plan, db, company);
    WholeLeft(plan, saved, db, company, payload);
    ClosureIsClosed(plan, db, Owned(plan, db, company));
    SurvivorScope(plan, db, taken, company, k);
    assert Has(db, k) && k !in Owned(plan, db, company);
    if plan.scope(k.table).ChildOf? && db[k.table][k.id].parent.Some? {
      ParentIsLeft(plan, db, taken, k);
    }
  }

  /** It is outside the company afterwards too. */
  lemma LeftStaysOutside(plan: Plan, saved: Db, db: Db, company: int, payload: Payload, t: Table, id: int)
    requires Sound(plan) && Full(saved) && Full(db) && Kept(plan, db)
    requires IsBackup(plan, saved, company, payload) && Accepted(plan, db, company, payload)
    requires id in Left(plan, db, company, payload)[t]
    ensures !Belongs(plan.scope(t), ParentRows(plan.scope(t), Restored(plan, db, company, payload)), company, id,
                     Left(plan, db, company, payload)[t][id])
  {
    var row := Left(plan, db, company, payload)[t][id];
    LeftIsOutside(plan, saved, db, company, payload, Key(t, id));
    if plan.scope(t).ChildOf? && row.parent.Some? {
      StillLeft(plan, db, company, payload, Key(plan.scope(t).parent, row.parent.value));
    }
  }

  /** A full backup's rows, once restored, are in the company's scope. */
  lemma SavedIsMine(plan: Plan, saved: Db, db: Db, company: int, payload: Payload, t: Table, id: int)
    requires SoundScopes(plan) && Full(saved) && Full(db) && t != USERS
    requires IsBackup(plan, saved, company, payload) && Accepted(plan, db, company, payload)
    requires id in MineIn(plan, saved, company, t)
    ensures Belongs(plan.scope(t), ParentRows(plan.scope(t), Restored(plan, db, company, payload)), company, id, saved[t][id])
  {
    assert Lists(payload[t], MineIn(plan, saved, company, t));
    var k :| 0 <= k < |payload[t]| && payload[t][k].id == id;
    LineIsMine(plan, db, company, payload, t, k);
  }

  lemma RestoredParts(plan: Plan, saved: Db, db: Db, company: int, payload: Payload, t: Table)
    requires Sound(plan) && Full(saved) && Full(db) && Kept(plan, db) && t != USERS
    requires IsBackup(plan, saved, company, payload) && Accepted(plan, db, company, payload)
    ensures Parts(plan.scope(t), ParentRows(plan.scope(t), Restored(plan, db, company, payload)), company,
                  Restored(plan, db, company, payload)[t], MineIn(plan, saved, company, t), Left(plan, db, company, payload)[t])
  {
    var left := Left(plan, db, company, payload);
    var mine := MineIn(plan, saved, company, t);
    assert Lists(payload[t], mine);
    assert Lands(plan, left, payload, t);
    TargetAdds(plan, left, payload, t);
    ListedAdds(left[t], Target(left, payload, t), payload[t], mine);
    forall id | id in mine
      ensures Belongs(plan.scope(t), ParentRows(plan.scope(t), Restored(plan, db, company, payload)), company, id, mine[id])
    {
      SavedIsMine(plan, saved, db, company, payload, t, id);
    }
    forall id | id in left[t]
      ensures !Belongs(plan.scope(t), ParentRows(plan.scope(t), Restored(plan, db, company, payload)), company, id, left[t][id])
    {
      LeftStaysOutside(plan, saved, db, company, payload, t, id);
    }
  }

  /**
    Restoring a full backup into any later state makes the company's rows in every table but the
    users' exactly the saved ones; of the others it leaves those that neither are the company's nor
    cascade into it, their keys to the rows that went nulled.
   */
  lemma RoundTrip(plan: Plan, saved: Db, db: Db, company: int, payload: Payload, t: Table)
    requires Sound(plan) && Full(saved) && Full(db) && Kept(plan, db) && t != USERS
    requires IsBackup(plan, saved, company, payload) && Accepted(plan, db, company, payload)
    ensures var after := Restored(plan, db, company, payload);
            && MineIn(plan, after, company, t) == MineIn(plan, saved, company, t)
            && OthersIn(plan, after, company, t) == PruneTable(t, db[t], Taken(plan, db, company))
  {
    WholeLeft(plan, saved, db, company, payload);
    RestoredParts(plan, saved, db, company, payload, t);
    PartsAreScopes(plan.scope(t), ParentRows(plan.scope(t), Restored(plan, db, company, payload)), company,
                   Restored(plan, db, company, payload)[t], MineIn(plan, saved, company, t), Left(plan, db, company, payload)[t]);
  }

  /** It leaves every other company's rows as they were if and only if none of them names a row of the company. */
  lemma RoundTripIsolatesIff(plan: Plan, saved: Db, db: Db, company: int, payload: Payload)
    requires Sound(plan) && Full(saved) && Full(db) && Kept(plan, db)
    requires IsBackup(plan, saved, company, payload) && Accepted(plan, db, company, payload)
    ensures OthersKept(plan, db, Restored(plan, db, company, payload), company) <==> NoneNameIn(plan, db, company)
  {
    BackupIsWhole(plan, saved, company, payload);
    OthersSurviveIff(plan, db, company, payload);
    NamesNoneDeadIff(plan, db, company, payload);
  }

  /** Of the users, a full backup takes exactly the company's. */
  lemma UsersTaken(plan: Plan, db: Db, company: int, payload: Payload)
    requires Sound(plan) && Full(db) && Kept(plan, db) && IsWhole(payload)
    ensures forall id :: id in db[USERS] ==> (Key(USERS, id) in Taken(plan, db, company) <==> db[USERS][id].company == Some(company))
  {
    FullDead(plan, db, company, payload);
    ClosureContains(plan, db, Owned(plan, db, company));
    forall id | id in db[USERS]
      ensures Key(USERS, id) in Taken(plan, db, company) <==> db[USERS][id].company == Some(company)
    {
      UserDies(plan, db, company, payload, id);
      assert db[USERS][id].company == Some(company) ==> Key(USERS, id) in Owned(plan, db, company);
    }
  }

  /**
    A full backup restored leaves the company without users: they go with the company row, and none is
    inserted.  The other companies' users stay; only a key to a branch of the company is nulled.
   */
  lemma RestoredUsers(plan: Plan, saved: Db, db: Db, company: int, payload: Payload)
    requires Sound(plan) && Full(saved) && Full(db) && Kept(plan, db)
    requires IsBackup(plan, saved, company, payload) && Accepted(plan, db, company, payload)
    ensures forall id :: id in Restored(plan, db, company, payload)[USERS] <==> id in OthersIn(plan, db, company, USERS)
    ensures Restored(plan, db, company, payload)[USERS] == PruneTable(USERS, db[USERS], Taken(plan, db, company))
    ensures forall id :: id in Restored(plan, db, company, payload)[USERS] ==>
              Restored(plan, db, company, payload)[USERS][id].company != Some(company)
  {
    BackupIsWhole(plan, saved, company, payload);
    WholeLeft(plan, saved, db, company, payload);
    UsersTaken(plan, db, company, payload);
    var left := PruneTable(USERS, db[USERS], Taken(plan, db, company));
    assert Restored(plan, db, company, payload)[USERS] == left;
    forall id ensures id in left <==> id in OthersIn(plan, db, company, USERS) {}
    assert forall id :: id in left ==> left[id].company == db[USERS][id].company;
  }

  /** Whatever was accepted, the users are as before exactly when no user was the company row's, or a lost branch's, to take. */
  lemma RestoreKeepsUsersIff(plan: Plan, db: Db, company: int, payload: Payload)
    requires Sound(plan) && Full(db) && TypedDb(plan, db) && Accepted(plan, db, company, payload)
    ensures Restored(plan, db, company, payload)[USERS] == db[USERS] <==> UsersSafe(db, company, payload)
  {
    UsersAreSkipped(plan, db, company, payload);
    UsersUnchangedIff(plan, db, company, payload);
  }

  // ---------------------------------------------------------------- when a full backup goes through

  /** The row outlives the deletions of a full backup. */
  predicate Stands(plan: Plan, db: Db, company: int, k: Key)
    requires Full(db)
  {
    Has(db, k) && k !in Taken(plan, db, company)
  }

  lemma StandsIff(plan: Plan, db: Db, company: int, k: Key)
    requires Full(db) && NoneNameInBy(plan, db, company, Cascade)
    ensures Stands(plan, db, company, k) <==> Has(db, k) && k !in Owned(plan, db, company)
  {
    TakenIsOwned(plan, db, company);
  }

  ghost predicate Apart(a: Rows, b: Rows)
  {
    forall id :: id in a ==> id !in b
  }

  /** No saved id has since been taken by a row that stands. */
  ghost predicate NoIdTaken(plan: Plan, saved: Db, db: Db, company: int)
    requires Full(saved) && Full(db)
  {
    forall t: Table, id :: t != USERS && id in MineIn(plan, saved, company, t) ==> !Stands(plan, db, company, Key(t, id))
  }

  /** By the end of the chunk that holds row `k` of `t`, the payload lists the row it names; users are never inserted. */
  predicate ListedInTime(payload: Payload, t: Table, k: nat, to: Key)
    requires t in payload && k < |payload[t]|
  {
    && to.table in payload && to.table != USERS
    && if to.table == t then HasId(payload[t][..ChunkEnd(k, |payload[t]|)], to.id) else HasId(payload[to.table], to.id)
  }

  /** Row `k` of `t` names only rows that stand or are listed in time. */
  ghost predicate FindsAll(plan: Plan, db: Db, company: int, payload: Payload, t: Table, k: nat)
    requires Full(db) && t in payload && k < |payload[t]|
  {
    forall r :: r in payload[t][k].row.refs ==> Stands(plan, db, company, r.to) || ListedInTime(payload, t, k, r.to)
  }

  ghost predicate TableFound(plan: Plan, db: Db, company: int, payload: Payload, t: Table)
    requires Full(db) && t in payload
  {
    forall k: nat :: k < |payload[t]| ==> FindsAll(plan, db, company, payload, t, k)
  }

  ghost predicate AllFound(plan: Plan, db: Db, company: int, payload: Payload)
    requires Full(db)
  {
    forall t: Table :: t in payload && t != USERS ==> TableFound(plan, db, company, payload, t)
  }

  lemma ListedFresh(rows: Rows, saved: seq<Saved>, mine: Rows)
    requires Lists(saved, mine)
    ensures FreshIds(rows, saved) <==> Apart(mine, rows)
  {
    if FreshIds(rows, saved) {
      forall id | id in mine ensures id !in rows {
        ListsHasId(saved, mine, id);
      }
    }
  }

  lemma {:induction false} AllLinesValid(db: Db, payload: Payload, company: int, t: Table, scope: Scope, rows: seq<Saved>, n: nat)
    requires n <= |rows| && forall k: nat :: k < n ==> ValidLine(db, payload, company, t, scope, rows, k)
    ensures ValidLines(db, payload, company, t, scope, rows, n)
  {
    if n > 0 {
      AllLinesValid(db, payload, company, t, scope, rows, n - 1);
    }
  }

  /** A saved line's document is saved with it. */
  lemma SavedParent(plan: Plan, saved: Db, company: int, payload: Payload, t: Table, k: nat)
    requires SoundScopes(plan) && Full(saved) && IsBackup(plan, saved, company, payload)
    requires k < |payload[t]| && plan.scope(t).ChildOf?
    ensures payload[t][k].row.parent.Some? && HasId(payload[plan.scope(t).parent], payload[t][k].row.parent.value)
  {
    var p := plan.scope(t).parent;
    assert Lists(payload[t], MineIn(plan, saved, company, t));
    assert Lists(payload[p], MineIn(plan, saved, company, p));
    assert payload[t][k].row.parent.value in MineIn(plan, saved, company, p);
    ListsHasId(payload[p], MineIn(plan, saved, company, p), payload[t][k].row.parent.value);
  }

  lemma SavedIsTyped(plan: Plan, saved: Db, company: int, payload: Payload, t: Table, k: nat)
    requires SoundScopes(plan) && Full(saved) && TypedDb(plan, saved) && IsBackup(plan, saved, company, payload)
    requires k < |payload[t]|
    ensures Typed(plan, t, payload[t][k].row) && (plan.scope(t) != OfCompany ==> payload[t][k].row.company == None)
  {
    assert Lists(payload[t], Exported(t, MineIn(plan, saved, company, t)));
    assert TypedRow(plan, t, saved[t][payload[t][k].id]) by { assert Has(saved, Key(t, payload[t][k].id)); }
  }

  lemma SavedLineValid(plan: Plan, saved: Db, db: Db, company: int, payload: Payload, t: Table, k: nat)
    requires SoundScopes(plan) && Full(saved) && TypedDb(plan, saved) && IsBackup(plan, saved, company, payload)
    requires k < |payload[t]|
    ensures ValidLine(db, payload, company, t, plan.scope(t), payload[t], k)
  {
    assert Lists(payload[t], Exported(t, MineIn(plan, saved, company, t)));
    SavedIsTyped(plan, saved, company, payload, t, k);
    if plan.scope(t).ChildOf? {
      SavedParent(plan, saved, company, payload, t, k);
    }
  }

  /** A full backup always passes validation, whatever the database holds now. */
  lemma FullBackupValidates(plan: Plan, saved: Db, db: Db, company: int, payload: Payload)
    requires SoundScopes(plan) && Full(saved) && TypedDb(plan, saved) && IsBackup(plan, saved, company, payload)
    ensures Validates(plan, db, company, payload)
  {
    forall t: Table ensures ValidTable(plan, db, payload, company, t) {
      forall k: nat | k < |payload[t]|
        ensures ValidLine(db, payload, company, t, plan.scope(t), payload[t], k)
      {
        SavedLineValid(plan, saved, db, company, payload, t, k);
      }
      AllLinesValid(db, payload, company, t, plan.scope(t), payload[t], |payload[t]|);
    }
  }

  lemma CompanyIsListed(plan: Plan, saved: Db, company: int, payload: Payload, t: Table, k: nat)
    requires SoundScopes(plan) && Full(saved) && Kept(plan, saved) && IsBackup(plan, saved, company, payload)
    requires k < |payload[t]| && payload[t][k].row.company.Some?
    ensures payload[t][k].row.company == Some(company) && t != COMPANIES && HasId(payload[COMPANIES], company)
  {
    var key := Key(t, payload[t][k].id);
    assert Lists(payload[t], Exported(t, MineIn(plan, saved, company, t)));
    SavedIsTyped(plan, saved, company, payload, t, k);
    assert Ref(Key(COMPANIES, company), Cascade) in LinksOf(plan, saved, key);
    assert Has(saved, key) && Has(saved, Key(COMPANIES, company));
    assert Lists(payload[COMPANIES], MineIn(plan, saved, company, COMPANIES));
    ListsHasId(payload[COMPANIES], MineIn(plan, saved, company, COMPANIES), company);
  }

  /** The two links that decide a saved row's scope lead to rows saved with it, in other tables. */
  lemma ScopeLinkIsListed(plan: Plan, saved: Db, company: int, payload: Payload, t: Table, k: nat, r: Ref)
    requires SoundScopes(plan) && Full(saved) && Kept(plan, saved) && IsBackup(plan, saved, company, payload)
    requires k < |payload[t]| && r in Links(plan, t, payload[t][k].row) && r !in payload[t][k].row.refs
    ensures ListedInTime(payload, t, k, r.to)
  {
    if payload[t][k].row.company.Some? {
      CompanyIsListed(plan, saved, company, payload, t, k);
    }
    if plan.scope(t).ChildOf? {
      SavedParent(plan, saved, company, payload, t, k);
    }
  }

  /** A name leads somewhere, once its table is filled, exactly when it led somewhere before or the payload lists it. */
  lemma FilledHas(left: Db, payload: Payload, to: Key)
    requires Full(left) && IsWhole(payload) && (to.table != USERS ==> FreshIds(left[to.table], payload[to.table]))
    ensures Has(TargetDb(left, payload), to) <==> Has(left, to) || (to.table != USERS && HasId(payload[to.table], to.id))
  {
    if to.table != USERS {
      InsertMeans(left[to.table], payload[to.table]);
    }
  }

  lemma SavedRowLands(plan: Plan, saved: Db, left: Db, company: int, payload: Payload, t: Table, k: nat)
    requires SoundScopes(plan) && Full(saved) && Kept(plan, saved) && IsBackup(plan, saved, company, payload)
    requires Full(left) && IsWhole(payload) && t != USERS && k < |payload[t]|
    requires forall u: Table :: u != USERS ==> FreshIds(left[u], payload[u])
    ensures RowLands(plan, TargetDb(left, payload), t, left[t], payload[t], k, ChunkEnd(k, |payload[t]|)) <==>
            forall r :: r in payload[t][k].row.refs ==> Has(left, r.to) || ListedInTime(payload, t, k, r.to)
  {
    forall r | r in Links(plan, t, payload[t][k].row)
      ensures r.to.table != t ==> (Has(TargetDb(left, payload), r.to) <==> Has(left, r.to) || ListedInTime(payload, t, k, r.to))
      ensures r !in payload[t][k].row.refs ==> ListedInTime(payload, t, k, r.to)
    {
      FilledHas(left, payload, r.to);
      if r !in payload[t][k].row.refs {
        ScopeLinkIsListed(plan, saved, company, payload, t, k, r);
      }
    }
    assert forall r :: r in payload[t][k].row.refs ==> r in Links(plan, t, payload[t][k].row);
  }

  /** One table of a full backup lands exactly when each of its rows finds what it names. */
  lemma SavedTableLands(plan: Plan, saved: Db, left: Db, company: int, payload: Payload, t: Table)
    requires SoundScopes(plan) && Full(saved) && Kept(plan, saved) && IsBackup(plan, saved, company, payload)
    requires Full(left) && IsWhole(payload) && t != USERS
    requires forall u: Table :: u != USERS ==> FreshIds(left[u], payload[u])
    ensures Lands(plan, left, payload, t) <==>
            forall k: nat, r :: k < |payload[t]| && r in payload[t][k].row.refs ==> Has(left, r.to) || ListedInTime(payload, t, k, r.to)
  {
    InsertMeans(left[t], payload[t]);
    forall k: nat | k < |payload[t]|
      ensures RowLands(plan, TargetDb(left, payload), t, left[t], payload[t], k, ChunkEnd(k, |payload[t]|)) <==>
              forall r :: r in payload[t][k].row.refs ==> Has(left, r.to) || ListedInTime(payload, t, k, r.to)
    {
      SavedRowLands(plan, saved, left, company, payload, t, k);
    }
  }

  lemma LandsIsFresh(plan: Plan, left: Db, payload: Payload)
    requires Full(left) && IsWhole(payload) && forall t: Table :: Lands(plan, left, payload, t)
    ensures forall t: Table :: t != USERS ==> FreshIds(left[t], payload[t])
  {
    forall t: Table | t != USERS ensures FreshIds(left[t], payload[t]) {
      assert Lands(plan, left, payload, t);
      InsertMeans(left[t], payload[t]);
    }
  }

  lemma FreshIsUntaken(plan: Plan, saved: Db, db: Db, left: Db, company: int, payload: Payload)
    requires Full(saved) && Full(db) && left == Prune(db, Taken(plan, db, company)) && IsBackup(plan, saved, company, payload)
    ensures Full(left)
    ensures (forall t: Table :: t != USERS ==> FreshIds(left[t], payload[t])) <==> NoIdTaken(plan, saved, db, company)
  {
    forall t: Table | t != USERS
      ensures FreshIds(left[t], payload[t]) <==>
              forall id :: id in MineIn(plan, saved, company, t) ==> !Stands(plan, db, company, Key(t, id))
    {
      assert Lists(payload[t], MineIn(plan, saved, company, t));
      ListedFresh(left[t], payload[t], MineIn(plan, saved, company, t));
    }
  }

  lemma TableLandsIff(plan: Plan, saved: Db, db: Db, left: Db, company: int, payload: Payload, t: Table)
    requires SoundScopes(plan) && Full(saved) && Kept(plan, saved) && IsBackup(plan, saved, company, payload)
    requires Full(db) && Full(left) && left == Prune(db, Taken(plan, db, company)) && IsWhole(payload) && t != USERS
    requires forall u: Table :: u != USERS ==> FreshIds(left[u], payload[u])
    ensures Lands(plan, left, payload, t) <==> TableFound(plan, db, company, payload, t)
  {
    SavedTableLands(plan, saved, left, company, payload, t);
    forall k: Key ensures Has(left, k) <==> Stands(plan, db, company, k) {}
    forall k: nat | k < |payload[t]|
      ensures FindsAll(plan, db, company, payload, t, k) <==>
              forall r :: r in payload[t][k].row.refs ==> Has(left, r.to) || ListedInTime(payload, t, k, r.to)
    {
    }
  }

  lemma AllLandIff(plan: Plan, saved: Db, db: Db, left: Db, company: int, payload: Payload)
    requires SoundScopes(plan) && Full(saved) && Kept(plan, saved) && IsBackup(plan, saved, company, payload)
    requires Full(db) && Full(left) && left == Prune(db, Taken(plan, db, company)) && IsWhole(payload)
    ensures (forall t: Table :: Lands(plan, left, payload, t)) <==>
            (forall t: Table :: t != USERS ==> FreshIds(left[t], payload[t])) && AllFound(plan, db, company, payload)
  {
    if forall t: Table :: Lands(plan, left, payload, t) {
      LandsIsFresh(plan, left, payload);
    }
    if forall t: Table :: t != USERS ==> FreshIds(left[t], payload[t]) {
      forall t: Table | t != USERS
        ensures Lands(plan, left, payload, t) <==> TableFound(plan, db, company, payload, t)
      {
        TableLandsIff(plan, saved, db, left, company, payload, t);
      }
    }
  }

  /**
    A full backup restores, into any later state, exactly when no row from outside blocks a DELETE, no
    row that stands has taken one of its ids, and each of its rows names only rows that stand or that
    it lists, in its own table by the end of the row's chunk.  The company's users do neither.
   */
  lemma FullBackupGoesThroughIff(plan: Plan, saved: Db, db: Db, company: int, payload: Payload)
    requires Sound(plan) && Full(saved) && Full(db) && Kept(plan, saved) && Kept(plan, db)
    requires IsBackup(plan, saved, company, payload)
    ensures Accepted(plan, db, company, payload) <==>
            && NoneOutsideBlocks(plan, db, company, payload)
            && NoIdTaken(plan, saved, db, company)
            && AllFound(plan, db, company, payload)
  {
    FullBackupValidates(plan, saved, db, company, payload);
    BackupIsWhole(plan, saved, company, payload);
    FullDeletesGoThroughIff(plan, db, company, payload);
    if Deletions(plan, db, company, payload, TABLES).Some? {
      var left := Left(plan, db, company, payload);
      WholeLeft(plan, saved, db, company, payload);
      FreshIsUntaken(plan, saved, db, left, company, payload);
      AllLandIff(plan, saved, db, left, company, payload);
    }
  }

  /** As long as the company has its users, no full backup with a row that names one of them can be restored. */
  lemma OwnUsersForbidRestore(plan: Plan, saved: Db, db: Db, company: int, payload: Payload, t: Table, k: nat, r: Ref)
    requires Sound(plan) && Full(saved) && Full(db) && Kept(plan, saved) && Kept(plan, db)
    requires IsBackup(plan, saved, company, payload) && t != USERS
    requires k < |payload[t]| && r in payload[t][k].row.refs && r.to.table == USERS
    requires r.to.id in MineIn(plan, db, company, USERS)
    ensures !Accepted(plan, db, company, payload)
  {
    ClosureContains(plan, db, Owned(plan, db, company));
    assert r.to in Owned(plan, db, company);
    assert !FindsAll(plan, db, company, payload, t, k);
    assert !TableFound(plan, db, company, payload, t);
    FullBackupGoesThroughIff(plan, saved, db, company, payload);
  }

  // ---------------------------------------------------------------- witnesses

  /** Every function of the tables is some database's, or some payload's, content. */
  lemma {:induction false} Tabulate<T>(n: nat, of: Table -> T) returns (m: map<Table, T>)
    requires n <= TABLES
    ensures forall t: Table :: t in m <==> t < n
    ensures forall t: Table :: t in m ==> m[t] == of(t)
  {
    if n == 0 {
      m := map[];
    } else {
      m := Tabulate(n - 1, of);
      m := m[n - 1 := of(n - 1)];
    }
  }

  /** One company and its one user. */
  function OneUser(t: Table): Rows
  {
    if t == COMPANIES then map[1 := Row(None, None, {}, None, "")]
    else if t == USERS then map[7 := Row(Some(1), None, {}, Some("hash"), "")]
    else map[]
  }

  function OneUserSaved(t: Table): seq<Saved>
  {
    if t == COMPANIES then [Saved(1, Row(None, None, {}, None, ""))]
    else if t == USERS then [Saved(7, Row(Some(1), None, {}, None, ""))]
    else []
  }

  lemma OneUserIsMine(plan: Plan, db: Db, t: Table)
    requires Sound(plan) && Full(db) && forall u: Table :: db[u] == OneUser(u)
    ensures MineIn(plan, db, 1, t) == OneUser(t)
    ensures OthersIn(plan, db, 1, t) == map[]
  {
    forall id: int ensures (id in MineIn(plan, db, 1, t) <==> id in OneUser(t)) && id !in OthersIn(plan, db, 1, t) {}
    Collections.SameEntries(MineIn(plan, db, 1, t), OneUser(t));
    Collections.SameEntries(OthersIn(plan, db, 1, t), map[]);
  }

  lemma OneUserIsKept(plan: Plan, db: Db)
    requires Sound(plan) && Full(db) && forall u: Table :: db[u] == OneUser(u)
    ensures Kept(plan, db) && NoneNameIn(plan, db, 1)
    ensures forall k, r :: Has(db, k) && r in LinksOf(plan, db, k) ==> r == Ref(Key(COMPANIES, 1), Cascade)
  {
    forall k | Has(db, k)
      ensures k in Owned(plan, db, 1) && TypedRow(plan, k.table, db[k.table][k.id])
      ensures forall r :: r in LinksOf(plan, db, k) ==> r == Ref(Key(COMPANIES, 1), Cascade)
    {
      OneUserIsMine(plan, db, k.table);
    }
    assert Has(db, Key(COMPANIES, 1));
  }

  lemma OneUserIsListed(t: Table)
    ensures Lists(OneUserSaved(t), Exported(t, OneUser(t)))
  {
    if t == COMPANIES {
      assert OneUserSaved(t)[0].id == 1;
    } else if t == USERS {
      assert OneUserSaved(t)[0].id == 7;
    }
  }

  lemma OneUserIsSaved(plan: Plan, db: Db, payload: Payload)
    requires Sound(plan) && Full(db) && forall u: Table :: db[u] == OneUser(u)
    requires forall u: Table :: u in payload && payload[u] == OneUserSaved(u)
    ensures IsBackup(plan, db, 1, payload)
  {
    forall t: Table ensures Lists(payload[t], Exported(t, MineIn(plan, db, 1, t))) {
      OneUserIsMine(plan, db, t);
      OneUserIsListed(t);
    }
  }

  /** Restored on the spot, a full backup finds its ids free. */
  lemma OwnIdsAreFree(plan: Plan, db: Db, company: int)
    requires Full(db)
    ensures NoIdTaken(plan, db, db, company)
  {
    ClosureContains(plan, db, Owned(plan, db, company));
    forall t: Table, id | id in MineIn(plan, db, company, t) ensures Key(t, id) in Owned(plan, db, company) {}
  }

  lemma OneUserGoesThrough(plan: Plan, db: Db, payload: Payload)
    requires Sound(plan) && Full(db) && forall u: Table :: db[u] == OneUser(u)
    requires forall u: Table :: u in payload && payload[u] == OneUserSaved(u)
    ensures IsBackup(plan, db, 1, payload) && Kept(plan, db) && NoneNameIn(plan, db, 1) && Accepted(plan, db, 1, payload)
  {
    OneUserIsKept(plan, db);
    OneUserIsSaved(plan, db, payload);
    BackupIsWhole(plan, db, 1, payload);
    BlockingKeyDecides(plan, db, 1, payload);
    OwnIdsAreFree(plan, db, 1);
    FullBackupGoesThroughIff(plan, db, db, 1, payload);
  }

  /** There is a company whose backup, restored on the spot with nothing changed in between, goes through and loses its user. */
  lemma RestoreLosesUser(plan: Plan) returns (db: Db, payload: Payload)
    requires Sound(plan)
    ensures Full(db) && Kept(plan, db) && NoneNameIn(plan, db, 1)
    ensures IsBackup(plan, db, 1, payload) && Accepted(plan, db, 1, payload)
    ensures 7 in MineIn(plan, db, 1, USERS) && 7 !in Restored(plan, db, 1, payload)[USERS]
  {
    db := Tabulate(TABLES, OneUser);
    payload := Tabulate(TABLES, OneUserSaved);
    OneUserGoesThrough(plan, db, payload);
    RestoredUsers(plan, db, db, 1, payload);
    OneUserIsMine(plan, db, USERS);
  }

  /** A company with a product and a quotation for it. */
  function OneQuotation(t: Table): Rows
  {
    if t == COMPANIES then map[1 := Row(None, None, {}, None, "")]
    else if t == PRODUCTS then map[2 := Row(Some(1), None, {}, None, "")]
    else if t == QUOTATIONS then map[3 := Row(Some(1), None, {}, None, "")]
    else if t == QUOTATION_LINES then map[4 := Row(None, Some(3), {Ref(Key(PRODUCTS, 2), Block)}, None, "")]
    else map[]
  }

  lemma ProductSelected(plan: Plan, db: Db)
    requires SoundScopes(plan) && plan.scope(PRODUCTS) == OfCompany && plan.scope(QUOTATION_LINES) == ChildOf(QUOTATIONS)
    requires Full(db) && forall u: Table :: db[u] == OneQuotation(u)
    ensures SelectedIn(plan, db, 1, PRODUCTS) == {Key(PRODUCTS, 2)}
    ensures IsClosed(plan, db, {Key(PRODUCTS, 2)})
  {
    assert Key(PRODUCTS, 2) in SelectedIn(plan, db, 1, PRODUCTS);
  }

  lemma ProductBlocks(plan: Plan, db: Db)
    requires SoundScopes(plan) && plan.scope(PRODUCTS) == OfCompany && plan.scope(QUOTATION_LINES) == ChildOf(QUOTATIONS)
    requires Full(db) && forall u: Table :: db[u] == OneQuotation(u)
    ensures DeleteFrom(plan, db, 1, PRODUCTS) == None
  {
    var product, line := Key(PRODUCTS, 2), Key(QUOTATION_LINES, 4);
    ProductSelected(plan, db);
    ClosureContains(plan, db, {product});
    ClosureIsLeast(plan, db, {product}, {product});
    assert Ref(product, Block) in LinksOf(plan, db, line);
    assert line in AllKeys(db) && Blocks(plan, db, line, {product});
  }

  /** Deleting the products before the lines can be refused: the deletion order is needed. */
  lemma WrongOrderIsRefused(plan: Plan) returns (db: Db)
    requires SoundScopes(plan) && plan.scope(PRODUCTS) == OfCompany && plan.scope(QUOTATION_LINES) == ChildOf(QUOTATIONS)
    ensures Full(db) && DeleteFrom(plan, db, 1, PRODUCTS) == None
  {
    db := Tabulate(TABLES, OneQuotation);
    ProductBlocks(plan, db);
  }
}
