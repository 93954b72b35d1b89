/** What the deletions of a restore remove: one closure over the cascading keys, whatever the order of the tables. */
module BackupCascade {
  import opened Wrappers
  import opened BackupTables
  import opened Backup
  import Collections

  // ---------------------------------------------------------------- the closure of a DELETE

  ghost predicate IsClosed(plan: Plan, db: Db, dead: set<Key>)
  {
    forall k :: Has(db, k) && Cascades(plan, db, k, dead) ==> k in dead
  }

  lemma {:induction false} ClosureContains(plan: Plan, db: Db, found: set<Key>)
    ensures found <= Closure(plan, db, found)
    decreases |AllKeys(db) - found|
  {
    var next := Dependents(plan, db, found);
    if next != {} {
      DependentsShrink(plan, db, found);
      ClosureContains(plan, db, found + next);
    }
  }

  lemma {:induction false} ClosureIsClosed(plan: Plan, db: Db, found: set<Key>)
    ensures IsClosed(plan, db, Closure(plan, db, found))
    decreases |AllKeys(db) - found|
  {
    var next := Dependents(plan, db, found);
    if next != {} {
      DependentsShrink(plan, db, found);
      ClosureIsClosed(plan, db, found + next);
    } else {
      forall k | Has(db, k) && Cascades(plan, db, k, found) ensures k in found {
        assert k in AllKeys(db);
        assert k !in next;
      }
    }
  }

  lemma {:induction false} ClosureIsLeast(plan: Plan, db: Db, found: set<Key>, top: set<Key>)
    requires found <= top && IsClosed(plan, db, top)
    ensures Closure(plan, db, found) <= top
    decreases |AllKeys(db) - found|
  {
    var next := Dependents(plan, db, found);
    if next != {} {
      DependentsShrink(plan, db, found);
      forall k | k in next ensures k in top {
        assert Cascades(plan, db, k, found);
        assert Cascades(plan, db, k, top);
      }
      ClosureIsLeast(plan, db, found + next, top);
    }
  }

  /** A row goes exactly when it is selected or names a row that goes by a cascading key. */
  lemma ClosureUnfold(plan: Plan, db: Db, found: set<Key>, k: Key)
    requires found <= AllKeys(db)
    ensures k in Closure(plan, db, found) <==> k in found || (Has(db, k) && Cascades(plan, db, k, Closure(plan, db, found)))
  {
    var all := Closure(plan, db, found);
    ClosureContains(plan, db, found);
    ClosureIsClosed(plan, db, found);
    var grounded := set j | j in all && (j in found || (Has(db, j) && Cascades(plan, db, j, all)));
    forall j | Has(db, j) && Cascades(plan, db, j, grounded) ensures j in grounded {
      assert Cascades(plan, db, j, all);
    }
    ClosureIsLeast(plan, db, found, grounded);
  }

  lemma ClosureIsStored(plan: Plan, db: Db, found: set<Key>)
    requires found <= AllKeys(db)
    ensures Closure(plan, db, found) <= AllKeys(db)
  {
    ClosureIsLeast(plan, db, found, AllKeys(db));
  }

  // ---------------------------------------------------------------- deleting twice

  lemma NulledTwice(row: Row, dead: set<Key>, more: set<Key>)
    ensures Nulled(Nulled(row, dead), more) == Nulled(row, dead + more)
  {
    assert Nulled(Nulled(row, dead), more).refs == Nulled(row, dead + more).refs;
  }

  lemma PruneTableTwice(t: Table, rows: Rows, dead: set<Key>, more: set<Key>)
    ensures PruneTable(t, PruneTable(t, rows, dead), more) == PruneTable(t, rows, dead + more)
  {
    var twice, once := PruneTable(t, PruneTable(t, rows, dead), more), PruneTable(t, rows, dead + more);
    forall id: int ensures id in twice <==> id in once {}
    forall id | id in twice ensures twice[id] == once[id] {
      NulledTwice(rows[id], dead, more);
    }
    Collections.SameEntries(twice, once);
  }

  lemma PruneTwice(db: Db, dead: set<Key>, more: set<Key>)
    ensures Prune(Prune(db, dead), more) == Prune(db, dead + more)
  {
    var twice, once := Prune(Prune(db, dead), more), Prune(db, dead + more);
    forall t | t in twice ensures twice[t] == once[t] {
      PruneTableTwice(t, db[t], dead, more);
    }
    forall t: Table ensures t in twice <==> t in once {}
    Collections.SameEntries(twice, once);
  }

  lemma PruneNothing(db: Db)
    ensures Prune(db, {}) == db
  {
    var pruned := Prune(db, {});
    forall t | t in db ensures pruned[t] == db[t] {
      forall id: int ensures id in pruned[t] <==> id in db[t] {}
      forall id | id in db[t] ensures pruned[t][id] == db[t][id] {
        assert Nulled(db[t][id], {}).refs == db[t][id].refs;
      }
      Collections.SameEntries(pruned[t], db[t]);
    }
    forall t: Table ensures t in pruned <==> t in db {}
    Collections.SameEntries(pruned, db);
  }

  /** A surviving row keeps every link to a surviving row, and gains none. */
  lemma SurvivorLinks(plan: Plan, db: Db, dead: set<Key>, k: Key, r: Ref)
    requires Has(Prune(db, dead), k)
    ensures Has(db, k)
    ensures r in LinksOf(plan, Prune(db, dead), k) ==> r in LinksOf(plan, db, k)
    ensures r in LinksOf(plan, db, k) && r.to !in dead ==> r in LinksOf(plan, Prune(db, dead), k)
  {
  }

  lemma UnionIsClosed(plan: Plan, db: Db, dead: set<Key>, more: set<Key>)
    requires IsClosed(plan, db, dead) && IsClosed(plan, Prune(db, dead), more)
    ensures IsClosed(plan, db, dead + more)
  {
    forall k | Has(db, k) && Cascades(plan, db, k, dead + more) ensures k in dead + more {
      var r :| r in LinksOf(plan, db, k) && r.onDelete.Cascade? && r.to in dead + more;
      if r.to in dead {
        assert Cascades(plan, db, k, dead);
      } else if k !in dead {
        SurvivorLinks(plan, db, dead, k, r);
        assert Cascades(plan, Prune(db, dead), k, more);
      }
    }
  }

  lemma ClosedAfterPrune(plan: Plan, db: Db, dead: set<Key>, top: set<Key>)
    requires IsClosed(plan, db, top)
    ensures IsClosed(plan, Prune(db, dead), top)
  {
    forall k | Has(Prune(db, dead), k) && Cascades(plan, Prune(db, dead), k, top) ensures k in top {
      var r :| r in LinksOf(plan, Prune(db, dead), k) && r.onDelete.Cascade? && r.to in top;
      SurvivorLinks(plan, db, dead, k, r);
      assert Cascades(plan, db, k, top);
    }
  }

  /** A surviving row belongs to the same company as before. */
  lemma SurvivorScope(plan: Plan, db: Db, dead: set<Key>, company: int, k: Key)
    requires SoundScopes(plan) && Full(db) && IsClosed(plan, db, dead) && Has(Prune(db, dead), k)
    ensures var after := Prune(db, dead);
            Belongs(plan.scope(k.table), ParentRows(plan.scope(k.table), after), company, k.id, after[k.table][k.id]) <==>
            Belongs(plan.scope(k.table), ParentRows(plan.scope(k.table), db), company, k.id, db[k.table][k.id])
  {
    var row := db[k.table][k.id];
    if plan.scope(k.table).ChildOf? && row.parent.Some? {
      var up := Key(plan.scope(k.table).parent, row.parent.value);
      if up in dead {
        assert Ref(up, Cascade) in LinksOf(plan, db, k);
        assert Cascades(plan, db, k, dead);
        assert false;
      }
    }
  }

  // ---------------------------------------------------------------- all the deletions at once

  /** The rows that the first `n` tables' DELETEs select. */
  function Selected(plan: Plan, db: Db, company: int, payload: Payload, n: nat): set<Key>
    requires Full(db)
  {
    set k | k in AllKeys(db) && k.table < n && !Skips(payload, k.table) && k.id in MineIn(plan, db, company, k.table)
  }

  /** What goes with them. */
  function Dead(plan: Plan, db: Db, company: int, payload: Payload, n: nat): set<Key>
    requires Full(db)
  {
    Closure(plan, db, Selected(plan, db, company, payload, n))
  }

  lemma StepSelects(plan: Plan, db: Db, dead: set<Key>, company: int, t: Table)
    requires SoundScopes(plan) && Full(db) && IsClosed(plan, db, dead)
    ensures forall k :: k in SelectedIn(plan, Prune(db, dead), company, t) <==>
                        k !in dead && k in SelectedIn(plan, db, company, t)
  {
    forall k: Key | k.table == t && k.id in db[t] && k !in dead
      ensures k.id in MineIn(plan, Prune(db, dead), company, t) <==> k.id in MineIn(plan, db, company, t)
    {
      SurvivorScope(plan, db, dead, company, k);
    }
  }

  lemma NextSelected(plan: Plan, db: Db, company: int, payload: Payload, n: nat)
    requires Full(db) && n < TABLES && !Skips(payload, n)
    ensures Selected(plan, db, company, payload, n + 1) == Selected(plan, db, company, payload, n) + SelectedIn(plan, db, company, n)
  {
  }

  lemma StepWithin(plan: Plan, db: Db, dead: set<Key>, all: set<Key>, company: int, t: Table)
    requires SoundScopes(plan) && Full(db) && IsClosed(plan, db, dead) && IsClosed(plan, db, all)
    requires SelectedIn(plan, db, company, t) <= all
    ensures Full(Prune(db, dead))
    ensures Closure(plan, Prune(db, dead), SelectedIn(plan, Prune(db, dead), company, t)) <= all
  {
    StepSelects(plan, db, dead, company, t);
    ClosedAfterPrune(plan, db, dead, all);
    ClosureIsLeast(plan, Prune(db, dead), SelectedIn(plan, Prune(db, dead), company, t), all);
  }

  lemma StepCovers(plan: Plan, db: Db, dead: set<Key>, found: set<Key>, company: int, t: Table)
    requires SoundScopes(plan) && Full(db) && IsClosed(plan, db, dead) && found <= dead
    ensures Full(Prune(db, dead))
    ensures Closure(plan, db, found + SelectedIn(plan, db, company, t)) <=
            dead + Closure(plan, Prune(db, dead), SelectedIn(plan, Prune(db, dead), company, t))
  {
    var now := SelectedIn(plan, Prune(db, dead), company, t);
    var more := Closure(plan, Prune(db, dead), now);
    StepSelects(plan, db, dead, company, t);
    ClosureContains(plan, Prune(db, dead), now);
    ClosureIsClosed(plan, Prune(db, dead), now);
    UnionIsClosed(plan, db, dead, more);
    ClosureIsLeast(plan, db, found + SelectedIn(plan, db, company, t), dead + more);
  }

  /** The next DELETE, on what is left, takes exactly what the tables so far would take together. */
  lemma StepDead(plan: Plan, db: Db, company: int, payload: Payload, n: nat)
    requires SoundScopes(plan) && Full(db) && n < TABLES && !Skips(payload, n)
    ensures var dead := Dead(plan, db, company, payload, n);
            var left := Prune(db, dead);
            Full(left) && dead + Closure(plan, left, SelectedIn(plan, left, company, n)) == Dead(plan, db, company, payload, n + 1)
  {
    var before, after := Selected(plan, db, company, payload, n), Selected(plan, db, company, payload, n + 1);
    var dead, all := Closure(plan, db, before), Closure(plan, db, after);
    NextSelected(plan, db, company, payload, n);
    ClosureContains(plan, db, before);
    ClosureIsClosed(plan, db, before);
    ClosureContains(plan, db, after);
    ClosureIsClosed(plan, db, after);
    ClosureIsLeast(plan, db, before, all);
    StepWithin(plan, db, dead, all, company, n);
    StepCovers(plan, db, dead, before, company, n);
  }

  lemma SkippedTable(plan: Plan, db: Db, company: int, payload: Payload, n: nat)
    requires Full(db) && n < TABLES && Skips(payload, n)
    ensures Dead(plan, db, company, payload, n + 1) == Dead(plan, db, company, payload, n)
  {
    assert Selected(plan, db, company, payload, n + 1) == Selected(plan, db, company, payload, n);
  }

  lemma NothingDeleted(plan: Plan, db: Db, company: int, payload: Payload)
    requires Full(db)
    ensures Prune(db, Dead(plan, db, company, payload, 0)) == db
  {
    assert Selected(plan, db, company, payload, 0) == {};
    assert Dependents(plan, db, {}) == {};
    PruneNothing(db);
  }

  lemma DeletedNext(plan: Plan, db: Db, company: int, payload: Payload, n: nat)
    requires SoundScopes(plan) && Full(db) && n < TABLES && !Skips(payload, n)
    ensures var left := Prune(db, Dead(plan, db, company, payload, n));
            Full(left) &&
            (DeleteFrom(plan, left, company, n).Some? ==>
               DeleteFrom(plan, left, company, n) == Some(Prune(db, Dead(plan, db, company, payload, n + 1))))
  {
    var dead := Dead(plan, db, company, payload, n);
    StepDead(plan, db, company, payload, n);
    PruneTwice(db, dead, Closure(plan, Prune(db, dead), SelectedIn(plan, Prune(db, dead), company, n)));
  }

  /**
    If no DELETE is refused, the loop removes exactly the closure of all the rows selected in the
    database it started from, and nulls exactly the keys into it.
   */
  lemma {:induction false} DeletionsMean(plan: Plan, db: Db, company: int, payload: Payload, n: nat)
    requires SoundScopes(plan) && Full(db) && n <= TABLES
    ensures Deletions(plan, db, company, payload, n).Some? ==>
              Deletions(plan, db, company, payload, n) == Some(Prune(db, Dead(plan, db, company, payload, n)))
    decreases n
  {
    if n == 0 {
      NothingDeleted(plan, db, company, payload);
    } else {
      DeletionsMean(plan, db, company, payload, n - 1);
      if Skips(payload, n - 1) {
        SkippedTable(plan, db, company, payload, n - 1);
      } else {
        DeletedNext(plan, db, company, payload, n - 1);
      }
    }
  }

  // ---------------------------------------------------------------- the company row

  ghost predicate TypedRow(plan: Plan, t: Table, row: Row)
  {
    Typed(plan, t, row) && (plan.scope(t) != OfCompany ==> row.company == None)
  }

  /** Rows have the columns of their tables. */
  ghost predicate TypedDb(plan: Plan, db: Db)
  {
    forall k :: Has(db, k) ==> TypedRow(plan, k.table, db[k.table][k.id])
  }

  /** The company's own row is listed, and there is one to delete. */
  ghost predicate CompanyGoes(db: Db, company: int, payload: Payload)
    requires Full(db)
  {
    COMPANIES in payload && company in db[COMPANIES]
  }

  /** Every row of the company: in its tables, and the lines of its documents. */
  function Owned(plan: Plan, db: Db, company: int): set<Key>
    requires Full(db)
  {
    set k | k in AllKeys(db) && k.id in MineIn(plan, db, company, k.table)
  }

  /** Users, branches and companies hang on other rows by the company column alone. */
  lemma EdgeRowCascade(plan: Plan, t: Table, row: Row, r: Ref)
    requires Sound(plan) && TypedRow(plan, t, row) && (t == COMPANIES || t == USERS || t == BRANCHES)
    requires r in Links(plan, t, row) && r.onDelete.Cascade?
    ensures t != COMPANIES && row.company.Some? && r.to == Key(COMPANIES, row.company.value)
  {
    assert r in row.refs ==> SoundKey(plan, t, ForeignKey(r.to.table, r.onDelete));
  }

  /** A row of the companies table goes exactly when it is the company's own and is listed. */
  lemma RootDies(plan: Plan, db: Db, company: int, payload: Payload, c: int)
    requires Sound(plan) && Full(db) && TypedDb(plan, db)
    ensures Key(COMPANIES, c) in Dead(plan, db, company, payload, TABLES) <==> c == company && CompanyGoes(db, company, payload)
  {
    var k := Key(COMPANIES, c);
    ClosureUnfold(plan, db, Selected(plan, db, company, payload, TABLES), k);
    if Has(db, k) && Cascades(plan, db, k, Dead(plan, db, company, payload, TABLES)) {
      var r :| r in LinksOf(plan, db, k) && r.onDelete.Cascade?;
      EdgeRowCascade(plan, COMPANIES, db[COMPANIES][c], r);
    }
  }

  lemma RootLinkDies(plan: Plan, db: Db, company: int, payload: Payload, k: Key)
    requires Sound(plan) && Full(db) && TypedDb(plan, db) && CompanyGoes(db, company, payload)
    requires Has(db, k) && db[k.table][k.id].company == Some(company)
    ensures k in Dead(plan, db, company, payload, TABLES)
  {
    var dead := Dead(plan, db, company, payload, TABLES);
    RootDies(plan, db, company, payload, company);
    ClosureIsClosed(plan, db, Selected(plan, db, company, payload, TABLES));
    assert Ref(Key(COMPANIES, company), Cascade) in LinksOf(plan, db, k);
    assert Cascades(plan, db, k, dead);
  }

  /** With the company row goes every row of the company, listed or not: in its tables and in the lines of its documents. */
  lemma CompanyRowTakesAll(plan: Plan, db: Db, company: int, payload: Payload)
    requires Sound(plan) && Full(db) && TypedDb(plan, db) && CompanyGoes(db, company, payload)
    ensures Owned(plan, db, company) <= Dead(plan, db, company, payload, TABLES)
  {
    var dead := Dead(plan, db, company, payload, TABLES);
    forall k | k in Owned(plan, db, company) ensures k in dead {
      var row := db[k.table][k.id];
      match plan.scope(k.table)
      case OfCompany => RootLinkDies(plan, db, company, payload, k);
      case Single => RootDies(plan, db, company, payload, company);
      case ChildOf(p) =>
        RootLinkDies(plan, db, company, payload, Key(p, row.parent.value));
        ClosureIsClosed(plan, db, Selected(plan, db, company, payload, TABLES));
        assert Ref(Key(p, row.parent.value), Cascade) in LinksOf(plan, db, k);
        assert Cascades(plan, db, k, dead);
    }
  }

  // ---------------------------------------------------------------- the users

  /** The company's branches go: they are listed, or the company row takes them. */
  ghost predicate BranchesGo(db: Db, company: int, payload: Payload)
    requires Full(db)
  {
    BRANCHES in payload || CompanyGoes(db, company, payload)
  }

  ghost predicate NamesBranchOf(db: Db, user: Row, company: int)
    requires Full(db)
  {
    exists r :: r in user.refs && r.to.table == BRANCHES && r.to.id in db[BRANCHES] && db[BRANCHES][r.to.id].company == Some(company)
  }

  /** What a caller can look up beforehand: no user goes with the company row, and none sits in a branch that goes. */
  ghost predicate UsersSafe(db: Db, company: int, payload: Payload)
    requires Full(db)
  {
    forall id :: id in db[USERS] ==>
      && (CompanyGoes(db, company, payload) ==> db[USERS][id].company != Some(company))
      && (BranchesGo(db, company, payload) ==> !NamesBranchOf(db, db[USERS][id], company))
  }

  lemma BranchDies(plan: Plan, db: Db, company: int, payload: Payload, b: int)
    requires Sound(plan) && Full(db) && TypedDb(plan, db) && b in db[BRANCHES]
    ensures Key(BRANCHES, b) in Dead(plan, db, company, payload, TABLES) <==>
            BranchesGo(db, company, payload) && db[BRANCHES][b].company == Some(company)
  {
    var k, dead := Key(BRANCHES, b), Dead(plan, db, company, payload, TABLES);
    ClosureUnfold(plan, db, Selected(plan, db, company, payload, TABLES), k);
    if CompanyGoes(db, company, payload) && db[BRANCHES][b].company == Some(company) {
      RootLinkDies(plan, db, company, payload, k);
    }
    if Cascades(plan, db, k, dead) {
      var r :| r in LinksOf(plan, db, k) && r.onDelete.Cascade? && r.to in dead;
      EdgeRowCascade(plan, BRANCHES, db[BRANCHES][b], r);
      RootDies(plan, db, company, payload, r.to.id);
    }
  }

  lemma UserDies(plan: Plan, db: Db, company: int, payload: Payload, id: int)
    requires Sound(plan) && Full(db) && TypedDb(plan, db) && Skips(payload, USERS) && id in db[USERS]
    ensures Key(USERS, id) in Dead(plan, db, company, payload, TABLES) <==>
            CompanyGoes(db, company, payload) && db[USERS][id].company == Some(company)
  {
    var k, dead := Key(USERS, id), Dead(plan, db, company, payload, TABLES);
    ClosureUnfold(plan, db, Selected(plan, db, company, payload, TABLES), k);
    if CompanyGoes(db, company, payload) && db[USERS][id].company == Some(company) {
      RootLinkDies(plan, db, company, payload, k);
    }
    if Cascades(plan, db, k, dead) {
      var r :| r in LinksOf(plan, db, k) && r.onDelete.Cascade? && r.to in dead;
      EdgeRowCascade(plan, USERS, db[USERS][id], r);
      RootDies(plan, db, company, payload, r.to.id);
    }
  }

  lemma NulledSame(row: Row, dead: set<Key>)
    ensures Nulled(row, dead) == row <==> forall r :: r in row.refs ==> r.to !in dead
  {
    if forall r :: r in row.refs ==> r.to !in dead {
      assert Nulled(row, dead).refs == row.refs;
    }
    if Nulled(row, dead) == row {
      forall r | r in row.refs ensures r.to !in dead {
        assert r in Nulled(row, dead).refs;
      }
    }
  }

  lemma UserKeyDies(plan: Plan, db: Db, company: int, payload: Payload, id: int, r: Ref)
    requires Sound(plan) && Full(db) && TypedDb(plan, db) && id in db[USERS] && r in db[USERS][id].refs
    ensures r.to in Dead(plan, db, company, payload, TABLES) <==>
            BranchesGo(db, company, payload) && r.to.table == BRANCHES && r.to.id in db[BRANCHES] &&
            db[BRANCHES][r.to.id].company == Some(company)
  {
    assert TypedRow(plan, USERS, db[USERS][id]) by { assert Has(db, Key(USERS, id)); }
    assert SoundKey(plan, USERS, ForeignKey(r.to.table, r.onDelete));
    if r.to.id in db[BRANCHES] {
      BranchDies(plan, db, company, payload, r.to.id);
    } else {
      ClosureIsStored(plan, db, Selected(plan, db, company, payload, TABLES));
    }
  }

  lemma UserIsNulled(plan: Plan, db: Db, company: int, payload: Payload, id: int)
    requires Sound(plan) && Full(db) && TypedDb(plan, db) && id in db[USERS]
    ensures Nulled(db[USERS][id], Dead(plan, db, company, payload, TABLES)) == db[USERS][id] <==>
            !(BranchesGo(db, company, payload) && NamesBranchOf(db, db[USERS][id], company))
  {
    var user, dead := db[USERS][id], Dead(plan, db, company, payload, TABLES);
    assert Nulled(user, dead) == user <==> Nulled(user, dead).refs == user.refs;
    forall r | r in user.refs
      ensures r.to in dead <==>
              BranchesGo(db, company, payload) && r.to.table == BRANCHES && r.to.id in db[BRANCHES] &&
              db[BRANCHES][r.to.id].company == Some(company)
    {
      UserKeyDies(plan, db, company, payload, id, r);
    }
    NulledSame(user, dead);
  }

  /**
    For every validated payload whose deletions go through, the users are as they were if and only if
    the company row does not take one of them and no branch that goes takes a column of one.
   */
  lemma UsersUnchangedIff(plan: Plan, db: Db, company: int, payload: Payload)
    requires Sound(plan) && Full(db) && TypedDb(plan, db) && Validates(plan, db, company, payload)
    requires Deletions(plan, db, company, payload, TABLES).Some?
    ensures Deletions(plan, db, company, payload, TABLES).value[USERS] == db[USERS] <==> UsersSafe(db, company, payload)
  {
    UsersAreSkipped(plan, db, company, payload);
    DeletionsMean(plan, db, company, payload, TABLES);
    var dead := Dead(plan, db, company, payload, TABLES);
    var left := PruneTable(USERS, db[USERS], dead);
    forall id | id in db[USERS]
      ensures (id in left && left[id] == db[USERS][id]) <==>
              !(CompanyGoes(db, company, payload) && db[USERS][id].company == Some(company)) &&
              !(BranchesGo(db, company, payload) && NamesBranchOf(db, db[USERS][id], company))
    {
      UserDies(plan, db, company, payload, id);
      UserIsNulled(plan, db, company, payload, id);
    }
    if UsersSafe(db, company, payload) {
      forall id: int ensures id in left <==> id in db[USERS] {}
      Collections.SameEntries(left, db[USERS]);
    }
  }

  // ---------------------------------------------------------------- one company among several

  /** Every row named exists. */
  ghost predicate Integrity(plan: Plan, db: Db)
  {
    forall k, r :: Has(db, k) && r in LinksOf(plan, db, k) ==> Has(db, r.to)
  }

  /** No row from outside names a row of the company.  Neither the schema nor the program sees to it. */
  ghost predicate NoneNameIn(plan: Plan, db: Db, company: int)
    requires Full(db)
  {
    forall k, r :: Has(db, k) && r in LinksOf(plan, db, k) && r.to in Owned(plan, db, company) ==> k in Owned(plan, db, company)
  }

  /** None does so by a key of this kind. */
  ghost predicate NoneNameInBy(plan: Plan, db: Db, company: int, how: OnDelete)
    requires Full(db)
  {
    forall k, r :: Has(db, k) && r in LinksOf(plan, db, k) && r.onDelete == how && r.to in Owned(plan, db, company) ==>
      k in Owned(plan, db, company)
  }

  /** If no key from outside cascades into the company, the deletions take only rows of the company, whatever the payload. */
  lemma OnlyOwnedDie(plan: Plan, db: Db, company: int, payload: Payload, n: nat)
    requires Full(db) && NoneNameInBy(plan, db, company, Cascade)
    ensures Dead(plan, db, company, payload, n) <= Owned(plan, db, company)
  {
    ClosureIsLeast(plan, db, Selected(plan, db, company, payload, n), Owned(plan, db, company));
  }

  /** The row names none that the deletions take. */
  ghost predicate NamesNoneDead(plan: Plan, db: Db, company: int, payload: Payload, k: Key)
    requires Full(db) && Has(db, k)
  {
    forall r :: r in LinksOf(plan, db, k) ==> r.to !in Dead(plan, db, company, payload, TABLES)
  }

  /** A row of another company goes only by a cascade. */
  lemma OutsiderDies(plan: Plan, db: Db, company: int, payload: Payload, n: nat, k: Key)
    requires Full(db) && Has(db, k) && k !in Owned(plan, db, company)
    ensures k in Dead(plan, db, company, payload, n) <==> Cascades(plan, db, k, Dead(plan, db, company, payload, n))
  {
    ClosureUnfold(plan, db, Selected(plan, db, company, payload, n), k);
  }

  /** The row is in `after` as it is in `db`. */
  ghost predicate StaysIn(db: Db, after: Db, k: Key)
    requires Has(db, k)
  {
    Has(after, k) && after[k.table][k.id] == db[k.table][k.id]
  }

  /** Whatever the payload, a row of another company stays, with every column, if and only if it names no row that goes. */
  lemma OthersStayIff(plan: Plan, db: Db, company: int, payload: Payload, k: Key)
    requires SoundScopes(plan) && Full(db) && Has(db, k) && k !in Owned(plan, db, company)
    requires Deletions(plan, db, company, payload, TABLES).Some?
    ensures StaysIn(db, Deletions(plan, db, company, payload, TABLES).value, k) <==> NamesNoneDead(plan, db, company, payload, k)
  {
    var dead := Dead(plan, db, company, payload, TABLES);
    var row := db[k.table][k.id];
    DeletionsMean(plan, db, company, payload, TABLES);
    OutsiderDies(plan, db, company, payload, TABLES, k);
    NulledSame(row, dead);
    if r :| r in LinksOf(plan, db, k) && r.to in dead {
      assert r !in row.refs ==> Cascades(plan, db, k, dead);
    } else {
      assert forall r :: r in row.refs ==> r in LinksOf(plan, db, k);
    }
  }

  // ---------------------------------------------------------------- when a DELETE is refused

  lemma StillBlocked(plan: Plan, db: Db, dead: set<Key>, more: set<Key>)
    requires !Blocked(plan, db, dead)
    ensures Blocked(plan, Prune(db, dead), more) ==> Blocked(plan, db, dead + more)
    ensures Blocked(plan, db, dead + more) ==> Blocked(plan, Prune(db, dead), more)
  {
    if Blocked(plan, db, dead + more) {
      var k :| k in AllKeys(db) && k !in dead + more && Blocks(plan, db, k, dead + more);
      assert !Blocks(plan, db, k, dead);
      var r :| r in LinksOf(plan, db, k) && r.onDelete.Block? && r.to in dead + more;
      SurvivorLinks(plan, db, dead, k, r);
      assert k in AllKeys(Prune(db, dead)) && Blocks(plan, Prune(db, dead), k, more);
    }
    if Blocked(plan, Prune(db, dead), more) {
      var k :| k in AllKeys(Prune(db, dead)) && k !in more && Blocks(plan, Prune(db, dead), k, more);
      var r :| r in LinksOf(plan, Prune(db, dead), k) && r.onDelete.Block? && r.to in more;
      SurvivorLinks(plan, db, dead, k, r);
      assert k in AllKeys(db) && Blocks(plan, db, k, dead + more);
    }
  }

  /** No row that outlives the first `m` DELETEs names, by a blocking key, one that does not; for every `m` up to `n`. */
  ghost predicate NeverBlocked(plan: Plan, db: Db, company: int, payload: Payload, n: nat)
    requires Full(db)
  {
    forall m: nat :: m <= n ==> !Blocked(plan, db, Dead(plan, db, company, payload, m))
  }

  lemma NextIsBlockedIff(plan: Plan, db: Db, company: int, payload: Payload, n: nat)
    requires SoundScopes(plan) && Full(db) && n < TABLES && !Skips(payload, n)
    requires !Blocked(plan, db, Dead(plan, db, company, payload, n))
    ensures DeleteFrom(plan, Prune(db, Dead(plan, db, company, payload, n)), company, n).Some? <==>
            !Blocked(plan, db, Dead(plan, db, company, payload, n + 1))
  {
    var dead := Dead(plan, db, company, payload, n);
    var left := Prune(db, dead);
    StepDead(plan, db, company, payload, n);
    StillBlocked(plan, db, dead, Closure(plan, left, SelectedIn(plan, left, company, n)));
  }

  lemma NextGoesThroughIff(plan: Plan, db: Db, company: int, payload: Payload, n: nat)
    requires SoundScopes(plan) && Full(db) && n < TABLES
    requires Deletions(plan, db, company, payload, n).Some? ==> !Blocked(plan, db, Dead(plan, db, company, payload, n))
    ensures Deletions(plan, db, company, payload, n + 1).Some? <==>
            Deletions(plan, db, company, payload, n).Some? && !Blocked(plan, db, Dead(plan, db, company, payload, n + 1))
  {
    if Skips(payload, n) {
      SkippedTable(plan, db, company, payload, n);
    } else if Deletions(plan, db, company, payload, n).Some? {
      DeletionsMean(plan, db, company, payload, n);
      NextIsBlockedIff(plan, db, company, payload, n);
    }
  }

  lemma NothingIsBlocked(plan: Plan, db: Db, company: int, payload: Payload)
    requires Full(db)
    ensures !Blocked(plan, db, Dead(plan, db, company, payload, 0))
  {
    assert Selected(plan, db, company, payload, 0) == {};
    assert Dependents(plan, db, {}) == {};
    assert Dead(plan, db, company, payload, 0) == {};
  }

  lemma {:induction false} PassedIsClear(plan: Plan, db: Db, company: int, payload: Payload, n: nat)
    requires SoundScopes(plan) && Full(db) && n <= TABLES && Deletions(plan, db, company, payload, n).Some?
    ensures !Blocked(plan, db, Dead(plan, db, company, payload, n))
    decreases n
  {
    if n == 0 {
      NothingIsBlocked(plan, db, company, payload);
    } else {
      PassedIsClear(plan, db, company, payload, n - 1);
      NextGoesThroughIff(plan, db, company, payload, n - 1);
    }
  }

  lemma {:induction false} ClearIsPassed(plan: Plan, db: Db, company: int, payload: Payload, n: nat, top: nat)
    requires SoundScopes(plan) && Full(db) && n <= top <= TABLES && NeverBlocked(plan, db, company, payload, top)
    ensures Deletions(plan, db, company, payload, n).Some?
    decreases n
  {
    if n > 0 {
      ClearIsPassed(plan, db, company, payload, n - 1, top);
      PassedIsClear(plan, db, company, payload, n - 1);
      NextGoesThroughIff(plan, db, company, payload, n - 1);
    }
  }

  /**
    Whatever the payload, the deletions go through if and only if no row is left behind, at any
    turn of the loop, that names a row gone by then by a blocking key.
   */
  lemma DeletionsGoThroughIff(plan: Plan, db: Db, company: int, payload: Payload, n: nat)
    requires SoundScopes(plan) && Full(db) && n <= TABLES
    ensures Deletions(plan, db, company, payload, n).Some? <==> NeverBlocked(plan, db, company, payload, n)
  {
    if Deletions(plan, db, company, payload, n).Some? {
      forall m: nat | m <= n ensures !Blocked(plan, db, Dead(plan, db, company, payload, m)) {
        if Deletions(plan, db, company, payload, m).None? {
          RefusalLasts(plan, db, company, payload, m, n);
        } else {
          PassedIsClear(plan, db, company, payload, m);
        }
      }
    }
    if NeverBlocked(plan, db, company, payload, n) {
      ClearIsPassed(plan, db, company, payload, n, n);
    }
  }

  // ---------------------------------------------------------------- full backups

  /** What a full backup is to the two loops: every table is listed, the users without credentials. */
  ghost predicate IsWhole(payload: Payload)
  {
    (forall t: Table :: t in payload) && Skips(payload, USERS)
  }

  /** A key that cascades or blocks leads to the same table or a later one. */
  lemma LinkForward(plan: Plan, db: Db, k: Key, r: Ref)
    requires Sound(plan) && TypedDb(plan, db) && Has(db, k) && r in LinksOf(plan, db, k) && !r.onDelete.SetNull?
    ensures k.table <= r.to.table
  {
    assert TypedRow(plan, k.table, db[k.table][k.id]);
    assert r in db[k.table][k.id].refs ==> SoundKey(plan, k.table, ForeignKey(r.to.table, r.onDelete));
  }

  /** Before the company itself is reached, the deletions so far touch only the tables so far. */
  lemma DeadSoFar(plan: Plan, db: Db, company: int, payload: Payload, n: nat)
    requires Sound(plan) && Full(db) && TypedDb(plan, db) && n < TABLES
    ensures forall k :: k in Dead(plan, db, company, payload, n) ==> k.table < n
  {
    var soFar := set k | k in AllKeys(db) && k.table < n;
    forall k | Has(db, k) && Cascades(plan, db, k, soFar) ensures k in soFar {
      var r :| r in LinksOf(plan, db, k) && r.onDelete.Cascade? && r.to in soFar;
      LinkForward(plan, db, k, r);
    }
    ClosureIsLeast(plan, db, Selected(plan, db, company, payload, n), soFar);
  }

  lemma BlockerIsTable(plan: Plan, db: Db, k: Key, r: Ref)
    requires Sound(plan) && TypedDb(plan, db) && Has(db, k) && r in LinksOf(plan, db, k) && r.onDelete.Block?
    ensures k.table != USERS
  {
    assert TypedRow(plan, k.table, db[k.table][k.id]);
    assert SoundKey(plan, k.table, ForeignKey(r.to.table, r.onDelete));
  }

  lemma ListedDies(plan: Plan, db: Db, company: int, payload: Payload, k: Key, n: nat)
    requires Full(db) && k in Owned(plan, db, company) && k.table in payload && k.table != USERS && k.table < n
    ensures k in Dead(plan, db, company, payload, n)
  {
    ClosureContains(plan, db, Selected(plan, db, company, payload, n));
    assert k in Selected(plan, db, company, payload, n);
  }

  /** A row of the company holding a blocking key was in an earlier table than the row it names, and went before it. */
  lemma BlockerIsGone(plan: Plan, db: Db, company: int, payload: Payload, n: nat, k: Key, r: Ref)
    requires Sound(plan) && Full(db) && TypedDb(plan, db) && IsWhole(payload) && n <= TABLES
    requires Has(db, k) && k in Owned(plan, db, company)
    requires r in LinksOf(plan, db, k) && r.onDelete.Block? && r.to in Dead(plan, db, company, payload, n)
    ensures k in Dead(plan, db, company, payload, n)
  {
    BlockerIsTable(plan, db, k, r);
    LinkForward(plan, db, k, r);
    if n < TABLES {
      DeadSoFar(plan, db, company, payload, n);
    }
    ListedDies(plan, db, company, payload, k, n);
  }

  /** Every row from outside that names a row of `dead` by a blocking key is in `dead` itself. */
  ghost predicate OutsideAllows(plan: Plan, db: Db, company: int, dead: set<Key>)
    requires Full(db)
  {
    forall k :: k in AllKeys(db) && k !in Owned(plan, db, company) && Blocks(plan, db, k, dead) ==> k in dead
  }

  /** No row from outside names, by a blocking key, a row that goes before it does. */
  ghost predicate NoneOutsideBlocks(plan: Plan, db: Db, company: int, payload: Payload)
    requires Full(db)
  {
    forall n: nat :: n <= TABLES ==> OutsideAllows(plan, db, company, Dead(plan, db, company, payload, n))
  }

  lemma OnlyOutsideBlocks(plan: Plan, db: Db, company: int, payload: Payload, n: nat)
    requires Sound(plan) && Full(db) && TypedDb(plan, db) && IsWhole(payload) && n <= TABLES
    ensures !Blocked(plan, db, Dead(plan, db, company, payload, n)) <==>
            OutsideAllows(plan, db, company, Dead(plan, db, company, payload, n))
  {
    var dead := Dead(plan, db, company, payload, n);
    forall k | k in AllKeys(db) && k in Owned(plan, db, company) && Blocks(plan, db, k, dead) ensures k in dead {
      var r :| r in LinksOf(plan, db, k) && r.onDelete.Block? && r.to in dead;
      BlockerIsGone(plan, db, company, payload, n, k, r);
    }
  }

  /**
    With a full backup the company's own rows never stand in the way: the deletion order empties a
    table before any row its keys protect goes.  Only a row from outside can.
   */
  lemma FullDeletesGoThroughIff(plan: Plan, db: Db, company: int, payload: Payload)
    requires Sound(plan) && Full(db) && TypedDb(plan, db) && IsWhole(payload)
    ensures Deletions(plan, db, company, payload, TABLES).Some? <==> NoneOutsideBlocks(plan, db, company, payload)
  {
    DeletionsGoThroughIff(plan, db, company, payload, TABLES);
    forall n: nat | n <= TABLES
      ensures !Blocked(plan, db, Dead(plan, db, company, payload, n)) <==>
              OutsideAllows(plan, db, company, Dead(plan, db, company, payload, n))
    {
      OnlyOutsideBlocks(plan, db, company, payload, n);
    }
  }

  lemma OwnedUserDies(plan: Plan, db: Db, company: int, payload: Payload, id: int)
    requires Sound(plan) && Full(db) && TypedDb(plan, db) && Integrity(plan, db) && IsWhole(payload)
    requires id in MineIn(plan, db, company, USERS)
    ensures Key(USERS, id) in Dead(plan, db, company, payload, TABLES)
  {
    assert Ref(Key(COMPANIES, company), Cascade) in LinksOf(plan, db, Key(USERS, id));
    assert Has(db, Key(COMPANIES, company));
    UserDies(plan, db, company, payload, id);
  }

  /** With a full backup all of the company's rows go, users included. */
  lemma OwnedDie(plan: Plan, db: Db, company: int, payload: Payload)
    requires Sound(plan) && Full(db) && TypedDb(plan, db) && Integrity(plan, db) && IsWhole(payload)
    ensures Owned(plan, db, company) <= Dead(plan, db, company, payload, TABLES)
  {
    forall k | k in Owned(plan, db, company) ensures k in Dead(plan, db, company, payload, TABLES) {
      if k.table == USERS {
        OwnedUserDies(plan, db, company, payload, k.id);
      } else {
        ListedDies(plan, db, company, payload, k, TABLES);
      }
    }
  }

  /** The company's rows, and every row from outside that cascades into them. */
  function Taken(plan: Plan, db: Db, company: int): set<Key>
    requires Full(db)
  {
    Closure(plan, db, Owned(plan, db, company))
  }

  lemma TakenIsOwned(plan: Plan, db: Db, company: int)
    requires Full(db) && NoneNameInBy(plan, db, company, Cascade)
    ensures Taken(plan, db, company) == Owned(plan, db, company)
  {
    ClosureContains(plan, db, Owned(plan, db, company));
    ClosureIsLeast(plan, db, Owned(plan, db, company), Owned(plan, db, company));
  }

  /** With a full backup the deletions take exactly those. */
  lemma FullDead(plan: Plan, db: Db, company: int, payload: Payload)
    requires Sound(plan) && Full(db) && TypedDb(plan, db) && Integrity(plan, db) && IsWhole(payload)
    ensures Dead(plan, db, company, payload, TABLES) == Taken(plan, db, company)
  {
    var selected, owned := Selected(plan, db, company, payload, TABLES), Owned(plan, db, company);
    OwnedDie(plan, db, company, payload);
    ClosureIsClosed(plan, db, selected);
    ClosureIsLeast(plan, db, owned, Closure(plan, db, selected));
    ClosureContains(plan, db, owned);
    ClosureIsClosed(plan, db, owned);
    ClosureIsLeast(plan, db, selected, Closure(plan, db, owned));
  }

  /** If no key from outside cascades into the company, only a blocking key from outside can stop the deletions of a full backup. */
  lemma BlockingKeyDecides(plan: Plan, db: Db, company: int, payload: Payload)
    requires Sound(plan) && Full(db) && TypedDb(plan, db) && Integrity(plan, db) && IsWhole(payload)
    requires NoneNameInBy(plan, db, company, Cascade)
    ensures NoneOutsideBlocks(plan, db, company, payload) <==> NoneNameInBy(plan, db, company, Block)
  {
    var owned := Owned(plan, db, company);
    forall n: nat ensures Dead(plan, db, company, payload, n) <= owned {
      OnlyOwnedDie(plan, db, company, payload, n);
    }
    OwnedDie(plan, db, company, payload);
    if NoneOutsideBlocks(plan, db, company, payload) {
      forall k, r | Has(db, k) && r in LinksOf(plan, db, k) && r.onDelete == Block && r.to in owned ensures k in owned {
        assert OutsideAllows(plan, db, company, Dead(plan, db, company, payload, TABLES));
        assert k in AllKeys(db) && Blocks(plan, db, k, Dead(plan, db, company, payload, TABLES));
      }
    }
  }

  /** What the deletions of a full backup leave: every row not taken, its keys into taken rows nulled. */
  lemma FullLeft(plan: Plan, db: Db, company: int, payload: Payload)
    requires Sound(plan) && Full(db) && TypedDb(plan, db) && Integrity(plan, db) && IsWhole(payload)
    requires Deletions(plan, db, company, payload, TABLES).Some?
    ensures Deletions(plan, db, company, payload, TABLES).value == Prune(db, Taken(plan, db, company))
  {
    DeletionsMean(plan, db, company, payload, TABLES);
    FullDead(plan, db, company, payload);
  }

  /** Every row of another company is in `after` as it is in `db`. */
  ghost predicate OthersKept(plan: Plan, db: Db, after: Db, company: int)
    requires Full(db)
  {
    forall k :: Has(db, k) && k !in Owned(plan, db, company) ==> StaysIn(db, after, k)
  }

  lemma NamesNoneDeadIff(plan: Plan, db: Db, company: int, payload: Payload)
    requires Sound(plan) && Full(db) && TypedDb(plan, db) && Integrity(plan, db) && IsWhole(payload)
    ensures (forall k :: Has(db, k) && k !in Owned(plan, db, company) ==> NamesNoneDead(plan, db, company, payload, k)) <==>
            NoneNameIn(plan, db, company)
  {
    OwnedDie(plan, db, company, payload);
    if NoneNameIn(plan, db, company) {
      OnlyOwnedDie(plan, db, company, payload, TABLES);
    }
  }

  /** The deletions of a full backup leave every other company's rows alone if and only if no row from outside names a row of the company. */
  lemma FullDeletesIsolateIff(plan: Plan, db: Db, company: int, payload: Payload)
    requires Sound(plan) && Full(db) && TypedDb(plan, db) && Integrity(plan, db) && IsWhole(payload)
    requires Deletions(plan, db, company, payload, TABLES).Some?
    ensures OthersKept(plan, db, Deletions(plan, db, company, payload, TABLES).value, company) <==> NoneNameIn(plan, db, company)
  {
    forall k | Has(db, k) && k !in Owned(plan, db, company)
      ensures StaysIn(db, Deletions(plan, db, company, payload, TABLES).value, k) <==> NamesNoneDead(plan, db, company, payload, k)
    {
      OthersStayIff(plan, db, company, payload, k);
    }
    NamesNoneDeadIff(plan, db, company, payload);
  }
}
