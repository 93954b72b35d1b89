/** Rows that name another company's rows: how they come about, and what a restore then does to them, or they to it. */
module BackupCrossings {
  import opened Wrappers
  import opened BackupTables
  import opened Backup
  import opened BackupCascade
  import opened BackupProofs
  import Collections

  // ---------------------------------------------------------------- two companies and one key between them

  const PLAIN := Row(None, None, {}, None, "")

  /** A row of company 2 that names row 3 of `to`. */
  function Intruder(to: Table, how: OnDelete): Row
  {
    Row(Some(2), None, {Ref(Key(to, 3), how)}, None, "")
  }

  /** Companies 1 and 2, and a row of company 1 in `to`. */
  function TwoApart(to: Table, t: Table): Rows
  {
    if t == COMPANIES then map[1 := PLAIN, 2 := PLAIN]
    else if t == to then map[3 := PLAIN.(company := Some(1))]
    else map[]
  }

  /** The same, and a row of company 2 in `from` that names the row in `to`. */
  function Crossing(to: Table, from: Table, how: OnDelete, t: Table): Rows
  {
    if t == from then map[4 := Intruder(to, how)] else TwoApart(to, t)
  }

  /** A backup of company 1, from either. */
  function FirstSaved(to: Table, t: Table): seq<Saved>
  {
    if t == COMPANIES then [Saved(1, PLAIN)]
    else if t == to then [Saved(3, PLAIN.(company := Some(1)))]
    else []
  }

  /** The schema has such a key. */
  ghost predicate CanCross(plan: Plan, to: Table, from: Table, how: OnDelete)
  {
    && Sound(plan) && plan.scope(to) == OfCompany && plan.scope(from) == OfCompany
    && to != from && to != USERS && from != USERS && ForeignKey(to, how) in plan.keys(from)
  }

  ghost predicate IsApart(db: Db, to: Table)
  {
    Full(db) && forall t: Table :: db[t] == TwoApart(to, t)
  }

  ghost predicate IsCrossing(db: Db, to: Table, from: Table, how: OnDelete)
  {
    Full(db) && forall t: Table :: db[t] == Crossing(to, from, how, t)
  }

  ghost predicate IsFirstSaved(payload: Payload, to: Table)
  {
    forall t: Table :: t in payload && payload[t] == FirstSaved(to, t)
  }

  lemma CrossingLinks(plan: Plan, db: Db, to: Table, from: Table, how: OnDelete, k: Key, r: Ref)
    requires CanCross(plan, to, from, how) && IsCrossing(db, to, from, how) && Has(db, k)
    ensures r in LinksOf(plan, db, k) <==>
            (k == Key(to, 3) && r == Ref(Key(COMPANIES, 1), Cascade)) ||
            (k == Key(from, 4) && (r == Ref(Key(COMPANIES, 2), Cascade) || r == Ref(Key(to, 3), how)))
  {
  }

  lemma CrossingOwned(plan: Plan, db: Db, to: Table, from: Table, how: OnDelete, k: Key)
    requires CanCross(plan, to, from, how) && IsCrossing(db, to, from, how)
    ensures k in Owned(plan, db, 1) <==> k == Key(COMPANIES, 1) || k == Key(to, 3)
  {
  }

  lemma CrossingIsKept(plan: Plan, db: Db, to: Table, from: Table, how: OnDelete)
    requires CanCross(plan, to, from, how) && IsCrossing(db, to, from, how)
    ensures Kept(plan, db)
    ensures forall other: OnDelete :: other != how ==> NoneNameInBy(plan, db, 1, other)
    ensures !NoneNameInBy(plan, db, 1, how)
  {
    forall k, r | Has(db, k) && r in LinksOf(plan, db, k)
      ensures Has(db, r.to)
      ensures r.to in Owned(plan, db, 1) && k !in Owned(plan, db, 1) ==> r.onDelete == how
    {
      CrossingLinks(plan, db, to, from, how, k, r);
      CrossingOwned(plan, db, to, from, how, k);
      CrossingOwned(plan, db, to, from, how, r.to);
    }
    CrossingLinks(plan, db, to, from, how, Key(from, 4), Ref(Key(to, 3), how));
    CrossingOwned(plan, db, to, from, how, Key(from, 4));
    CrossingOwned(plan, db, to, from, how, Key(to, 3));
  }

  lemma FirstMine(plan: Plan, db: Db, to: Table, from: Table, how: OnDelete, t: Table)
    requires CanCross(plan, to, from, how) && IsCrossing(db, to, from, how)
    ensures var mine := MineIn(plan, db, 1, t);
            if t == COMPANIES then mine == map[1 := PLAIN] else if t == to then mine == map[3 := PLAIN.(company := Some(1))] else mine == map[]
  {
    var mine := MineIn(plan, db, 1, t);
    var expected := if t == COMPANIES then map[1 := PLAIN] else if t == to then map[3 := PLAIN.(company := Some(1))] else map[];
    forall id: int ensures id in mine <==> id in expected {}
    Collections.SameEntries(mine, expected);
  }

  lemma FirstIsSaved(plan: Plan, db: Db, to: Table, from: Table, how: OnDelete, payload: Payload)
    requires CanCross(plan, to, from, how) && IsCrossing(db, to, from, how) && IsFirstSaved(payload, to)
    ensures IsBackup(plan, db, 1, payload) && IsWhole(payload)
  {
    forall t: Table ensures Lists(payload[t], Exported(t, MineIn(plan, db, 1, t))) {
      FirstMine(plan, db, to, from, how, t);
      if t == COMPANIES {
        assert payload[t][0].id == 1;
      } else if t == to {
        assert payload[t][0].id == 3;
      }
    }
  }

  /** The saved rows name nothing by a key of their own, and their ids are free. */
  lemma FirstFindsAll(plan: Plan, db: Db, to: Table, from: Table, how: OnDelete, payload: Payload)
    requires CanCross(plan, to, from, how) && IsCrossing(db, to, from, how) && IsFirstSaved(payload, to)
    ensures AllFound(plan, db, 1, payload) && NoIdTaken(plan, db, db, 1)
  {
    OwnIdsAreFree(plan, db, 1);
    forall t: Table, k: nat | t in payload && k < |payload[t]| ensures FindsAll(plan, db, 1, payload, t, k) {
      assert payload[t][k].row.refs == {};
    }
  }

  // ---------------------------------------------------------------- a key that nulls

  lemma IntruderIsNulled(to: Table, how: OnDelete, taken: set<Key>)
    requires Key(to, 3) in taken
    ensures Nulled(Intruder(to, how), taken) == PLAIN.(company := Some(2))
  {
    assert Nulled(Intruder(to, how), taken).refs == {};
  }

  lemma NullingPasses(plan: Plan, db: Db, to: Table, from: Table, payload: Payload)
    requires CanCross(plan, to, from, SetNull) && IsCrossing(db, to, from, SetNull) && IsFirstSaved(payload, to)
    ensures Kept(plan, db) && IsBackup(plan, db, 1, payload) && Accepted(plan, db, 1, payload)
  {
    CrossingIsKept(plan, db, to, from, SetNull);
    FirstIsSaved(plan, db, to, from, SetNull, payload);
    FirstFindsAll(plan, db, to, from, SetNull, payload);
    BlockingKeyDecides(plan, db, 1, payload);
    FullBackupGoesThroughIff(plan, db, db, 1, payload);
  }

  lemma CrossingPruned(plan: Plan, db: Db, to: Table, from: Table)
    requires CanCross(plan, to, from, SetNull) && IsCrossing(db, to, from, SetNull)
    ensures PruneTable(from, db[from], Taken(plan, db, 1)) == map[4 := PLAIN.(company := Some(2))]
  {
    var taken := Taken(plan, db, 1);
    CrossingIsKept(plan, db, to, from, SetNull);
    TakenIsOwned(plan, db, 1);
    CrossingOwned(plan, db, to, from, SetNull, Key(to, 3));
    CrossingOwned(plan, db, to, from, SetNull, Key(from, 4));
    IntruderIsNulled(to, SetNull, taken);
    Collections.SameEntries(PruneTable(from, db[from], taken), map[4 := PLAIN.(company := Some(2))]);
  }

  lemma NothingInserted(plan: Plan, db: Db, payload: Payload, t: Table)
    requires Full(db) && Accepted(plan, db, 1, payload) && t in payload && payload[t] == []
    ensures Restored(plan, db, 1, payload)[t] == Left(plan, db, 1, payload)[t]
  {
  }

  /** A full restore of company 1 goes through, and takes the column from company 2's row. */
  lemma NulledAcross(plan: Plan, db: Db, to: Table, from: Table, payload: Payload)
    requires CanCross(plan, to, from, SetNull) && IsCrossing(db, to, from, SetNull) && IsFirstSaved(payload, to)
    ensures IsBackup(plan, db, 1, payload) && Accepted(plan, db, 1, payload)
    ensures Restored(plan, db, 1, payload)[from] == map[4 := PLAIN.(company := Some(2))]
  {
    NullingPasses(plan, db, to, from, payload);
    WholeLeft(plan, db, db, 1, payload);
    CrossingPruned(plan, db, to, from);
    NothingInserted(plan, db, payload, from);
  }

  // ---------------------------------------------------------------- a key that blocks

  /** No full restore of company 1 goes through while company 2's row is there, though all ids are free and all rows found. */
  lemma BlockedAcross(plan: Plan, db: Db, to: Table, from: Table, payload: Payload)
    requires CanCross(plan, to, from, Block) && IsCrossing(db, to, from, Block) && IsFirstSaved(payload, to)
    ensures Kept(plan, db) && IsBackup(plan, db, 1, payload)
    ensures NoIdTaken(plan, db, db, 1) && AllFound(plan, db, 1, payload)
    ensures Deletions(plan, db, 1, payload, TABLES).None? && !Accepted(plan, db, 1, payload)
  {
    CrossingIsKept(plan, db, to, from, Block);
    FirstIsSaved(plan, db, to, from, Block, payload);
    FirstFindsAll(plan, db, to, from, Block, payload);
    BlockingKeyDecides(plan, db, 1, payload);
    FullDeletesGoThroughIff(plan, db, 1, payload);
  }

  // ---------------------------------------------------------------- how such a key comes about

  /** A restore of company 2 may list a row that names company 1's: validation looks at company, credential and document alone. */
  function IntruderPayload(to: Table, from: Table, how: OnDelete): Payload
  {
    map[from := [Saved(4, Intruder(to, how))]]
  }

  lemma NothingSelected(plan: Plan, db: Db, to: Table, from: Table, how: OnDelete)
    requires CanCross(plan, to, from, how) && IsApart(db, to)
    ensures Deletions(plan, db, 2, IntruderPayload(to, from, how), TABLES) == Some(db)
  {
    var payload := IntruderPayload(to, from, how);
    forall n: nat ensures Dead(plan, db, 2, payload, n) == {} {
      assert Selected(plan, db, 2, payload, n) == {};
      assert Dependents(plan, db, {}) == {};
    }
    assert !Blocked(plan, db, {});
    DeletionsGoThroughIff(plan, db, 2, payload, TABLES);
    DeletionsMean(plan, db, 2, payload, TABLES);
    PruneNothing(db);
  }

  lemma IntruderLands(plan: Plan, db: Db, to: Table, from: Table, how: OnDelete)
    requires CanCross(plan, to, from, how) && IsApart(db, to)
    ensures Lands(plan, db, IntruderPayload(to, from, how), from)
    ensures Target(db, IntruderPayload(to, from, how), from) == map[4 := Intruder(to, how)]
  {
    var payload := IntruderPayload(to, from, how);
    assert payload[from][..0] == [];
    assert InsertAll(map[], payload[from]) == Some(map[4 := Intruder(to, how)]);
    assert Target(db, payload, to) == TwoApart(to, to) && Target(db, payload, COMPANIES) == TwoApart(to, COMPANIES);
    forall r | r in Links(plan, from, Intruder(to, how)) ensures r.to.table != from && Has(TargetDb(db, payload), r.to) {}
  }

  lemma IntruderIsValid(plan: Plan, db: Db, to: Table, from: Table, how: OnDelete)
    requires CanCross(plan, to, from, how)
    ensures Validates(plan, db, 2, IntruderPayload(to, from, how)) && TypedPayload(plan, IntruderPayload(to, from, how))
  {
    var rows := IntruderPayload(to, from, how)[from];
    assert ValidLine(db, IntruderPayload(to, from, how), 2, from, plan.scope(from), rows, 0);
    assert ValidLines(db, IntruderPayload(to, from, how), 2, from, plan.scope(from), rows, 0);
  }

  lemma RestoreMakesCrossing(plan: Plan, db: Db, to: Table, from: Table, how: OnDelete)
    requires CanCross(plan, to, from, how) && IsApart(db, to)
    ensures Accepted(plan, db, 2, IntruderPayload(to, from, how))
    ensures IsCrossing(Restored(plan, db, 2, IntruderPayload(to, from, how)), to, from, how)
  {
    var payload := IntruderPayload(to, from, how);
    IntruderIsValid(plan, db, to, from, how);
    NothingSelected(plan, db, to, from, how);
    IntruderLands(plan, db, to, from, how);
    forall t: Table ensures Lands(plan, db, payload, t) && Target(db, payload, t) == Crossing(to, from, how, t) {
      assert t != from ==> Skips(payload, t);
    }
  }

  // ---------------------------------------------------------------- with the program's own lists and keys

  lemma KeyCrosses(to: Table, from: Table, how: OnDelete)
    requires ScopeOf(to) == OfCompany && ScopeOf(from) == OfCompany && ForeignKey(to, how) in ForeignKeys(from)
    requires to != from && to != USERS && from != USERS
    ensures CanCross(ProgramPlan(), to, from, how)
  {
    ProgramPlanIsSound();
  }

  /**
    A task of company 2 comes to name a lead of company 1, through a restore of company 2.  The next
    full restore of company 1 is accepted, and changes company 2's task.
   */
  lemma ForeignTaskIsChanged() returns (before: Db, between: Db, payload: Payload)
    ensures IsApart(before, LEADS) && Accepted(ProgramPlan(), before, 2, IntruderPayload(LEADS, TASKS, SetNull))
    ensures between == Restored(ProgramPlan(), before, 2, IntruderPayload(LEADS, TASKS, SetNull))
    ensures Full(between) && IsBackup(ProgramPlan(), between, 1, payload) && Accepted(ProgramPlan(), between, 1, payload)
    ensures between[TASKS] == map[4 := Intruder(LEADS, SetNull)]
    ensures Restored(ProgramPlan(), between, 1, payload)[TASKS] == map[4 := PLAIN.(company := Some(2))]
  {
    KeyCrosses(LEADS, TASKS, SetNull);
    before := Tabulate(TABLES, (t: Table) => TwoApart(LEADS, t));
    payload := Tabulate(TABLES, (t: Table) => FirstSaved(LEADS, t));
    RestoreMakesCrossing(ProgramPlan(), before, LEADS, TASKS, SetNull);
    between := Restored(ProgramPlan(), before, 2, IntruderPayload(LEADS, TASKS, SetNull));
    NulledAcross(ProgramPlan(), between, LEADS, TASKS, payload);
  }

  /** A cash box of company 2 that names an account of company 1 has every full restore of company 1 refused at a DELETE. */
  lemma ForeignCashBoxForbidsRestore() returns (db: Db, payload: Payload)
    ensures Full(db) && Kept(ProgramPlan(), db) && IsBackup(ProgramPlan(), db, 1, payload)
    ensures db[CASH_BOXES] == map[4 := Intruder(ACCOUNTS, Block)]
    ensures NoIdTaken(ProgramPlan(), db, db, 1) && AllFound(ProgramPlan(), db, 1, payload)
    ensures Deletions(ProgramPlan(), db, 1, payload, TABLES).None? && !Accepted(ProgramPlan(), db, 1, payload)
  {
    KeyCrosses(ACCOUNTS, CASH_BOXES, Block);
    db := Tabulate(TABLES, (t: Table) => Crossing(ACCOUNTS, CASH_BOXES, Block, t));
    payload := Tabulate(TABLES, (t: Table) => FirstSaved(ACCOUNTS, t));
    BlockedAcross(ProgramPlan(), db, ACCOUNTS, CASH_BOXES, payload);
  }
}
