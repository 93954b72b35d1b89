/**
  The schema sync that runs at start-up: migration files in order, one transaction per file, a
  tracking table that names the files already applied.

  `exec` runs one statement on a schema (`None` when the database rejects it) and `body` gives a
  file's statements; `collate(a, b)` says whether `a` sorts no later than `b` by name.
 */
module Migrations {
  import opened Wrappers
  import Collections
  import Text

  // ---------------------------------------------------------------- the order of the files

  function DigitsValue(s: string, acc: int): int
  {
    if s != "" && '0' <= s[0] <= '9' then DigitsValue(s[1..], acc * 10 + (s[0] - '0') as int) else acc
  }

  /** `parseInt(s, 10) || 0`. */
  function ParseInt(s: string): int
  {
    var t := Text.TrimStart(s);
    if t != "" && t[0] == '-' then -DigitsValue(t[1..], 0)
    else if t != "" && t[0] == '+' then DigitsValue(t[1..], 0)
    else DigitsValue(t, 0)
  }

  function Number(file: string): int
  {
    ParseInt(Text.Split(file, '_')[0])
  }

  predicate Leq(collate: (string, string) -> bool, a: string, b: string)
  {
    Number(a) < Number(b) || (Number(a) == Number(b) && collate(a, b))
  }

  function Insert(collate: (string, string) -> bool, file: string, sorted: seq<string>): seq<string>
  {
    if sorted == [] then [file]
    else if Leq(collate, file, sorted[0]) then [file] + sorted
    else [sorted[0]] + Insert(collate, file, sorted[1..])
  }

  predicate IsSql(name: string)
  {
    |name| >= 4 && name[|name| - 4..] == ".sql"
  }

  /** The names that count are those that end in `.sql`. */
  lemma SqlIff(name: string)
    ensures IsSql(name) <==> exists stem :: name == stem + ".sql"
  {
    if IsSql(name) {
      assert name == name[..|name| - 4] + ".sql";
    }
  }

  /** The directory's `.sql` names, by leading number and then by name. */
  function MigrationFiles(collate: (string, string) -> bool, names: seq<string>): seq<string>
  {
    if names == [] then []
    else if IsSql(names[0]) then Insert(collate, names[0], MigrationFiles(collate, names[1..]))
    else MigrationFiles(collate, names[1..])
  }

  ghost predicate IsCollation(collate: (string, string) -> bool)
  {
    && (forall a, b :: collate(a, b) || collate(b, a))
    && (forall a, b, c :: collate(a, b) && collate(b, c) ==> collate(a, c))
  }

  ghost predicate InOrder(collate: (string, string) -> bool, files: seq<string>)
  {
    forall i, j :: 0 <= i < j < |files| ==> Leq(collate, files[i], files[j])
  }

  /** Files go by their numbers, and under one number by name. */
  lemma InOrderMeans(collate: (string, string) -> bool, files: seq<string>, i: nat, j: nat)
    requires InOrder(collate, files) && i < j < |files|
    ensures Number(files[i]) <= Number(files[j])
    ensures Number(files[i]) == Number(files[j]) ==> collate(files[i], files[j])
  {
    assert Leq(collate, files[i], files[j]);
  }

  lemma {:induction false} InsertAdds(collate: (string, string) -> bool, file: string, sorted: seq<string>)
    ensures multiset(Insert(collate, file, sorted)) == multiset(sorted) + multiset{file}
  {
    if sorted != [] && !Leq(collate, file, sorted[0]) {
      InsertAdds(collate, file, sorted[1..]);
      assert sorted == [sorted[0]] + sorted[1..];
    }
  }

  lemma InsertMembers(collate: (string, string) -> bool, file: string, sorted: seq<string>, i: nat)
    requires i < |Insert(collate, file, sorted)|
    ensures Insert(collate, file, sorted)[i] == file || Insert(collate, file, sorted)[i] in sorted
  {
    InsertAdds(collate, file, sorted);
    assert Insert(collate, file, sorted)[i] in multiset(Insert(collate, file, sorted));
  }

  lemma {:induction false} InsertKeepsOrder(collate: (string, string) -> bool, file: string, sorted: seq<string>)
    requires IsCollation(collate) && InOrder(collate, sorted)
    ensures InOrder(collate, Insert(collate, file, sorted))
  {
    if sorted != [] && !Leq(collate, file, sorted[0]) {
      var rest := Insert(collate, file, sorted[1..]);
      InsertKeepsOrder(collate, file, sorted[1..]);
      forall i | 0 <= i < |rest| ensures Leq(collate, sorted[0], rest[i]) {
        InsertMembers(collate, file, sorted[1..], i);
      }
    }
  }

  /** The list to apply is the directory's SQL files, each once, in order. */
  lemma {:induction false} FilesAreSorted(collate: (string, string) -> bool, names: seq<string>)
    requires IsCollation(collate)
    ensures InOrder(collate, MigrationFiles(collate, names))
    ensures forall n :: multiset(MigrationFiles(collate, names))[n] == if IsSql(n) then multiset(names)[n] else 0
  {
    if names != [] {
      FilesAreSorted(collate, names[1..]);
      assert names == [names[0]] + names[1..];
      if IsSql(names[0]) {
        InsertKeepsOrder(collate, names[0], MigrationFiles(collate, names[1..]));
        InsertAdds(collate, names[0], MigrationFiles(collate, names[1..]));
      }
    }
  }

  ghost predicate Distinct(files: seq<string>)
  {
    forall i, j :: 0 <= i < j < |files| ==> files[i] != files[j]
  }

  /** A name that occurs at two places counts at least twice. */
  lemma TwiceCounted(files: seq<string>, i: nat, j: nat)
    requires i < j < |files| && files[i] == files[j]
    ensures multiset(files)[files[i]] >= 2
  {
    assert files == files[..j] + files[j..];
    assert files[..j][i] == files[i] && files[j..][0] == files[i];
    assert files[i] in multiset(files[..j]) && files[i] in multiset(files[j..]);
  }

  lemma {:induction false} CountedOnce(names: seq<string>, name: string)
    requires Distinct(names)
    ensures multiset(names)[name] <= 1
  {
    if names != [] {
      assert names == [names[0]] + names[1..];
      CountedOnce(names[1..], name);
      if name == names[0] {
        assert name !in names[1..];
      }
    }
  }

  /** A directory's names are distinct, and so is the list made of them. */
  lemma FilesAreDistinct(collate: (string, string) -> bool, names: seq<string>)
    requires IsCollation(collate) && Distinct(names)
    ensures Distinct(MigrationFiles(collate, names))
  {
    var files := MigrationFiles(collate, names);
    FilesAreSorted(collate, names);
    forall i, j | 0 <= i < j < |files| ensures files[i] != files[j] {
      if files[i] == files[j] {
        TwiceCounted(files, i, j);
        CountedOnce(names, files[i]);
      }
    }
  }

  // ---------------------------------------------------------------- what applying means

  /** The schema after these statements, or none if one of them is rejected. */
  function RunStatements<S>(exec: (string, S) -> Option<S>, statements: seq<string>, schema: S): Option<S>
  {
    if statements == [] then Some(schema)
    else
      match RunStatements(exec, statements[..|statements| - 1], schema)
      case None => None
      case Some(s) => exec(statements[|statements| - 1], s)
  }

  /** The first statement runs first, on the schema as it is; one rejected ends it all. */
  lemma {:induction false} FirstStatementFirst<S>(exec: (string, S) -> Option<S>, first: string, rest: seq<string>, schema: S)
    ensures RunStatements(exec, [first] + rest, schema) ==
            match exec(first, schema) case None => None case Some(next) => RunStatements(exec, rest, next)
    decreases |rest|
  {
    var all := [first] + rest;
    if rest == [] {
      assert all[..0] == [] && all == [first];
    } else {
      assert all[..|all| - 1] == [first] + rest[..|rest| - 1];
      FirstStatementFirst(exec, first, rest[..|rest| - 1], schema);
    }
  }

  /** The schema after these files, each one once and in this order. */
  function RunFiles<S>(exec: (string, S) -> Option<S>, body: string -> seq<string>, files: seq<string>, schema: S): Option<S>
  {
    if files == [] then Some(schema)
    else
      match RunFiles(exec, body, files[..|files| - 1], schema)
      case None => None
      case Some(s) => RunStatements(exec, body(files[|files| - 1]), s)
  }

  /** The files not yet recorded, in list order. */
  function Pending(files: seq<string>, recorded: seq<string>): seq<string>
  {
    if files == [] then []
    else Pending(files[..|files| - 1], recorded) + if files[|files| - 1] in recorded then [] else [files[|files| - 1]]
  }

  datatype Outcome = Complete | Failed(file: string) | Crashed

  /** How one file's transaction ends before its COMMIT. */
  datatype TxResult<S> = TxReady(working: S) | TxRejected | TxCrashed

  /** Committed database content: the schema, and the tracking table in insertion order. */
  datatype Database<S> = Database(schema: S, recorded: seq<string>)

  /** From `before` to `after`, exactly the first `count` pending files were applied and recorded. */
  ghost predicate Advanced<S>(
    exec: (string, S) -> Option<S>, body: string -> seq<string>, files: seq<string>,
    before: Database<S>, after: Database<S>, count: nat)
  {
    var pending := Pending(files, before.recorded);
    && count <= |pending|
    && after.recorded == before.recorded + pending[..count]
    && RunFiles(exec, body, pending[..count], before.schema) == Some(after.schema)
  }

  lemma RunFilesSnoc<S>(exec: (string, S) -> Option<S>, body: string -> seq<string>, files: seq<string>, file: string, schema: S)
    ensures RunFiles(exec, body, files + [file], schema) ==
            match RunFiles(exec, body, files, schema) case None => None case Some(s) => RunStatements(exec, body(file), s)
  {
    assert (files + [file])[..|files|] == files;
  }

  lemma {:induction false} RejectionLasts<S>(exec: (string, S) -> Option<S>, statements: seq<string>, schema: S, k: nat)
    requires k <= |statements| && RunStatements(exec, statements[..k], schema) == None
    ensures RunStatements(exec, statements, schema) == None
    decreases |statements|
  {
    if k == |statements| {
      assert statements[..k] == statements;
    } else {
      var front := statements[..|statements| - 1];
      assert front[..k] == statements[..k];
      RejectionLasts(exec, front, schema, k);
    }
  }

  /** The next list entry, if it is not recorded, is the next pending file. */
  lemma {:induction false} PendingNext(files: seq<string>, recorded: seq<string>, i: nat)
    requires i < |files|
    ensures Pending(files[..i + 1], recorded) == Pending(files[..i], recorded) + if files[i] in recorded then [] else [files[i]]
    ensures Pending(files[..i], recorded) <= Pending(files[..i + 1], recorded) <= Pending(files, recorded)
    ensures files[i] !in recorded ==>
              |Pending(files[..i], recorded)| < |Pending(files, recorded)| &&
              Pending(files, recorded)[|Pending(files[..i], recorded)|] == files[i]
    decreases |files|
  {
    assert files[..i + 1][..i] == files[..i];
    if i + 1 == |files| {
      assert files[..i + 1] == files;
    } else {
      var front := files[..|files| - 1];
      assert front[..i] == files[..i] && front[..i + 1] == files[..i + 1];
      PendingNext(front, recorded, i);
    }
  }

  lemma NoneApplied<S>(exec: (string, S) -> Option<S>, body: string -> seq<string>, files: seq<string>, start: Database<S>)
    ensures Advanced(exec, body, files, start, start, 0)
    ensures Pending(files[..0], start.recorded) == []
  {
    assert Pending(files, start.recorded)[..0] == [];
    assert files[..0] == [];
    assert start.recorded + [] == start.recorded;
  }

  lemma OneMoreApplied<S>(exec: (string, S) -> Option<S>, body: string -> seq<string>, files: seq<string>,
                          start: Database<S>, before: Database<S>, after: Database<S>, count: nat)
    requires Advanced(exec, body, files, start, before, count)
    requires count < |Pending(files, start.recorded)|
    requires after.recorded == before.recorded + [Pending(files, start.recorded)[count]]
    requires RunStatements(exec, body(Pending(files, start.recorded)[count]), before.schema) == Some(after.schema)
    ensures Advanced(exec, body, files, start, after, count + 1)
  {
    var pending := Pending(files, start.recorded);
    Collections.TakeNext(pending, count);
    Collections.Assoc(start.recorded, pending[..count], [pending[count]]);
    RunFilesSnoc(exec, body, pending[..count], pending[count], start.schema);
  }

  // ---------------------------------------------------------------- the runner

  class SchemaStore<S> {
    var schema: S
    var recorded: seq<string>

    constructor (schema: S)
      ensures View() == Database(schema, [])
    {
      this.schema, this.recorded := schema, [];
    }

    ghost function View(): Database<S>
      reads this
    {
      Database(schema, recorded)
    }

    /** One file's transaction up to its COMMIT, on the side: nothing committed changes here. */
    method RunTransaction(exec: (string, S) -> Option<S>, statements: seq<string>, trips: Option<int>)
      returns (result: TxResult<S>, left: Option<int>)
      ensures result.TxReady? ==> RunStatements(exec, statements, schema) == Some(result.working)
      ensures result.TxRejected? ==> RunStatements(exec, statements, schema) == None
      ensures result.TxCrashed? ==> trips.Some?
      ensures trips.None? ==> left.None?
    {
      var working := schema;
      left := trips;
      for k := 0 to |statements|
        invariant RunStatements(exec, statements[..k], schema) == Some(working)
        invariant trips.None? ==> left.None?
      {
        if left.Some? && left.value <= 0 {
          return TxCrashed, left;
        }
        left := if left.Some? then Some(left.value - 1) else None;
        assert statements[..k + 1][..k] == statements[..k];
        match exec(statements[k], working) {
          case None =>
            RejectionLasts(exec, statements, schema, k + 1);
            return TxRejected, left;
          case Some(next) => working := next;
        }
      }
      assert statements[..|statements|] == statements;
      if left.Some? && left.value <= 0 {
        return TxCrashed, left;
      }
      left := if left.Some? then Some(left.value - 1) else None;
      result := TxReady(working);
    }

    /** One pending file: its statements and its tracking row become visible together, or not at all. */
    method ApplyFile(exec: (string, S) -> Option<S>, body: string -> seq<string>, file: string, trips: Option<int>)
      returns (result: TxResult<S>, left: Option<int>)
      modifies this
      ensures result.TxReady? ==>
                RunStatements(exec, body(file), old(schema)) == Some(schema) && recorded == old(recorded) + [file]
      ensures !result.TxReady? ==> View() == old(View())
      ensures result.TxRejected? ==> RunStatements(exec, body(file), schema) == None
      ensures result.TxCrashed? ==> trips.Some?
      ensures trips.None? ==> left.None?
    {
      result, left := RunTransaction(exec, body(file), trips);
      if result.TxReady? {
        schema, recorded := result.working, recorded + [file];
      }
    }

    /**
      `runDrizzleMigrations`.  The process may die after any number of round trips (`trips`, or
      `None` to live on); whatever a transaction had done before its COMMIT is then lost.
     */
    method RunMigrations(exec: (string, S) -> Option<S>, body: string -> seq<string>, files: seq<string>, trips: Option<int>)
      returns (outcome: Outcome, appliedCount: nat)
      modifies this
      ensures Advanced(exec, body, files, old(View()), View(), appliedCount)
      ensures outcome == Complete ==> appliedCount == |Pending(files, old(recorded))|
      ensures outcome == Crashed ==> trips.Some?
      ensures outcome.Failed? ==>
                appliedCount < |Pending(files, old(recorded))| &&
                outcome.file == Pending(files, old(recorded))[appliedCount] &&
                RunStatements(exec, body(outcome.file), schema).None?
    {
      ghost var start := View();
      var applied := recorded;
      appliedCount := 0;
      NoneApplied(exec, body, files, start);
      // The tracking table is created and read first.
      if trips.Some? && trips.value < 2 {
        return Crashed, 0;
      }
      var left := if trips.Some? then Some(trips.value - 2) else None;
      for i := 0 to |files|
        invariant appliedCount == |Pending(files[..i], applied)|
        invariant Advanced(exec, body, files, start, View(), appliedCount)
        invariant trips.None? ==> left.None?
      {
        PendingNext(files, applied, i);
        if files[i] in applied {
          continue;
        }
        ghost var before := View();
        var result;
        result, left := ApplyFile(exec, body, files[i], left);
        match result {
          case TxCrashed => return Crashed, appliedCount;
          case TxRejected => return Failed(files[i]), appliedCount;
          case TxReady(_) =>
            OneMoreApplied(exec, body, files, start, before, View(), appliedCount);
            appliedCount := appliedCount + 1;
        }
      }
      assert files[..|files|] == files;
      outcome := Complete;
    }
  }

  // ---------------------------------------------------------------- crash-safe replay

  /** The database holds exactly the first `k` files of the list: recorded, in order, and applied once each. */
  ghost predicate AtPrefix<S>(
    exec: (string, S) -> Option<S>, body: string -> seq<string>, files: seq<string>, origin: S, db: Database<S>, k: nat)
  {
    && k <= |files|
    && db.recorded == files[..k]
    && RunFiles(exec, body, files[..k], origin) == Some(db.schema)
  }

  lemma PendingSnoc(files: seq<string>, n: nat, recorded: seq<string>)
    requires n < |files|
    ensures Pending(files[..n + 1], recorded) == Pending(files[..n], recorded) + if files[n] in recorded then [] else [files[n]]
  {
    assert files[..n + 1][..n] == files[..n];
  }

  lemma {:induction false} PendingOfPrefix(files: seq<string>, k: nat, n: nat)
    requires n <= k <= |files|
    ensures Pending(files[..n], files[..k]) == []
    decreases n
  {
    if n > 0 {
      PendingOfPrefix(files, k, n - 1);
      PendingSnoc(files, n - 1, files[..k]);
      assert files[..k][n - 1] == files[n - 1];
    }
  }

  lemma NotAmongEarlier(files: seq<string>, k: nat, i: nat)
    requires Distinct(files) && k <= i < |files|
    ensures files[i] !in files[..k]
  {
  }

  lemma {:induction false} PendingOfSuffix(files: seq<string>, k: nat, n: nat)
    requires Distinct(files) && k <= n <= |files|
    ensures Pending(files[..n], files[..k]) == files[k..n]
    decreases n
  {
    if n == k {
      PendingOfPrefix(files, k, k);
    } else {
      PendingOfSuffix(files, k, n - 1);
      PendingSnoc(files, n - 1, files[..k]);
      NotAmongEarlier(files, k, n - 1);
      assert files[k..n] == files[k..n - 1] + [files[n - 1]];
    }
  }

  lemma PendingAfterPrefix(files: seq<string>, k: nat)
    requires Distinct(files) && k <= |files|
    ensures Pending(files, files[..k]) == files[k..]
  {
    PendingOfSuffix(files, k, |files|);
    assert files[..|files|] == files;
    assert files[k..|files|] == files[k..];
  }

  lemma {:induction false} RunFilesAppend<S>(exec: (string, S) -> Option<S>, body: string -> seq<string>, a: seq<string>, b: seq<string>, schema: S)
    requires RunFiles(exec, body, a, schema).Some?
    ensures RunFiles(exec, body, a + b, schema) == RunFiles(exec, body, b, RunFiles(exec, body, a, schema).value)
    decreases |b|
  {
    if b == [] {
      assert a + b == a;
    } else {
      var front, last := b[..|b| - 1], b[|b| - 1];
      Collections.FrontLast(b);
      RunFilesAppend(exec, body, a, front, schema);
      Collections.Assoc(a, front, [last]);
      RunFilesSnoc(exec, body, a + front, last, schema);
    }
  }

  /** A run from a prefix, however it ends, leaves a prefix at least as long; a complete run leaves the whole list. */
  lemma RunMovesAlongPrefix<S>(
    exec: (string, S) -> Option<S>, body: string -> seq<string>, files: seq<string>, origin: S,
    before: Database<S>, after: Database<S>, k: nat, count: nat)
    requires Distinct(files)
    requires AtPrefix(exec, body, files, origin, before, k)
    requires Advanced(exec, body, files, before, after, count)
    ensures k + count <= |files| && AtPrefix(exec, body, files, origin, after, k + count)
    ensures |Pending(files, before.recorded)| == |files| - k
  {
    PendingAfterPrefix(files, k);
    assert files[k..][..count] == files[k..k + count];
    assert files[..k + count] == files[..k] + files[k..k + count];
    RunFilesAppend(exec, body, files[..k], files[k..k + count], origin);
  }

  /** The database after each of a series of runs, every one of which may have crashed anywhere. */
  ghost predicate RunSeries<S>(
    exec: (string, S) -> Option<S>, body: string -> seq<string>, files: seq<string>, states: seq<Database<S>>, counts: seq<nat>)
  {
    && |states| == |counts| + 1
    && forall i :: 0 <= i < |counts| ==> Advanced(exec, body, files, states[i], states[i + 1], counts[i])
  }

  /**
    From a new database, after any number of crashed or failed runs, the recorded files are a prefix
    of the list and the schema is that of applying exactly those files, once each, in order.
   */
  lemma {:induction false} CrashesKeepPrefix<S>(
    exec: (string, S) -> Option<S>, body: string -> seq<string>, files: seq<string>, origin: S,
    states: seq<Database<S>>, counts: seq<nat>, n: nat) returns (k: nat)
    requires Distinct(files) && RunSeries(exec, body, files, states, counts)
    requires states[0] == Database(origin, []) && n < |states|
    ensures AtPrefix(exec, body, files, origin, states[n], k)
    decreases n
  {
    if n == 0 {
      k := 0;
      assert files[..0] == [];
    } else {
      var before := CrashesKeepPrefix(exec, body, files, origin, states, counts, n - 1);
      RunMovesAlongPrefix(exec, body, files, origin, states[n - 1], states[n], before, counts[n - 1]);
      k := before + counts[n - 1];
    }
  }

  /**
    When a run finally completes, every file has been applied exactly once, in order, and the
    database equals the one a single uninterrupted run would have produced.
   */
  lemma CompleteRunHeals<S>(
    exec: (string, S) -> Option<S>, body: string -> seq<string>, files: seq<string>, origin: S,
    states: seq<Database<S>>, counts: seq<nat>)
    requires Distinct(files) && RunSeries(exec, body, files, states, counts)
    requires states[0] == Database(origin, []) && |counts| > 0
    requires counts[|counts| - 1] == |Pending(files, states[|counts| - 1].recorded)|
    ensures states[|counts|].recorded == files
    ensures RunFiles(exec, body, files, origin) == Some(states[|counts|].schema)
    ensures forall once :: Advanced(exec, body, files, Database(origin, []), once, |files|) ==> once == states[|counts|]
  {
    var n := |counts|;
    var k := CrashesKeepPrefix(exec, body, files, origin, states, counts, n - 1);
    RunMovesAlongPrefix(exec, body, files, origin, states[n - 1], states[n], k, counts[n - 1]);
    assert files[..|files|] == files;
    forall once | Advanced(exec, body, files, Database(origin, []), once, |files|)
      ensures once == states[n]
    {
      assert files[..0] == [];
      RunMovesAlongPrefix(exec, body, files, origin, Database(origin, []), once, 0, |files|);
    }
  }

  // ---------------------------------------------------------------- new releases

  lemma {:induction false} PendingMeans(files: seq<string>, recorded: seq<string>)
    ensures forall f :: f in Pending(files, recorded) <==> f in files && f !in recorded
    ensures Distinct(files) ==> Distinct(Pending(files, recorded))
  {
    if files != [] {
      Collections.FrontLast(files);
      PendingMeans(files[..|files| - 1], recorded);
    }
  }

  /** The recorded files are distinct, and the schema is that of applying them, once each, as recorded. */
  ghost predicate AppliedOnce<S>(exec: (string, S) -> Option<S>, body: string -> seq<string>, origin: S, db: Database<S>)
  {
    Distinct(db.recorded) && RunFiles(exec, body, db.recorded, origin) == Some(db.schema)
  }

  lemma RunKeepsOnce<S>(
    exec: (string, S) -> Option<S>, body: string -> seq<string>, files: seq<string>, origin: S,
    before: Database<S>, after: Database<S>, count: nat)
    requires Distinct(files) && AppliedOnce(exec, body, origin, before)
    requires Advanced(exec, body, files, before, after, count)
    ensures AppliedOnce(exec, body, origin, after)
  {
    var added := Pending(files, before.recorded)[..count];
    PendingMeans(files, before.recorded);
    forall i, j | 0 <= i < |before.recorded| && 0 <= j < |added| ensures before.recorded[i] != added[j] {
      assert added[j] in Pending(files, before.recorded);
    }
    RunFilesAppend(exec, body, before.recorded, added, origin);
  }

  /** Run `i` starts with the files of `lists[i]`; later releases only add files, anywhere in the order. */
  ghost predicate Releases<S>(
    exec: (string, S) -> Option<S>, body: string -> seq<string>, lists: seq<seq<string>>, states: seq<Database<S>>, counts: seq<nat>)
  {
    && |states| == |counts| + 1 == |lists| + 1
    && (forall i :: 0 <= i < |lists| ==> Distinct(lists[i]))
    && (forall i, j, f :: 0 <= i <= j < |lists| && f in lists[i] ==> f in lists[j])
    && (forall i :: 0 <= i < |lists| ==> Advanced(exec, body, lists[i], states[i], states[i + 1], counts[i]))
  }

  /** Over any releases and any crashes, no file is applied twice, and none that no release so far has. */
  lemma {:induction false} ReleasesApplyOnce<S>(
    exec: (string, S) -> Option<S>, body: string -> seq<string>, lists: seq<seq<string>>, origin: S,
    states: seq<Database<S>>, counts: seq<nat>, n: nat)
    requires Releases(exec, body, lists, states, counts)
    requires states[0] == Database(origin, []) && n <= |lists|
    ensures AppliedOnce(exec, body, origin, states[n])
    ensures forall f :: f in states[n].recorded ==> n > 0 && f in lists[n - 1]
    decreases n
  {
    if n > 0 {
      ReleasesApplyOnce(exec, body, lists, origin, states, counts, n - 1);
      RunKeepsOnce(exec, body, lists[n - 1], origin, states[n - 1], states[n], counts[n - 1]);
      PendingMeans(lists[n - 1], states[n - 1].recorded);
      forall f | f in states[n].recorded ensures f in lists[n - 1] {
        assert f in states[n - 1].recorded || f in Pending(lists[n - 1], states[n - 1].recorded);
      }
    }
  }

  /** When the last run completes, exactly its release's files have been applied, each once. */
  lemma CompleteReleaseCovers<S>(
    exec: (string, S) -> Option<S>, body: string -> seq<string>, lists: seq<seq<string>>, origin: S,
    states: seq<Database<S>>, counts: seq<nat>)
    requires Releases(exec, body, lists, states, counts)
    requires states[0] == Database(origin, []) && |lists| > 0
    requires counts[|lists| - 1] == |Pending(lists[|lists| - 1], states[|lists| - 1].recorded)|
    ensures AppliedOnce(exec, body, origin, states[|lists|])
    ensures forall f :: f in states[|lists|].recorded <==> f in lists[|lists| - 1]
  {
    var n := |lists|;
    ReleasesApplyOnce(exec, body, lists, origin, states, counts, n);
    PendingMeans(lists[n - 1], states[n - 1].recorded);
    var pending := Pending(lists[n - 1], states[n - 1].recorded);
    assert pending[..|pending|] == pending;
    forall f | f in lists[n - 1] ensures f in states[n].recorded {
      assert f in states[n - 1].recorded || f in pending;
    }
  }

  /** A completing run records the files in list order if and only if what was recorded before is a prefix of the list. */
  lemma ListOrderIff(files: seq<string>, recorded: seq<string>)
    requires Distinct(files)
    ensures recorded + Pending(files, recorded) == files <==> recorded <= files
  {
    if recorded <= files {
      PendingAfterPrefix(files, |recorded|);
      assert files[..|recorded|] == recorded;
    }
    if recorded + Pending(files, recorded) == files {
      assert recorded == files[..|recorded|];
    }
  }

  // ---------------------------------------------------------------- databases without a tracking table

  /** Re-running any of the first `m` files on the schema they produced changes nothing. */
  ghost predicate ReplayIsIdle<S>(exec: (string, S) -> Option<S>, body: string -> seq<string>, files: seq<string>, m: nat, schema: S)
    requires m <= |files|
  {
    forall i :: 0 <= i < m ==> RunStatements(exec, body(files[i]), schema) == Some(schema)
  }

  lemma {:induction false} IdleReplay<S>(exec: (string, S) -> Option<S>, body: string -> seq<string>, files: seq<string>, m: nat, schema: S, i: nat)
    requires m <= |files| && i <= m && ReplayIsIdle(exec, body, files, m, schema)
    ensures RunFiles(exec, body, files[..i], schema) == Some(schema)
    decreases i
  {
    if i > 0 {
      IdleReplay(exec, body, files, m, schema, i - 1);
      assert files[..i][..i - 1] == files[..i - 1];
    }
  }

  /**
    A database provisioned with the first `m` files but no tracking table is brought to the full
    schema by replaying the whole list, if those files are idempotent on it.
   */
  lemma LegacyReplayHeals<S>(exec: (string, S) -> Option<S>, body: string -> seq<string>, files: seq<string>, origin: S, m: nat, legacy: S)
    requires m <= |files| && RunFiles(exec, body, files[..m], origin) == Some(legacy)
    requires ReplayIsIdle(exec, body, files, m, legacy)
    ensures RunFiles(exec, body, files, legacy) == RunFiles(exec, body, files, origin)
  {
    IdleReplay(exec, body, files, m, legacy, m);
    assert files == files[..m] + files[m..];
    RunFilesAppend(exec, body, files[..m], files[m..], legacy);
    RunFilesAppend(exec, body, files[..m], files[m..], origin);
  }
}
