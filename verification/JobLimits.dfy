/** Where the queue's promises end: runs that lose count, and a row that is stranded for good. */
module JobLimits {
  import opened Wrappers
  import opened JobBatch
  import opened JobInvariants
  import opened JobRuns
  import Collections
  import JobCreate
  import JobGraph

  lemma ExecSnoc(b: Batch, steps: seq<Step>, step: Step)
    ensures Exec(b, steps + [step]) == Apply(Exec(b, steps), step)
  {
    assert (steps + [step])[..|steps|] == steps;
  }

  /** A new batch of one row. */
  function OneRow(): Batch
  {
    Batch(Pending, 1, 0, 0, 0, map[0 := Item(None, Queued, 0, None, None)])
  }

  /** The only row, with this status, attempts and claimer. */
  predicate IsRow(b: Batch, status: ItemStatus, attempts: int, claimedBy: Option<string>)
  {
    b.items.Keys == {0} && b.items[0].after == None && b.items[0].status == status && b.items[0].attempts == attempts &&
    b.items[0].claimedBy == claimedBy
  }

  lemma OneRowStarts()
    ensures JobCreate.IsCreated(OneRow()) && JobGraph.WellFormed(Parents(OneRow().items))
    ensures IsRow(OneRow(), Queued, 0, None)
  {
    assert OneRow().items.Keys == {0};
  }

  lemma ClaimTakesRow(b: Batch, attempts: int, worker: Option<string>)
    requires IsRow(b, Queued, attempts, None) && attempts < MAX_ATTEMPTS && (b.status == Pending || b.status == Active)
    ensures IsRow(Apply(b, Claim(0, 10, worker, {})), Running, attempts + 1, worker)
    ensures Apply(b, Claim(0, 10, worker, {})).status == Active
    ensures Apply(b, Claim(0, 10, worker, {})).items[0].expires == if worker.None? then None else Some(LEASE)
    ensures Apply(b, Claim(0, 10, worker, {})).failedCount == b.failedCount
  {
    var earlier := set t | t in Ready(b, {}) && t < 0;
    forall t: int ensures t !in earlier {}
    Collections.NoMembers(earlier);
    assert 0 in Picked(b, 10, {});
  }

  // ---------------------------------------------------------------- stranded rows

  /** Queued with its attempts used up, waiting for nothing. */
  ghost predicate Stranded(b: Batch, s: int)
  {
    s in b.items && b.items[s].status == Queued && b.items[s].attempts == MAX_ATTEMPTS && ParentDone(b.items, b.items[s].after)
  }

  /** `n` claims by a worker, each followed by its release. */
  ghost predicate IsRounds(steps: seq<Step>, n: nat)
  {
    |steps| == 2 * n && forall i :: 0 <= i < |steps| ==> steps[i] == if i % 2 == 0 then Claim(0, 10, Some("w"), {}) else Release(Some("w"), {0})
  }

  lemma ReleaseReturnsRow(b: Batch, attempts: int)
    requires IsRow(b, Running, attempts, Some("w"))
    ensures IsRow(Apply(b, Release(Some("w"), {0})), Queued, attempts, None)
    ensures Apply(b, Release(Some("w"), {0})).status == b.status
  {
  }

  ghost predicate BetweenRounds(b: Batch, n: int)
  {
    IsRow(b, Queued, n, None) && (b.status == Pending || b.status == Active)
  }

  lemma OneRound(b: Batch, attempts: int)
    requires BetweenRounds(b, attempts) && attempts < MAX_ATTEMPTS
    ensures BetweenRounds(Apply(Apply(b, Claim(0, 10, Some("w"), {})), Release(Some("w"), {0})), attempts + 1)
  {
    ClaimTakesRow(b, attempts, Some("w"));
    ReleaseReturnsRow(Apply(b, Claim(0, 10, Some("w"), {})), attempts + 1);
  }

  lemma IsRoundsNext(before: seq<Step>, n: nat, steps: seq<Step>)
    requires n > 0 && IsRounds(before, n - 1) && steps == before + [Claim(0, 10, Some("w"), {})] + [Release(Some("w"), {0})]
    ensures IsRounds(steps, n)
  {
  }

  lemma RoundRun(b: Batch, before: seq<Step>, n: nat) returns (steps: seq<Step>)
    requires n > 0 && IsRounds(before, n - 1)
    ensures IsRounds(steps, n)
    ensures Exec(b, steps) == Apply(Apply(Exec(b, before), Claim(0, 10, Some("w"), {})), Release(Some("w"), {0}))
  {
    var claimed := before + [Claim(0, 10, Some("w"), {})];
    steps := claimed + [Release(Some("w"), {0})];
    IsRoundsNext(before, n, steps);
    ExecSnoc(b, before, Claim(0, 10, Some("w"), {}));
    ExecSnoc(b, claimed, Release(Some("w"), {0}));
  }

  lemma NextRound(b: Batch, before: seq<Step>, n: nat) returns (steps: seq<Step>)
    requires 0 < n <= MAX_ATTEMPTS && IsRounds(before, n - 1) && BetweenRounds(Exec(b, before), n - 1)
    ensures IsRounds(steps, n) && BetweenRounds(Exec(b, steps), n)
  {
    OneRound(Exec(b, before), n - 1);
    steps := RoundRun(b, before, n);
  }

  lemma {:induction false} RoundsUseUpAttempts(b: Batch, n: nat) returns (steps: seq<Step>)
    requires BetweenRounds(b, 0) && n <= MAX_ATTEMPTS
    ensures IsRounds(steps, n) && BetweenRounds(Exec(b, steps), n)
  {
    if n == 0 {
      steps := [];
    } else {
      var before := RoundsUseUpAttempts(b, n - 1);
      steps := NextRound(b, before, n);
    }
  }

  /** Four claims, each released, strand a row: this is reachable from a new batch. */
  lemma FourReleasesStrand() returns (steps: seq<Step>)
    ensures IsRounds(steps, 4) && JobCreate.IsCreated(OneRow()) && Stranded(Exec(OneRow(), steps), 0)
  {
    OneRowStarts();
    steps := RoundsUseUpAttempts(OneRow(), 4);
  }

  /** Above a done row there are only done rows. */
  lemma {:induction false} AboveDone(items: Items, a: int, s: int, k: nat)
    requires DepsDone(items) && s in items && ParentDone(items, items[s].after)
    requires JobGraph.Above(Parents(items), a, s, k)
    ensures a in items && items[a].status == Done
    decreases k
  {
    if k > 0 {
      AboveDone(items, a, items[s].after.value, k - 1);
    }
  }

  lemma NeverCutOff(items: Items, roots: set<int>, s: int)
    requires DepsDone(items) && s in items && ParentDone(items, items[s].after)
    requires roots <= WithStatus(items, Running)
    ensures s !in CutOff(items, roots)
  {
    CutOffMeaning(items, roots, s);
    forall a | a in roots ensures !JobGraph.ProperAncestor(Parents(items), a, s) {
      if JobGraph.ProperAncestor(Parents(items), a, s) {
        var k: nat :| JobGraph.Above(Parents(items), a, s, k);
        AboveDone(items, a, s, k);
      }
    }
  }

  lemma StrandedStep(b: Batch, step: Step, s: int)
    requires Inv(b) && Stranded(b, s) && step != SetStatus(ToCancelled)
    ensures Stranded(Apply(b, step), s) && Apply(b, step).items[s] == b.items[s]
  {
    RowMoves(b, step, s);
    if step.ItemFail? && IsRunning(b, step.row) {
      NeverCutOff(b.items, {step.row}, s);
    }
    if step.Recover? {
      NeverCutOff(b.items, Stale(b.items, step.now), s);
    }
    if b.items[s].after.Some? {
      var p: int := b.items[s].after.value;
      StepKeepsDone(b, step, p);
    }
  }

  /** A stranded row stays so in every run without a cancellation, and its batch never gets a verdict. */
  lemma {:induction false} StrandedForever(b: Batch, steps: seq<Step>, s: int)
    requires Inv(b) && Stranded(b, s) && NeverCancels(steps)
    ensures Stranded(Exec(b, steps), s) && Exec(b, steps).items[s] == b.items[s]
    ensures Exec(b, steps).status != Finished && Exec(b, steps).status != Partial
  {
    RunKeepsInv(b, steps);
    if steps != [] {
      StrandedForever(b, steps[..|steps| - 1], s);
      RunKeepsInv(b, steps[..|steps| - 1]);
      StrandedStep(Exec(b, steps[..|steps| - 1]), steps[|steps| - 1], s);
    }
  }

  // ---------------------------------------------------------------- lost counts

  /** A claim without a worker id, and then a cancellation. */
  function Abandoned(): seq<Step>
  {
    [Claim(0, 10, None, {})] + [SetStatus(ToCancelled)]
  }

  lemma CancelKeepsRow(b: Batch)
    requires IsRow(b, Running, 1, None) && b.status == Active
    ensures var c := Apply(b, SetStatus(ToCancelled));
            c.status == Cancelled && IsRow(c, Running, 1, None) && c.items[0].expires == b.items[0].expires && c.failedCount == b.failedCount
  {
  }

  lemma AbandonedRow()
    ensures JobCreate.IsCreated(OneRow())
    ensures var c := Exec(OneRow(), Abandoned());
            c.status == Cancelled && IsRow(c, Running, 1, None) && c.items[0].expires == None && c.failedCount == 0
  {
    OneRowStarts();
    ClaimTakesRow(OneRow(), 0, None);
    ExecSnoc(OneRow(), [], Claim(0, 10, None, {}));
    assert [] + [Claim(0, 10, None, {})] == [Claim(0, 10, None, {})];
    ExecSnoc(OneRow(), [Claim(0, 10, None, {})], SetStatus(ToCancelled));
    CancelKeepsRow(Exec(OneRow(), [Claim(0, 10, None, {})]));
  }

  lemma LastStepLoses(b: Batch, steps: seq<Step>, step: Step)
    requires LosesCount(Exec(b, steps), step)
    ensures !KeepsCount(b, steps + [step])
  {
    assert (steps + [step])[..|steps|] == steps;
    assert (steps + [step])[|steps|] == step;
  }

  lemma RecoverFailsRow(b: Batch)
    requires b.status == Cancelled && IsRow(b, Running, 1, None) && b.items[0].expires == None
    ensures LosesCount(b, Recover(1))
    ensures IsRow(Apply(b, Recover(1)), Failed, 1, None) && Apply(b, Recover(1)).failedCount == b.failedCount
  {
    assert 0 in Stale(b.items, 1);
  }

  lemma FailFailsRow(b: Batch)
    requires b.status == Cancelled && IsRow(b, Running, 1, None)
    ensures var c := Apply(b, ItemFail(0, false));
            IsRow(c, Failed, 1, None) && c.status == Cancelled && c.failedCount == b.failedCount + 1
  {
  }

  lemma RetryRequeuesRow(b: Batch)
    requires b.status == Cancelled && IsRow(b, Failed, 1, None)
    ensures LosesCount(b, RetryFailed)
    ensures IsRow(Apply(b, RetryFailed), Queued, 0, None) && Apply(b, RetryFailed).failedCount == b.failedCount
  {
    assert 0 in WithStatus(b.items, Failed);
    RetryRows(b.items);
  }

  /** Claim without a worker id, cancel, recover: the row is failed and not counted. */
  lemma RecoveryLosesCount() returns (b: Batch, steps: seq<Step>)
    ensures JobCreate.IsCreated(b) && !KeepsCount(b, steps)
    ensures IsRow(Exec(b, steps), Failed, 1, None) && Exec(b, steps).failedCount == 0
  {
    var before := Abandoned();
    b, steps := OneRow(), before + [Recover(1)];
    AbandonedRow();
    RecoverFailsRow(Exec(b, before));
    ExecSnoc(b, before, Recover(1));
    LastStepLoses(b, before, Recover(1));
  }

  /** Claim, cancel, fail, retry: the row is queued again and still counted as failed. */
  lemma RetryLosesCount() returns (b: Batch, steps: seq<Step>)
    ensures JobCreate.IsCreated(b) && !KeepsCount(b, steps)
    ensures IsRow(Exec(b, steps), Queued, 0, None) && Exec(b, steps).failedCount == 1
  {
    var before := Abandoned();
    var failed := before + [ItemFail(0, false)];
    b, steps := OneRow(), failed + [RetryFailed];
    AbandonedRow();
    FailFailsRow(Exec(b, before));
    ExecSnoc(b, before, ItemFail(0, false));
    RetryRequeuesRow(Exec(b, failed));
    ExecSnoc(b, failed, RetryFailed);
    LastStepLoses(b, failed, RetryFailed);
  }

  // ---------------------------------------------------------------- a retry that comes apart

  /** A handler as one step, or one of the two statements of a retryable failure report. */
  datatype Move = Whole(step: Step) | Check(row: int) | Requeue(row: int)

  function Play(b: Batch, move: Move): Batch
  {
    match move
    case Whole(step) => Apply(b, step)
    case Check(_) => b
    case Requeue(s) => LateRequeue(b, s)
  }

  function PlayAll(b: Batch, moves: seq<Move>): Batch
  {
    if moves == [] then b else Play(PlayAll(b, moves[..|moves| - 1]), moves[|moves| - 1])
  }

  lemma PlayNext(b: Batch, moves: seq<Move>, k: nat)
    requires k < |moves|
    ensures PlayAll(b, moves[..k + 1]) == Play(PlayAll(b, moves[..k]), moves[k])
  {
    assert moves[..k + 1][..k] == moves[..k];
  }

  /** The check at `i` let the requeueing at `k` through. */
  ghost predicate Passed(b: Batch, moves: seq<Move>, i: int, k: int)
    requires 0 <= k < |moves| && moves[k].Requeue?
  {
    0 <= i < k && moves[i] == Check(moves[k].row) && Requeues(PlayAll(b, moves[..i]), moves[k].row, true)
  }

  /** Every requeueing follows a check of its row that it passed. */
  ghost predicate Checked(b: Batch, moves: seq<Move>)
  {
    forall k :: 0 <= k < |moves| && moves[k].Requeue? ==> exists i :: Passed(b, moves, i, k)
  }

  /** A row done at some point of the run is the same, done, from there on. */
  ghost predicate DoneStays(b: Batch, moves: seq<Move>)
  {
    forall i: nat, j: nat, s, row :: i <= j <= |moves| && DoneIn(PlayAll(b, moves[..i]), s, row) ==> DoneIn(PlayAll(b, moves[..j]), s, row)
  }

  /** The requeueing at `k`, if there is one, does not come upon a done row. */
  ghost predicate SparesDone(b: Batch, moves: seq<Move>, k: int)
    requires 0 <= k < |moves|
  {
    moves[k].Requeue? ==> forall row :: !DoneIn(PlayAll(b, moves[..k]), moves[k].row, row)
  }

  lemma MoveKeepsDone(b: Batch, move: Move, s: int, row: Item)
    requires DoneIn(b, s, row) && move != Requeue(s)
    ensures DoneIn(Play(b, move), s, row)
  {
    if move.Whole? {
      StepKeepsDone(b, move.step, s);
    }
  }

  ghost predicate AllSpared(b: Batch, moves: seq<Move>)
  {
    forall k :: 0 <= k < |moves| ==> SparesDone(b, moves, k)
  }

  lemma SparedNext(b: Batch, moves: seq<Move>, k: nat, s: int, row: Item)
    requires k < |moves| && AllSpared(b, moves) && DoneIn(PlayAll(b, moves[..k]), s, row)
    ensures DoneIn(PlayAll(b, moves[..k + 1]), s, row)
  {
    assert SparesDone(b, moves, k);
    PlayNext(b, moves, k);
    MoveKeepsDone(PlayAll(b, moves[..k]), moves[k], s, row);
  }

  lemma {:induction false} SparedStays(b: Batch, moves: seq<Move>, i: nat, j: nat, s: int, row: Item)
    requires i <= j <= |moves| && AllSpared(b, moves)
    requires DoneIn(PlayAll(b, moves[..i]), s, row)
    ensures DoneIn(PlayAll(b, moves[..j]), s, row)
    decreases j
  {
    if i < j {
      SparedStays(b, moves, i, j - 1, s, row);
      SparedNext(b, moves, j - 1, s, row);
    }
  }

  lemma RequeuedIsNotDone(b: Batch, s: int, row: Item)
    ensures !DoneIn(LateRequeue(b, s), s, row)
  {
  }

  lemma StaysIsSpared(b: Batch, moves: seq<Move>, k: nat)
    requires k < |moves| && DoneStays(b, moves)
    ensures SparesDone(b, moves, k)
  {
    if moves[k].Requeue? {
      var s, before, after := moves[k].row, PlayAll(b, moves[..k]), PlayAll(b, moves[..k + 1]);
      PlayNext(b, moves, k);
      forall row ensures DoneIn(before, s, row) ==> DoneIn(after, s, row) {}
      forall row ensures !DoneIn(after, s, row) {
        RequeuedIsNotDone(before, s, row);
      }
    }
  }

  /** With the retry of a failure report in two statements, done is for good if and only if no second one comes upon a done row. */
  lemma DoneStaysIff(b: Batch, moves: seq<Move>)
    ensures DoneStays(b, moves) <==> AllSpared(b, moves)
  {
    if AllSpared(b, moves) {
      forall i: nat, j: nat, s, row | i <= j <= |moves| && DoneIn(PlayAll(b, moves[..i]), s, row)
        ensures DoneIn(PlayAll(b, moves[..j]), s, row)
      {
        SparedStays(b, moves, i, j, s, row);
      }
    } else {
      var k: int :| 0 <= k < |moves| && !SparesDone(b, moves, k);
      if DoneStays(b, moves) {
        StaysIsSpared(b, moves, k);
      }
    }
  }

  /** A claim of the one row, a failure report's check, a completion with its verdict, and the report's requeueing. */
  ghost predicate IsLateReport(moves: seq<Move>)
  {
    && |moves| == 5
    && moves[0] == Whole(Claim(0, 10, Some("w"), {}))
    && moves[1] == Check(0)
    && moves[2] == Whole(ItemDone(0))
    && moves[3] == Whole(Finalize)
    && moves[4] == Requeue(0)
  }

  ghost predicate NothingLost(b: Batch)
  {
    b.status == Active && b.failedCount == 0 && b.skippedCount == 0
  }

  lemma AfterClaim(b: Batch, moves: seq<Move>)
    requires b == OneRow() && IsLateReport(moves)
    ensures IsRow(PlayAll(b, moves[..1]), Running, 1, Some("w")) && NothingLost(PlayAll(b, moves[..1]))
  {
    assert PlayAll(b, moves[..0]) == b;
    PlayNext(b, moves, 0);
    OneRowStarts();
    ClaimTakesRow(b, 0, Some("w"));
  }

  lemma DoneRow(b: Batch)
    requires IsRow(b, Running, 1, Some("w")) && NothingLost(b)
    ensures IsRow(DoneStep(b, 0), Done, 1, Some("w")) && NothingLost(DoneStep(b, 0))
  {
  }

  lemma FinishedRow(b: Batch)
    requires IsRow(b, Done, 1, Some("w")) && NothingLost(b)
    ensures IsRow(FinalizeStep(b), Done, 1, Some("w")) && FinalizeStep(b).status == Finished
  {
  }

  lemma RequeuedRow(b: Batch)
    requires IsRow(b, Done, 1, Some("w"))
    ensures IsRow(LateRequeue(b, 0), Queued, 1, Some("w")) && LateRequeue(b, 0).status == b.status
    ensures DoneIn(b, 0, b.items[0])
  {
  }

  lemma AfterDone(b: Batch, moves: seq<Move>)
    requires b == OneRow() && IsLateReport(moves)
    ensures IsRow(PlayAll(b, moves[..3]), Done, 1, Some("w")) && NothingLost(PlayAll(b, moves[..3]))
  {
    AfterClaim(b, moves);
    PlayNext(b, moves, 1);
    PlayNext(b, moves, 2);
    DoneRow(PlayAll(b, moves[..2]));
  }

  lemma AfterVerdict(b: Batch, moves: seq<Move>)
    requires b == OneRow() && IsLateReport(moves)
    ensures IsRow(PlayAll(b, moves[..4]), Done, 1, Some("w")) && PlayAll(b, moves[..4]).status == Finished
  {
    AfterDone(b, moves);
    PlayNext(b, moves, 3);
    FinishedRow(PlayAll(b, moves[..3]));
  }

  lemma LateReportIsChecked(b: Batch, moves: seq<Move>)
    requires b == OneRow() && IsLateReport(moves)
    ensures Checked(b, moves)
  {
    AfterClaim(b, moves);
    assert Requeues(PlayAll(b, moves[..1]), 0, true);
    assert Passed(b, moves, 1, 4);
  }

  /** A run that passes every check and yet ends with a done row queued again, in a batch whose header says done. */
  lemma LateReportUndoesDone(b: Batch, moves: seq<Move>)
    requires b == OneRow() && IsLateReport(moves)
    ensures JobCreate.IsCreated(b) && Checked(b, moves) && !DoneStays(b, moves)
    ensures IsRow(PlayAll(b, moves), Queued, 1, Some("w")) && PlayAll(b, moves).status == Finished
  {
    OneRowStarts();
    LateReportIsChecked(b, moves);
    AfterVerdict(b, moves);
    var done := PlayAll(b, moves[..4]);
    RequeuedRow(done);
    PlayNext(b, moves, 4);
    assert moves[..5] == moves;
    assert !SparesDone(b, moves, 4);
    DoneStaysIff(b, moves);
  }
}
