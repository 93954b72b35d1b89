/**
  What every step of the queue keeps.  `DepsDone`, `AttemptsBounded`, `CountersCover` and
  `TerminalSettled` hold in every run; `SkipLocal` in every run that never cancels.
 */
module JobInvariants {
  import opened Wrappers
  import opened JobBatch
  import JobGraph
  import Collections

  // ---------------------------------------------------------------- the invariants

  ghost predicate AttemptsBounded(items: Items)
  {
    forall s :: s in items ==>
      0 <= items[s].attempts <= MAX_ATTEMPTS && (items[s].status == Running ==> 1 <= items[s].attempts)
  }

  predicate Started(status: ItemStatus)
  {
    status == Running || status == Done || status == Failed
  }

  /** No row starts before the row it depends on is done. */
  ghost predicate DepsDone(items: Items)
  {
    forall s :: s in items && Started(items[s].status) ==> ParentDone(items, items[s].after)
  }

  predicate Blocked(items: Items, after: Option<int>)
  {
    after.Some? && after.value in items &&
    (items[after.value].status == Failed || items[after.value].status == Skipped)
  }

  /** A row is skipped exactly when its own parent is failed or skipped. */
  ghost predicate SkipLocal(items: Items)
  {
    forall s :: s in items ==> (items[s].status == Skipped <==> Blocked(items, items[s].after))
  }

  /** The header counters equal the numbers of rows they count. */
  ghost predicate Conserved(b: Batch)
  {
    && b.total == |b.items|
    && b.doneCount == |WithStatus(b.items, Done)|
    && b.failedCount == |WithStatus(b.items, Failed)|
    && b.skippedCount == |WithStatus(b.items, Skipped)|
  }

  /** What remains of conservation when retry and recovery are called at any time. */
  ghost predicate CountersCover(b: Batch)
  {
    && b.total == |b.items|
    && b.doneCount == |WithStatus(b.items, Done)|
    && b.failedCount >= 0
    && b.skippedCount >= 0
    && (b.status != Cancelled ==>
          && b.failedCount >= |WithStatus(b.items, Failed)|
          && b.skippedCount >= |WithStatus(b.items, Skipped)|)
  }

  ghost predicate TerminalSettled(b: Batch)
  {
    && (b.status == Finished || b.status == Partial ==> Settled(b.items))
    && (b.status == Finished ==> b.failedCount + b.skippedCount == 0)
    && (b.status == Pending ==> forall s :: s in b.items ==> b.items[s].status == Queued)
  }

  /** The invariant of every run, whatever the handlers called and in whatever order. */
  ghost predicate Inv(b: Batch)
  {
    AttemptsBounded(b.items) && DepsDone(b.items) && CountersCover(b) && TerminalSettled(b)
  }

  // ---------------------------------------------------------------- rows of a cascade

  lemma DoomedUnfold(items: Items, roots: set<int>)
    ensures forall s :: s in Doomed(items, roots) <==>
              s in items && items[s].after.Some? &&
              (items[s].after.value in roots || items[s].after.value in Doomed(items, roots))
  {
    var parents := Parents(items);
    JobGraph.RecursiveUnfold(parents, parents.Keys, JobGraph.Children(parents, parents.Keys, roots));
  }

  /** A failure of running rows dooms only queued rows. */
  lemma {:induction false} BelowRunningIsQueued(items: Items, a: int, s: int, k: nat)
    requires DepsDone(items) && SkipLocal(items)
    requires a in items && items[a].status == Running
    requires JobGraph.Above(Parents(items), a, s, k)
    ensures s in items && items[s].status == Queued
    decreases k
  {
    assert Parents(items)[s] == items[s].after;
    if k > 0 {
      BelowRunningIsQueued(items, a, items[s].after.value, k - 1);
    }
  }

  lemma DoomedAreQueued(items: Items, roots: set<int>)
    requires DepsDone(items) && SkipLocal(items)
    requires roots <= WithStatus(items, Running)
    ensures Doomed(items, roots) <= WithStatus(items, Queued)
    ensures CutOff(items, roots) == Doomed(items, roots)
  {
    forall s | s in Doomed(items, roots) ensures s in WithStatus(items, Queued) {
      JobGraph.DoomedAreDescendants(Parents(items), roots, s);
      var a :| a in roots && JobGraph.ProperAncestor(Parents(items), a, s);
      var k: nat :| JobGraph.Above(Parents(items), a, s, k);
      BelowRunningIsQueued(items, a, s, k);
    }
  }

  // ---------------------------------------------------------------- preservation: rows

  lemma CascadeKeepsRows(items: Items, roots: set<int>)
    requires roots <= WithStatus(items, Running)
    ensures AttemptsBounded(items) ==> AttemptsBounded(Cascade(items, roots))
    ensures DepsDone(items) ==> DepsDone(Cascade(items, roots))
  {
  }

  lemma CascadeKeepsSkips(items: Items, roots: set<int>)
    requires roots <= WithStatus(items, Running)
    requires DepsDone(items) && SkipLocal(items)
    ensures SkipLocal(Cascade(items, roots))
  {
    var after := Cascade(items, roots);
    DoomedUnfold(items, roots);
    DoomedAreQueued(items, roots);
    forall s | s in after
      ensures after[s].status == Skipped <==> Blocked(after, after[s].after)
    {
    }
  }

  lemma RevivedUnfold(items: Items)
    ensures forall s :: s in Revived(items) <==>
              s in Unblocked(items) ||
              (s in items && items[s].status == Skipped && items[s].after.Some? && items[s].after.value in Revived(items))
  {
    JobGraph.RecursiveUnfold(Parents(items), WithStatus(items, Skipped), Unblocked(items));
  }

  /** A retry requeues the failed rows and the rows it revives, which were all skipped; no other row changes. */
  lemma RetryRows(items: Items)
    ensures RetryRevives(items) <= WithStatus(items, Skipped)
    ensures RetryItems(items).Keys == items.Keys
    ensures forall s :: s in items ==>
              RetryItems(items)[s] ==
                if s in WithStatus(items, Failed) || s in RetryRevives(items) then Fresh(items[s]) else items[s]
  {
    var requeued := Update(items, WithStatus(items, Failed), Fresh);
    RevivedUnfold(requeued);
    forall s | s in RetryRevives(items) ensures s in WithStatus(items, Skipped) {
      assert s in Unblocked(requeued) || (s in requeued && requeued[s].status == Skipped);
    }
  }

  lemma RetryKeepsRows(items: Items)
    requires AttemptsBounded(items) && DepsDone(items)
    ensures AttemptsBounded(RetryItems(items)) && DepsDone(RetryItems(items))
  {
    RetryRows(items);
  }

  lemma ClaimKeepsRows(b: Batch, now: int, limit: int, worker: Option<string>, locked: set<int>)
    requires AttemptsBounded(b.items) && DepsDone(b.items)
    ensures AttemptsBounded(ClaimStep(b, now, limit, worker, locked).items)
    ensures DepsDone(ClaimStep(b, now, limit, worker, locked).items)
  {
    var c := ClaimStep(b, now, limit, worker, locked).items;
    forall s | s in c && Started(c[s].status) ensures ParentDone(c, c[s].after) {
      assert ParentDone(b.items, b.items[s].after);
      if b.items[s].after.Some? {
        assert c[b.items[s].after.value] == b.items[b.items[s].after.value];
      }
    }
  }

  lemma DoneKeepsRows(b: Batch, s: int)
    requires AttemptsBounded(b.items) && DepsDone(b.items)
    ensures AttemptsBounded(DoneStep(b, s).items) && DepsDone(DoneStep(b, s).items)
  {
  }

  lemma FailKeepsRows(b: Batch, s: int, retryable: bool)
    requires AttemptsBounded(b.items) && DepsDone(b.items)
    ensures AttemptsBounded(FailStep(b, s, retryable).items) && DepsDone(FailStep(b, s, retryable).items)
  {
    if IsRunning(b, s) && !Requeues(b, s, retryable) {
      CascadeKeepsRows(b.items, {s});
    }
  }

  lemma CancelKeepsRows(b: Batch, target: Target)
    requires AttemptsBounded(b.items) && DepsDone(b.items)
    ensures AttemptsBounded(SetStatusStep(b, target).items) && DepsDone(SetStatusStep(b, target).items)
  {
  }

  lemma ReleaseKeepsRows(b: Batch, worker: Option<string>, ids: set<int>)
    requires AttemptsBounded(b.items) && DepsDone(b.items)
    ensures AttemptsBounded(ReleaseStep(b, worker, ids).items) && DepsDone(ReleaseStep(b, worker, ids).items)
  {
  }

  /** Every step keeps the row invariants that no caller can break. */
  lemma StepKeepsRows(b: Batch, step: Step)
    requires AttemptsBounded(b.items) && DepsDone(b.items)
    ensures AttemptsBounded(Apply(b, step).items) && DepsDone(Apply(b, step).items)
  {
    match step
    case Claim(now, limit, worker, locked) => ClaimKeepsRows(b, now, limit, worker, locked);
    case ItemDone(s) => DoneKeepsRows(b, s);
    case ItemFail(s, retryable) => FailKeepsRows(b, s, retryable);
    case SetStatus(target) => CancelKeepsRows(b, target);
    case RetryFailed => RetryKeepsRows(b.items);
    case Recover(now) => CascadeKeepsRows(b.items, Stale(b.items, now));
    case Release(worker, ids) => ReleaseKeepsRows(b, worker, ids);
    case Finalize =>
  }

  // ---------------------------------------------------------------- preservation: skips

  /** After a retry on rows that satisfy `SkipLocal`, nothing is failed and nothing is skipped. */
  lemma {:induction false} RetryRevivesAll(items: Items, s: int)
    requires JobGraph.WellFormed(Parents(items)) && DepsDone(items) && SkipLocal(items)
    requires s in items && items[s].status == Skipped
    requires forall t :: t in items ==> 0 <= t
    ensures s in RetryRevives(items)
    decreases s
  {
    var requeued := Update(items, WithStatus(items, Failed), Fresh);
    RevivedUnfold(requeued);
    assert Parents(items)[s] == items[s].after;
    var p := items[s].after.value;
    if items[p].status == Skipped {
      RetryRevivesAll(items, p);
    } else {
      assert s in Unblocked(requeued);
    }
  }

  /** Rows that move among queued, running and done leave `SkipLocal` alone. */
  lemma OpenMovesKeepSkips(items: Items, after: Items)
    requires SkipLocal(items)
    requires after.Keys == items.Keys
    requires forall s :: s in items ==>
      && after[s].after == items[s].after
      && (items[s].status == Skipped <==> after[s].status == Skipped)
      && (items[s].status == Failed <==> after[s].status == Failed)
    ensures SkipLocal(after)
  {
    forall s | s in after ensures after[s].status == Skipped <==> Blocked(after, after[s].after) {
      assert items[s].status == Skipped <==> Blocked(items, items[s].after);
      if items[s].after.Some? && items[s].after.value in items {
        var p := items[s].after.value;
        assert items[p].status == Failed <==> after[p].status == Failed;
      }
    }
  }

  lemma RetryKeepsSkips(items: Items)
    requires JobGraph.WellFormed(Parents(items)) && DepsDone(items) && SkipLocal(items)
    requires forall s :: s in items ==> 0 <= s
    ensures SkipLocal(RetryItems(items))
    ensures forall s :: s in items ==> RetryItems(items)[s].status != Failed && RetryItems(items)[s].status != Skipped
  {
    RetryRows(items);
    forall s | s in items && items[s].status == Skipped ensures s in RetryRevives(items) {
      RetryRevivesAll(items, s);
    }
  }

  lemma ClaimKeepsSkips(b: Batch, now: int, limit: int, worker: Option<string>, locked: set<int>)
    requires SkipLocal(b.items)
    ensures SkipLocal(ClaimStep(b, now, limit, worker, locked).items)
  {
    OpenMovesKeepSkips(b.items, ClaimStep(b, now, limit, worker, locked).items);
  }

  lemma DoneKeepsSkips(b: Batch, s: int)
    requires SkipLocal(b.items)
    ensures SkipLocal(DoneStep(b, s).items)
  {
    OpenMovesKeepSkips(b.items, DoneStep(b, s).items);
  }

  lemma FailKeepsSkips(b: Batch, s: int, retryable: bool)
    requires DepsDone(b.items) && SkipLocal(b.items)
    ensures SkipLocal(FailStep(b, s, retryable).items)
  {
    if IsRunning(b, s) && !Requeues(b, s, retryable) {
      CascadeKeepsSkips(b.items, {s});
    } else {
      OpenMovesKeepSkips(b.items, FailStep(b, s, retryable).items);
    }
  }

  lemma ReleaseKeepsSkips(b: Batch, worker: Option<string>, ids: set<int>)
    requires SkipLocal(b.items)
    ensures SkipLocal(ReleaseStep(b, worker, ids).items)
  {
    OpenMovesKeepSkips(b.items, ReleaseStep(b, worker, ids).items);
  }

  lemma RetryStepKeepsSkips(b: Batch)
    requires JobGraph.WellFormed(Parents(b.items)) && DepsDone(b.items) && SkipLocal(b.items)
    requires forall s :: s in b.items ==> 0 <= s
    ensures SkipLocal(RetryFailedStep(b).items)
  {
    if WithStatus(b.items, Failed) != {} { RetryKeepsSkips(b.items); }
  }

  lemma RecoverKeepsSkips(b: Batch, now: int)
    requires DepsDone(b.items) && SkipLocal(b.items)
    ensures SkipLocal(RecoverStep(b, now).items)
  {
    CascadeKeepsSkips(b.items, Stale(b.items, now));
  }

  lemma HeaderStepsKeepItems(b: Batch, target: Target)
    ensures target != ToCancelled ==> SetStatusStep(b, target).items == b.items
    ensures FinalizeStep(b).items == b.items
  {
  }

  /** Steps that keep `SkipLocal`: every one except cancelling. */
  lemma StepKeepsSkips(b: Batch, step: Step)
    requires JobGraph.WellFormed(Parents(b.items)) && DepsDone(b.items) && SkipLocal(b.items)
    requires forall s :: s in b.items ==> 0 <= s
    requires step != SetStatus(ToCancelled)
    ensures SkipLocal(Apply(b, step).items)
  {
    match step
    case Claim(now, limit, worker, locked) => ClaimKeepsSkips(b, now, limit, worker, locked);
    case ItemDone(s) => DoneKeepsSkips(b, s);
    case ItemFail(s, retryable) => FailKeepsSkips(b, s, retryable);
    case SetStatus(target) => HeaderStepsKeepItems(b, target);
    case RetryFailed => RetryStepKeepsSkips(b);
    case Recover(now) => RecoverKeepsSkips(b, now);
    case Release(worker, ids) => ReleaseKeepsSkips(b, worker, ids);
    case Finalize => HeaderStepsKeepItems(b, ToPaused);
  }

  // ---------------------------------------------------------------- preservation: counters

  /** A cascade moves exactly the roots to failed and the cut-off rows to skipped. */
  lemma CascadeCounts(items: Items, roots: set<int>)
    requires roots <= WithStatus(items, Running)
    ensures |Cascade(items, roots)| == |items|
    ensures |WithStatus(Cascade(items, roots), Done)| == |WithStatus(items, Done)|
    ensures |WithStatus(Cascade(items, roots), Failed)| == |WithStatus(items, Failed)| + |roots|
    ensures |WithStatus(Cascade(items, roots), Skipped)| == |WithStatus(items, Skipped)| + |CutOff(items, roots)|
  {
    var after := Cascade(items, roots);
    assert after.Keys == items.Keys;
    assert WithStatus(after, Done) == WithStatus(items, Done);
    assert WithStatus(after, Failed) == WithStatus(items, Failed) + roots;
    assert WithStatus(after, Skipped) == WithStatus(items, Skipped) + CutOff(items, roots);
  }

  lemma RetryCounts(items: Items)
    ensures |RetryItems(items)| == |items|
    ensures |WithStatus(RetryItems(items), Done)| == |WithStatus(items, Done)|
    ensures WithStatus(RetryItems(items), Failed) == {}
    ensures |WithStatus(RetryItems(items), Skipped)| == |WithStatus(items, Skipped)| - |RetryRevives(items)|
  {
    RetryRows(items);
    var after := RetryItems(items);
    assert after.Keys == items.Keys;
    assert WithStatus(after, Done) == WithStatus(items, Done);
    assert WithStatus(after, Skipped) == WithStatus(items, Skipped) - RetryRevives(items);
    assert WithStatus(items, Skipped) == WithStatus(after, Skipped) + RetryRevives(items);
  }

  /** The rows a claim or a release moves are neither done, failed nor skipped, before or after. */
  lemma SameOutcomes(items: Items, after: Items)
    requires after.Keys == items.Keys
    requires forall s :: s in items ==>
               after[s].status == items[s].status ||
               ((items[s].status == Queued || items[s].status == Running) &&
                (after[s].status == Queued || after[s].status == Running))
    ensures |after| == |items|
    ensures WithStatus(after, Done) == WithStatus(items, Done)
    ensures WithStatus(after, Failed) == WithStatus(items, Failed)
    ensures WithStatus(after, Skipped) == WithStatus(items, Skipped)
  {
    assert |after| == |after.Keys| == |items|;
    assert forall st :: st == Done || st == Failed || st == Skipped ==>
      forall s :: s in WithStatus(after, st) <==> s in WithStatus(items, st);
  }

  lemma DoneCounts(items: Items, s: int)
    requires s in items && items[s].status == Running
    ensures var after := Update(items, {s}, (i: Item) => i.(status := Done));
            && |after| == |items|
            && |WithStatus(after, Done)| == |WithStatus(items, Done)| + 1
            && WithStatus(after, Failed) == WithStatus(items, Failed)
            && WithStatus(after, Skipped) == WithStatus(items, Skipped)
  {
    var after := Update(items, {s}, (i: Item) => i.(status := Done));
    assert after.Keys == items.Keys;
    assert WithStatus(after, Done) == WithStatus(items, Done) + {s};
  }

  lemma ParkCounts(items: Items)
    ensures var parked := WithStatus(items, Queued);
            var after := Update(items, parked, (i: Item) => i.(status := Skipped));
            && |after| == |items|
            && WithStatus(after, Done) == WithStatus(items, Done)
            && WithStatus(after, Failed) == WithStatus(items, Failed)
            && |WithStatus(after, Skipped)| == |WithStatus(items, Skipped)| + |parked|
  {
    var parked := WithStatus(items, Queued);
    var after := Update(items, parked, (i: Item) => i.(status := Skipped));
    assert after.Keys == items.Keys;
    assert WithStatus(after, Done) == WithStatus(items, Done);
    assert WithStatus(after, Failed) == WithStatus(items, Failed);
    assert WithStatus(after, Skipped) == WithStatus(items, Skipped) + parked;
  }

  /** Steps that change rows without changing the counters that count them. */
  predicate LosesCount(b: Batch, step: Step)
  {
    match step
    case RetryFailed => WithStatus(b.items, Failed) != {} && !CountsRetry(b.status)
    case Recover(now) => Stale(b.items, now) != {} && !CountsRecovery(b.status)
    case _ => false
  }

  /** The totals no step gets wrong: every row is still there, and every completion is counted. */
  ghost predicate CommonMove(b: Batch, c: Batch)
  {
    && c.total == b.total
    && |c.items| == |b.items|
    && c.doneCount - b.doneCount == |WithStatus(c.items, Done)| - |WithStatus(b.items, Done)|
    && c.doneCount >= b.doneCount
  }

  /** From `b` to `c` the counters moved exactly as the rows did. */
  ghost predicate CountsMove(b: Batch, c: Batch)
  {
    && CommonMove(b, c)
    && c.failedCount - b.failedCount == |WithStatus(c.items, Failed)| - |WithStatus(b.items, Failed)|
    && c.skippedCount - b.skippedCount == |WithStatus(c.items, Skipped)| - |WithStatus(b.items, Skipped)|
  }

  /** The rows moved and the counters did not. */
  ghost predicate CountsMiss(b: Batch, c: Batch)
  {
    && CommonMove(b, c)
    && c.failedCount == b.failedCount
    && c.skippedCount == b.skippedCount
    && |WithStatus(c.items, Failed)| != |WithStatus(b.items, Failed)|
  }

  lemma ClaimCounts(b: Batch, now: int, limit: int, worker: Option<string>, locked: set<int>)
    ensures CountsMove(b, ClaimStep(b, now, limit, worker, locked))
  {
    SameOutcomes(b.items, ClaimStep(b, now, limit, worker, locked).items);
  }

  lemma ReleaseCounts(b: Batch, worker: Option<string>, ids: set<int>)
    ensures CountsMove(b, ReleaseStep(b, worker, ids))
  {
    SameOutcomes(b.items, ReleaseStep(b, worker, ids).items);
  }

  lemma DoneStepCounts(b: Batch, s: int)
    ensures CountsMove(b, DoneStep(b, s))
  {
    if IsRunning(b, s) { DoneCounts(b.items, s); }
  }

  lemma FailStepCounts(b: Batch, s: int, retryable: bool)
    ensures CountsMove(b, FailStep(b, s, retryable))
  {
    if Requeues(b, s, retryable) {
      SameOutcomes(b.items, FailStep(b, s, retryable).items);
    } else if IsRunning(b, s) {
      CascadeCounts(b.items, {s});
    }
  }

  lemma SetStatusCounts(b: Batch, target: Target)
    ensures CountsMove(b, SetStatusStep(b, target))
  {
    ParkCounts(b.items);
  }

  lemma RetryStepCounts(b: Batch)
    ensures if LosesCount(b, RetryFailed) then CountsMiss(b, RetryFailedStep(b)) else CountsMove(b, RetryFailedStep(b))
  {
    RetryCounts(b.items);
  }

  lemma NothingDoomed(items: Items)
    ensures Cascade(items, {}) == items
    ensures CutOff(items, {}) == {}
  {
    forall s ensures s !in Doomed(items, {}) {
      JobGraph.DoomedAreDescendants(Parents(items), {}, s);
    }
  }

  lemma RecoverCounts(b: Batch, now: int)
    ensures if LosesCount(b, Recover(now)) then CountsMiss(b, RecoverStep(b, now)) else CountsMove(b, RecoverStep(b, now))
  {
    var stale := Stale(b.items, now);
    CascadeCounts(b.items, stale);
    if stale == {} { NothingDoomed(b.items); }
  }

  /** The change one step makes to the counters is the change it makes to the rows, unless it loses count. */
  lemma StepCounts(b: Batch, step: Step)
    ensures if LosesCount(b, step) then CountsMiss(b, Apply(b, step)) else CountsMove(b, Apply(b, step))
  {
    match step
    case Claim(now, limit, worker, locked) => ClaimCounts(b, now, limit, worker, locked);
    case ItemDone(s) => DoneStepCounts(b, s);
    case ItemFail(s, retryable) => FailStepCounts(b, s, retryable);
    case SetStatus(target) => SetStatusCounts(b, target);
    case RetryFailed => RetryStepCounts(b);
    case Recover(now) => RecoverCounts(b, now);
    case Release(worker, ids) => ReleaseCounts(b, worker, ids);
    case Finalize =>
  }

  /** Counters stay exact through a step if and only if the step does not lose count. */
  lemma StepConservesIff(b: Batch, step: Step)
    requires Conserved(b)
    ensures Conserved(Apply(b, step)) <==> !LosesCount(b, step)
  {
    StepCounts(b, step);
  }

  // ---------------------------------------------------------------- preservation: the whole invariant

  lemma QuietRows(items: Items)
    ensures Settled(items) ==> WithStatus(items, Running) == {}
    ensures (forall s :: s in items ==> items[s].status == Queued) ==>
              WithStatus(items, Running) == {} && WithStatus(items, Failed) == {}
  {
    if Settled(items) || (forall s :: s in items ==> items[s].status == Queued) {
      forall s: int ensures s !in WithStatus(items, Running) {}
      Collections.NoMembers(WithStatus(items, Running));
    }
    if forall s :: s in items ==> items[s].status == Queued {
      forall s: int ensures s !in WithStatus(items, Failed) {}
      Collections.NoMembers(WithStatus(items, Failed));
    }
  }

  lemma NothingStale(items: Items, now: int)
    requires WithStatus(items, Running) == {}
    ensures Stale(items, now) == {}
  {
    assert Stale(items, now) <= WithStatus(items, Running);
  }

  /** Under a settled header nothing is claimable, running or stale, so the rows stay put. */
  lemma SettledRowsStay(b: Batch, step: Step)
    requires b.status == Finished || b.status == Partial
    requires Settled(b.items)
    requires step.RetryFailed? ==> WithStatus(b.items, Failed) == {}
    ensures Settled(Apply(b, step).items)
  {
    match step
    case Claim(now, limit, worker, locked) =>
    case Recover(now) =>
      QuietRows(b.items);
      NothingStale(b.items, now);
      NothingDoomed(b.items);
    case _ =>
  }

  lemma PendingRowsStay(b: Batch, step: Step)
    requires forall s :: s in b.items ==> b.items[s].status == Queued
    requires !step.Claim?
    requires b.status == Pending
    ensures Apply(b, step).status == Pending ==> forall s :: s in b.items ==> Apply(b, step).items[s].status == Queued
  {
    match step
    case Recover(now) =>
      QuietRows(b.items);
      NothingStale(b.items, now);
      NothingDoomed(b.items);
    case RetryFailed =>
      QuietRows(b.items);
    case _ =>
  }

  /** Only `FinalizeStep` enters the headers 'done' and 'partial', and no step enters 'pending'. */
  lemma HeaderEntry(b: Batch, step: Step)
    ensures var c := Apply(b, step);
      && (c.status == Finished || c.status == Partial ==>
            b.status == c.status || (step.Finalize? && Settled(b.items) && c.items == b.items))
      && (c.status == Finished && b.status != Finished ==> c.failedCount + c.skippedCount <= 0)
      && (c.status == Pending ==> b.status == Pending && !step.Claim?)
      && (b.status == Finished ==> c.status == Finished)
      && (b.status == Cancelled ==> c.status == Cancelled)
  {
    if step.RetryFailed? && b.status == Partial {
      assert Apply(b, step).status == Active || Apply(b, step) == b;
    }
  }

  lemma FinishedCounters(b: Batch, step: Step)
    requires b.status == Finished && Settled(b.items) && WithStatus(b.items, Failed) == {}
    ensures Apply(b, step).failedCount == b.failedCount && Apply(b, step).skippedCount == b.skippedCount
  {
    if step.ItemFail? {
      assert !IsRunning(b, step.row);
    }
  }

  lemma FinishedHasNoFailures(b: Batch)
    requires CountersCover(b) && TerminalSettled(b)
    ensures b.status == Finished ==> WithStatus(b.items, Failed) == {} && WithStatus(b.items, Skipped) == {}
  {
  }

  lemma QuietHeaders(b: Batch)
    requires TerminalSettled(b)
    ensures b.status == Pending || b.status == Finished || b.status == Partial ==> WithStatus(b.items, Running) == {}
    ensures b.status == Pending ==> WithStatus(b.items, Failed) == {}
  {
    QuietRows(b.items);
  }

  lemma StepKeepsTerminal(b: Batch, step: Step)
    requires CountersCover(b) && TerminalSettled(b)
    requires CountersCover(Apply(b, step))
    ensures TerminalSettled(Apply(b, step))
  {
    var c := Apply(b, step);
    HeaderEntry(b, step);
    QuietHeaders(b);
    FinishedHasNoFailures(b);
    if (c.status == Finished || c.status == Partial) && b.status == c.status {
      if step.RetryFailed? && b.status == Partial {
        assert WithStatus(b.items, Failed) == {};
      }
      SettledRowsStay(b, step);
      if c.status == Finished {
        FinishedCounters(b, step);
      }
    }
    if c.status == Pending {
      PendingRowsStay(b, step);
    }
  }

  lemma StepKeepsCover(b: Batch, step: Step)
    requires CountersCover(b) && TerminalSettled(b)
    ensures CountersCover(Apply(b, step))
  {
    StepCounts(b, step);
    QuietHeaders(b);
    match step
    case RetryFailed =>
      RetryCounts(b.items);
      RetryRows(b.items);
      Collections.SubsetCard(RetryRevives(b.items), WithStatus(b.items, Skipped));
    case Recover(now) =>
      CascadeCounts(b.items, Stale(b.items, now));
      if b.status == Finished || b.status == Partial {
        NothingStale(b.items, now);
        NothingDoomed(b.items);
      }
    case _ =>
  }

  lemma StepKeepsInv(b: Batch, step: Step)
    requires Inv(b)
    ensures Inv(Apply(b, step))
  {
    StepKeepsRows(b, step);
    StepKeepsCover(b, step);
    StepKeepsTerminal(b, step);
  }

  // ---------------------------------------------------------------- the moves of one row

  predicate HandsOut(b: Batch, step: Step, s: int)
  {
    step.Claim? && s in Picked(b, step.limit, step.locked)
  }

  /** The three ways back to queued: a retryable failure report, the claimer's own release, a retry. */
  predicate Returns(b: Batch, step: Step, s: int)
  {
    match step
    case ItemFail(t, retryable) => t == s && Requeues(b, s, retryable)
    case Release(worker, ids) => s in Releasable(b.items, worker, ids)
    case RetryFailed => s in b.items && (b.items[s].status == Failed || b.items[s].status == Skipped)
    case _ => false
  }

  /** Every status change a step can make to a row, with what it does to attempts and claimer. */
  predicate LegalMove(b: Batch, step: Step, s: int, j: Item)
    requires s in b.items
  {
    var i := b.items[s];
    j.after == i.after &&
    if j.status == i.status then
      && j.attempts == i.attempts && j.claimedBy == i.claimedBy && !HandsOut(b, step, s)
      && (j.expires == i.expires ||
          (step.Claim? && i.status == Running && step.worker.Some? && i.claimedBy == step.worker && j.expires == Some(step.now + LEASE)))
    else match (i.status, j.status)
      case (Queued, Running) =>
        && HandsOut(b, step, s) && j.attempts == i.attempts + 1 && i.attempts < MAX_ATTEMPTS && j.claimedBy == step.worker
        && j.expires == (if step.worker.None? then None else Some(step.now + LEASE))
      case (Queued, Skipped) =>
        (step.ItemFail? || step.Recover? || step == SetStatus(ToCancelled)) && j.attempts == i.attempts
      case (Running, Done) => step == ItemDone(s) && j.attempts == i.attempts
      case (Running, Failed) =>
        j.attempts == i.attempts && ((step.ItemFail? && step.row == s) || (step.Recover? && s in Stale(b.items, step.now)))
      case (Running, Queued) => Returns(b, step, s) && (step.ItemFail? || step.Release?) && j.attempts == i.attempts
      case (Failed, Queued) => step == RetryFailed && j.attempts == 0
      case (Skipped, Queued) => step == RetryFailed && j.attempts == 0
      case _ => false
  }

  lemma ClaimRowMoves(b: Batch, step: Step, s: int)
    requires s in b.items && step.Claim?
    ensures LegalMove(b, step, s, Apply(b, step).items[s])
  {
  }

  lemma FailRowMoves(b: Batch, step: Step, s: int)
    requires s in b.items && step.ItemFail?
    ensures LegalMove(b, step, s, Apply(b, step).items[s])
  {
  }

  lemma RecoverRowMoves(b: Batch, step: Step, s: int)
    requires s in b.items && step.Recover?
    ensures LegalMove(b, step, s, Apply(b, step).items[s])
  {
  }

  lemma RetryRowMoves(b: Batch, s: int)
    requires s in b.items
    ensures s in RetryFailedStep(b).items
    ensures LegalMove(b, RetryFailed, s, RetryFailedStep(b).items[s])
  {
    RetryRows(b.items);
  }

  lemma RowMoves(b: Batch, step: Step, s: int)
    requires s in b.items
    ensures s in Apply(b, step).items && LegalMove(b, step, s, Apply(b, step).items[s])
  {
    match step
    case Claim(now, limit, worker, locked) => ClaimRowMoves(b, step, s);
    case ItemFail(t, retryable) => FailRowMoves(b, step, s);
    case RetryFailed => RetryRowMoves(b, s);
    case Recover(now) => RecoverRowMoves(b, step, s);
    case _ =>
  }

  lemma StepKeepsKeys(b: Batch, step: Step)
    ensures Apply(b, step).items.Keys == b.items.Keys
  {
    match step
    case Claim(now, limit, worker, locked) =>
    case ItemDone(t) =>
    case ItemFail(t, retryable) =>
    case SetStatus(target) =>
    case RetryFailed => RetryRows(b.items);
    case Recover(now) =>
    case Release(worker, ids) =>
    case Finalize =>
  }

  lemma SameParents(items: Items, after: Items)
    requires items.Keys == after.Keys
    requires forall s :: s in items ==> after[s].after == items[s].after
    ensures Parents(after) == Parents(items)
  {
    assert Parents(after).Keys == after.Keys;
    assert Parents(items).Keys == items.Keys;
    forall s: int | s in Parents(after) ensures Parents(after)[s] == Parents(items)[s] {
      assert s in items && s in after;
    }
    Collections.SameMap(Parents(after), Parents(items));
  }

  /** No step rewires the dependency graph. */
  lemma StepKeepsParents(b: Batch, step: Step)
    ensures Parents(Apply(b, step).items) == Parents(b.items)
  {
    var c := Apply(b, step);
    StepKeepsKeys(b, step);
    forall s | s in b.items ensures c.items[s].after == b.items[s].after {
      RowMoves(b, step, s);
    }
    SameParents(b.items, c.items);
  }

  // ---------------------------------------------------------------- what the queries mean

  /** The rows a failure cuts off are the queued rows with a proper ancestor among the failed ones. */
  lemma CutOffMeaning(items: Items, roots: set<int>, s: int)
    ensures s in CutOff(items, roots) <==>
            s in items && items[s].status == Queued &&
            exists a :: a in roots && JobGraph.ProperAncestor(Parents(items), a, s)
  {
    JobGraph.DoomedAreDescendants(Parents(items), roots, s);
  }

  /** The rows a retry revives are those that climb, through skipped rows only, to an unblocked one. */
  lemma RevivedMeaning(items: Items, s: int)
    ensures s in Revived(items) <==>
            JobGraph.Reaches(Parents(items), WithStatus(items, Skipped), Unblocked(items), s)
  {
    JobGraph.RecursiveIsReachability(Parents(items), WithStatus(items, Skipped), Unblocked(items), s);
  }

  function Below(ready: set<int>, s: int): set<int>
  {
    set t | t in ready && t < s
  }

  lemma {:induction false} Greatest(ready: set<int>) returns (top: int)
    requires ready != {}
    ensures top in ready && forall t :: t in ready ==> t <= top
  {
    top := Collections.Pick(ready);
    var rest := ready - {top};
    assert forall t :: t in ready ==> t == top || t in rest;
    if rest != {} {
      var other := Greatest(rest);
      if other > top { top := other; }
    }
  }

  /** Removing the greatest row removes it from the picked rows, or leaves them alone if there were enough without it. */
  lemma {:induction false} FirstBySeqCard(ready: set<int>, take: nat)
    ensures |FirstBySeq(ready, take)| == if |ready| < take then |ready| else take
    decreases |ready|
  {
    if ready == {} {
      forall s: int ensures s !in FirstBySeq(ready, take) {}
      Collections.NoMembers(FirstBySeq(ready, take));
    } else {
      var top := Greatest(ready);
      var rest := ready - {top};
      FirstBySeqCard(rest, take);
      assert |rest| == |ready| - 1;
      assert Below(ready, top) == rest;
      forall s | s in rest ensures Below(ready, s) == Below(rest, s) {}
      assert forall s :: s in rest ==> (s in FirstBySeq(ready, take) <==> s in FirstBySeq(rest, take)) by {
        forall s | s in rest ensures s in FirstBySeq(ready, take) <==> s in FirstBySeq(rest, take) {
          assert Below(ready, s) == (set t | t in ready && t < s);
          assert Below(rest, s) == (set t | t in rest && t < s);
        }
      }
      assert top in FirstBySeq(ready, take) <==> |rest| < take;
      if |rest| < take {
        assert FirstBySeq(ready, take) == FirstBySeq(rest, take) + {top};
      } else {
        assert FirstBySeq(ready, take) == FirstBySeq(rest, take);
      }
    }
  }

  /** A claim takes the ready rows with the least seq: as many as asked for, or all of them. */
  lemma PickedAreLeast(ready: set<int>, take: nat)
    ensures forall s, t :: s in FirstBySeq(ready, take) && t in ready && t < s ==> t in FirstBySeq(ready, take)
    ensures |FirstBySeq(ready, take)| == if |ready| < take then |ready| else take
  {
    forall s, t | s in FirstBySeq(ready, take) && t in ready && t < s
      ensures t in FirstBySeq(ready, take)
    {
      Collections.SubsetCard(Below(ready, t), Below(ready, s));
    }
    FirstBySeqCard(ready, take);
  }

  /** The second statement of a retryable failure report, on its own: it does not test the status again. */
  function LateRequeue(b: Batch, s: int): Batch
  {
    b.(items := Update(b.items, {s}, (i: Item) => i.(status := Queued)))
  }

  /** It equals the whole step exactly when the row is still running with attempts left, or is queued already. */
  lemma UnguardedRequeue(b: Batch, s: int)
    requires s in b.items
    ensures LateRequeue(b, s) == FailStep(b, s, true) <==> Requeues(b, s, true) || b.items[s].status == Queued
  {
    var written := LateRequeue(b, s);
    assert written.items[s].status == Queued;
    if b.items[s].status == Queued {
      assert written.items.Keys == b.items.Keys;
      forall t: int | t in b.items ensures written.items[t] == b.items[t] {}
      Collections.SameMap(written.items, b.items);
    }
  }
}
