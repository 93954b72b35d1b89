/**
  The queue over whole runs.  A run is a created batch and any sequence of steps, by any number of
  workers, in any order; `Exec(b, steps[..k])` is the state just before step `k`.
 */
module JobRuns {
  import opened Wrappers
  import opened JobBatch
  import opened JobInvariants
  import JobGraph
  import JobCreate
  import Collections

  // ---------------------------------------------------------------- every run

  lemma CreatedInv(b: Batch)
    requires JobCreate.IsCreated(b)
    ensures Inv(b) && Conserved(b)
    ensures SkipLocal(b.items)
  {
    forall s: int ensures s !in WithStatus(b.items, Done) && s !in WithStatus(b.items, Failed) && s !in WithStatus(b.items, Skipped) {}
    Collections.NoMembers(WithStatus(b.items, Done));
    Collections.NoMembers(WithStatus(b.items, Failed));
    Collections.NoMembers(WithStatus(b.items, Skipped));
    forall s | s in b.items ensures !Blocked(b.items, b.items[s].after) {
      if b.items[s].after.Some? {
        var p := b.items[s].after.value;
        assert p in b.items ==> b.items[p].status == Queued;
      }
    }
  }

  /** The invariant holds in every state of every run. */
  lemma {:induction false} RunKeepsInv(b: Batch, steps: seq<Step>)
    requires Inv(b)
    ensures Inv(Exec(b, steps))
  {
    if steps != [] {
      RunKeepsInv(b, steps[..|steps| - 1]);
      StepKeepsInv(Exec(b, steps[..|steps| - 1]), steps[|steps| - 1]);
    }
  }

  lemma {:induction false} RunKeepsParents(b: Batch, steps: seq<Step>)
    ensures Parents(Exec(b, steps).items) == Parents(b.items)
    ensures Exec(b, steps).items.Keys == b.items.Keys
  {
    if steps != [] {
      RunKeepsParents(b, steps[..|steps| - 1]);
      StepKeepsParents(Exec(b, steps[..|steps| - 1]), steps[|steps| - 1]);
      StepKeepsKeys(Exec(b, steps[..|steps| - 1]), steps[|steps| - 1]);
    }
  }

  /** The state after a longer prefix is one step from the state before it. */
  lemma ExecNext(b: Batch, steps: seq<Step>, k: nat)
    requires k < |steps|
    ensures Exec(b, steps[..k + 1]) == Apply(Exec(b, steps[..k]), steps[k])
  {
    assert steps[..k + 1][..k] == steps[..k];
  }

  lemma ExecAll(b: Batch, steps: seq<Step>)
    ensures Exec(b, steps[..|steps|]) == Exec(b, steps)
    ensures Exec(b, steps[..0]) == b
  {
    assert steps[..|steps|] == steps;
  }

  // ---------------------------------------------------------------- dependency order

  /** Whatever the interleaving, a row that is running, done or failed has no parent or a done parent. */
  lemma DependencyOrder(b: Batch, steps: seq<Step>, s: int)
    requires JobCreate.IsCreated(b)
    requires s in Exec(b, steps).items && Started(Exec(b, steps).items[s].status)
    ensures s in b.items && Exec(b, steps).items[s].after == b.items[s].after
    ensures ParentDone(Exec(b, steps).items, Exec(b, steps).items[s].after)
  {
    CreatedInv(b);
    RunKeepsInv(b, steps);
    RunKeepsParents(b, steps);
    assert Parents(Exec(b, steps).items)[s] == Parents(b.items)[s];
  }

  lemma StepKeepsDone(b: Batch, step: Step, s: int)
    requires s in b.items && b.items[s].status == Done
    ensures s in Apply(b, step).items && Apply(b, step).items[s] == b.items[s]
  {
    if step == RetryFailed { RetryRows(b.items); }
  }

  /** Row `s` is done, and this is it. */
  ghost predicate DoneIn(b: Batch, s: int, row: Item)
  {
    s in b.items && b.items[s] == row && row.status == Done
  }

  /** Done is absorbing: a completed row is never touched again. */
  lemma {:induction false} DoneIsForever(b: Batch, steps: seq<Step>, i: nat, j: nat, s: int, row: Item)
    requires i <= j <= |steps|
    requires DoneIn(Exec(b, steps[..i]), s, row)
    ensures DoneIn(Exec(b, steps[..j]), s, row)
    decreases j
  {
    if i < j {
      DoneIsForever(b, steps, i, j - 1, s, row);
      ExecNext(b, steps, j - 1);
      StepKeepsDone(Exec(b, steps[..j - 1]), steps[j - 1], s);
    }
  }

  // ---------------------------------------------------------------- skip closure

  ghost predicate NeverCancels(steps: seq<Step>)
  {
    SetStatus(ToCancelled) !in steps
  }

  lemma {:induction false} RunKeepsSkips(b: Batch, steps: seq<Step>)
    requires JobCreate.IsCreated(b) && JobGraph.WellFormed(Parents(b.items)) && NeverCancels(steps)
    ensures SkipLocal(Exec(b, steps).items)
  {
    CreatedInv(b);
    if steps != [] {
      var before := steps[..|steps| - 1];
      RunKeepsSkips(b, before);
      RunKeepsInv(b, before);
      RunKeepsParents(b, before);
      assert forall s :: s in Exec(b, before).items ==> s in b.items;
      StepKeepsSkips(Exec(b, before), steps[|steps| - 1]);
    }
  }

  ghost predicate HasFailedAncestor(items: Items, s: int)
  {
    exists a :: a in items && items[a].status == Failed && JobGraph.ProperAncestor(Parents(items), a, s)
  }

  lemma ParentCarries(items: Items, s: int)
    requires s in items && items[s].after.Some?
    ensures HasFailedAncestor(items, items[s].after.value) ==> HasFailedAncestor(items, s)
  {
    var p := items[s].after.value;
    assert Parents(items)[s] == Some(p);
    if HasFailedAncestor(items, p) {
      var a :| a in items && items[a].status == Failed && JobGraph.ProperAncestor(Parents(items), a, p);
      JobGraph.AncestorUnfold(Parents(items), a, s);
    }
  }

  /** A failed ancestor is the parent itself or sits above the parent. */
  lemma FailedAboveBlocks(items: Items, s: int)
    requires s in items && HasFailedAncestor(items, s)
    ensures items[s].after.Some?
    ensures var p := items[s].after.value; (p in items && items[p].status == Failed) || HasFailedAncestor(items, p)
  {
    var a :| a in items && items[a].status == Failed && JobGraph.ProperAncestor(Parents(items), a, s);
    JobGraph.AncestorUnfold(Parents(items), a, s);
  }

  /** Skipped by the parent's state, or skipped by some ancestor's failure: the same thing. */
  lemma {:induction false} LocalIsGlobal(items: Items, s: int)
    requires JobGraph.WellFormed(Parents(items)) && SkipLocal(items)
    requires forall t :: t in items ==> 0 <= t
    requires s in items
    ensures items[s].status == Skipped <==> HasFailedAncestor(items, s)
    decreases s
  {
    var parents := Parents(items);
    assert parents[s] == items[s].after;
    if items[s].after.Some? {
      var p := items[s].after.value;
      assert p in parents;
      LocalIsGlobal(items, p);
      ParentCarries(items, s);
      if items[p].status == Failed {
        JobGraph.AncestorUnfold(parents, p, s);
      }
    } else {
      forall a ensures !JobGraph.ProperAncestor(parents, a, s) {
        JobGraph.AncestorUnfold(parents, a, s);
      }
    }
    if items[s].status != Skipped && HasFailedAncestor(items, s) {
      FailedAboveBlocks(items, s);
    }
  }

  /**
    In every reachable state of a well-formed batch that was never cancelled, a row is skipped
    exactly when one of its proper ancestors is failed.
   */
  lemma SkipClosure(b: Batch, steps: seq<Step>, s: int)
    requires JobCreate.IsCreated(b) && JobGraph.WellFormed(Parents(b.items)) && NeverCancels(steps)
    requires s in b.items
    ensures s in Exec(b, steps).items
    ensures Exec(b, steps).items[s].status == Skipped <==> HasFailedAncestor(Exec(b, steps).items, s)
  {
    RunKeepsSkips(b, steps);
    RunKeepsParents(b, steps);
    assert forall t :: t in Exec(b, steps).items ==> t in b.items;
    LocalIsGlobal(Exec(b, steps).items, s);
  }

  // ---------------------------------------------------------------- counter conservation

  /** No step of the run moves rows without moving the counters. */
  ghost predicate KeepsCount(b: Batch, steps: seq<Step>)
  {
    forall k :: 0 <= k < |steps| ==> !LosesCount(Exec(b, steps[..k]), steps[k])
  }

  lemma {:induction false} CountedSoFar(b: Batch, steps: seq<Step>, k: nat)
    requires Conserved(b) && KeepsCount(b, steps) && k <= |steps|
    ensures Conserved(Exec(b, steps[..k]))
    decreases k
  {
    if k > 0 {
      CountedSoFar(b, steps, k - 1);
      var before := Exec(b, steps[..k - 1]);
      assert !LosesCount(before, steps[k - 1]);
      StepConservesIff(before, steps[k - 1]);
      ExecNext(b, steps, k - 1);
    }
  }

  /**
    The counters equal the row counts in every state of a run if and only if retry-failed changes
    rows only of partial or paused batches, and recovery only of pending, running or paused ones.
   */
  lemma ConservationIff(b: Batch, steps: seq<Step>)
    requires JobCreate.IsCreated(b)
    ensures (forall k :: 0 <= k <= |steps| ==> Conserved(Exec(b, steps[..k]))) <==> KeepsCount(b, steps)
  {
    CreatedInv(b);
    if forall k :: 0 <= k <= |steps| ==> Conserved(Exec(b, steps[..k])) {
      forall k | 0 <= k < |steps| ensures !LosesCount(Exec(b, steps[..k]), steps[k]) {
        ExecNext(b, steps, k);
        StepConservesIff(Exec(b, steps[..k]), steps[k]);
      }
    }
    if KeepsCount(b, steps) {
      forall k | 0 <= k <= |steps| ensures Conserved(Exec(b, steps[..k])) {
        CountedSoFar(b, steps, k);
      }
    }
  }

  /** The caller-side discipline that is enough: retry only partial or paused, never recover a cancelled batch. */
  ghost predicate Disciplined(b: Batch, steps: seq<Step>)
  {
    forall k :: 0 <= k < |steps| ==>
      && (steps[k].RetryFailed? ==> CountsRetry(Exec(b, steps[..k]).status))
      && (steps[k].Recover? ==> Exec(b, steps[..k]).status != Cancelled)
  }

  lemma DisciplineKeepsCount(b: Batch, steps: seq<Step>)
    requires JobCreate.IsCreated(b) && Disciplined(b, steps)
    ensures KeepsCount(b, steps)
    ensures Conserved(Exec(b, steps))
  {
    CreatedInv(b);
    forall k | 0 <= k < |steps| ensures !LosesCount(Exec(b, steps[..k]), steps[k]) {
      RunKeepsInv(b, steps[..k]);
      var before := Exec(b, steps[..k]);
      if steps[k].Recover? && !CountsRecovery(before.status) {
        QuietHeaders(before);
        NothingStale(before.items, steps[k].now);
      }
    }
    CountedSoFar(b, steps, |steps|);
    ExecAll(b, steps);
  }

  // ---------------------------------------------------------------- sound verdicts

  /**
    In every run a batch whose header says done has only done rows, and one that says partial has
    no queued or running row; with exact counters a partial batch has a failed or skipped row.
   */
  lemma SoundVerdicts(b: Batch, steps: seq<Step>)
    requires JobCreate.IsCreated(b)
    ensures var c := Exec(b, steps);
      && (c.status == Finished ==> forall s :: s in c.items ==> c.items[s].status == Done)
      && (c.status == Partial ==> Settled(c.items))
  {
    CreatedInv(b);
    RunKeepsInv(b, steps);
    var c := Exec(b, steps);
    if c.status == Finished {
      FinishedHasNoFailures(c);
      forall s | s in c.items ensures c.items[s].status == Done {
        assert s !in WithStatus(c.items, Failed) && s !in WithStatus(c.items, Skipped);
      }
    }
  }

  lemma StepKeepsPartialCounters(b: Batch, step: Step)
    requires Inv(b) && (b.status == Partial ==> b.failedCount + b.skippedCount > 0)
    ensures var c := Apply(b, step); c.status == Partial ==> c.failedCount + c.skippedCount > 0
  {
    HeaderEntry(b, step);
    if b.status == Partial && step.Recover? {
      assert Apply(b, step).failedCount == b.failedCount;
    }
    if b.status == Partial && step.ItemFail? {
      assert !IsRunning(b, step.row);
    }
  }

  lemma {:induction false} PartialCounters(b: Batch, steps: seq<Step>)
    requires JobCreate.IsCreated(b)
    ensures var c := Exec(b, steps); c.status == Partial ==> c.failedCount + c.skippedCount > 0
  {
    if steps != [] {
      CreatedInv(b);
      PartialCounters(b, steps[..|steps| - 1]);
      RunKeepsInv(b, steps[..|steps| - 1]);
      StepKeepsPartialCounters(Exec(b, steps[..|steps| - 1]), steps[|steps| - 1]);
    }
  }

  /** A partial header was set with a positive failure or skip count, and keeps it. */
  lemma PartialHasCause(b: Batch, steps: seq<Step>)
    requires JobCreate.IsCreated(b) && KeepsCount(b, steps)
    requires Exec(b, steps).status == Partial
    ensures WithStatus(Exec(b, steps).items, Failed) != {} || WithStatus(Exec(b, steps).items, Skipped) != {}
  {
    CreatedInv(b);
    CountedSoFar(b, steps, |steps|);
    ExecAll(b, steps);
    PartialCounters(b, steps);
  }

  /** Done and cancelled headers are final. */
  lemma {:induction false} FinalHeaders(b: Batch, steps: seq<Step>)
    ensures b.status == Finished ==> Exec(b, steps).status == Finished
    ensures b.status == Cancelled ==> Exec(b, steps).status == Cancelled
  {
    if steps != [] {
      FinalHeaders(b, steps[..|steps| - 1]);
      HeaderEntry(Exec(b, steps[..|steps| - 1]), steps[|steps| - 1]);
    }
  }

  /** After cancellation no claim hands anything out. */
  lemma CancelledClaimsNothing(b: Batch, steps: seq<Step>, limit: int, locked: set<int>)
    requires b.status == Cancelled
    ensures Picked(Exec(b, steps), limit, locked) == {}
  {
    FinalHeaders(b, steps);
    var c := Exec(b, steps);
    forall s: int ensures s !in Picked(c, limit, locked) {}
    Collections.NoMembers(Picked(c, limit, locked));
  }

  lemma CancelledStep(b: Batch, step: Step)
    requires b.status == Cancelled
    ensures WithStatus(Apply(b, step).items, Running) <= WithStatus(b.items, Running)
    ensures WithStatus(Apply(b, step).items, Done) <= WithStatus(b.items, Done) + WithStatus(b.items, Running)
  {
    StepKeepsKeys(b, step);
    forall s | s in Apply(b, step).items
      ensures s in WithStatus(Apply(b, step).items, Running) ==> s in WithStatus(b.items, Running)
      ensures s in WithStatus(Apply(b, step).items, Done) ==> s in WithStatus(b.items, Done) + WithStatus(b.items, Running)
    {
      RowMoves(b, step, s);
    }
  }

  /** Completions after a cancellation are bounded by the rows running when it happened. */
  lemma {:induction false} LateCompletionsBounded(b: Batch, steps: seq<Step>)
    requires b.status == Cancelled
    ensures WithStatus(Exec(b, steps).items, Running) <= WithStatus(b.items, Running)
    ensures WithStatus(Exec(b, steps).items, Done) <= WithStatus(b.items, Done) + WithStatus(b.items, Running)
    ensures |WithStatus(Exec(b, steps).items, Done)| <= |WithStatus(b.items, Done)| + |WithStatus(b.items, Running)|
  {
    if steps != [] {
      LateCompletionsBounded(b, steps[..|steps| - 1]);
      FinalHeaders(b, steps[..|steps| - 1]);
      CancelledStep(Exec(b, steps[..|steps| - 1]), steps[|steps| - 1]);
    }
    Collections.SubsetCard(WithStatus(Exec(b, steps).items, Done), WithStatus(b.items, Done) + WithStatus(b.items, Running));
  }

  // ---------------------------------------------------------------- retry undoes the cascade

  /** What a retry leaves behind: rows that are done, or queued with all their attempts ahead. */
  ghost predicate AllOpen(items: Items)
  {
    forall s :: s in items ==> items[s].status == Done || (items[s].status == Queued && items[s].attempts == 0)
  }

  /** Skipped rows presuppose a failed row. */
  lemma SkippedNeedsFailed(items: Items)
    requires JobGraph.WellFormed(Parents(items)) && SkipLocal(items)
    requires forall t :: t in items ==> 0 <= t
    requires WithStatus(items, Failed) != {} || WithStatus(items, Skipped) != {}
    ensures WithStatus(items, Failed) != {}
  {
    if WithStatus(items, Skipped) != {} {
      var s := Collections.Pick(WithStatus(items, Skipped));
      LocalIsGlobal(items, s);
      var a :| a in items && items[a].status == Failed && JobGraph.ProperAncestor(Parents(items), a, s);
      assert a in WithStatus(items, Failed);
    }
  }

  lemma RetryRowsAllOpen(items: Items)
    requires JobGraph.WellFormed(Parents(items)) && SkipLocal(items) && DepsDone(items) && Settled(items)
    requires forall t :: t in items ==> 0 <= t
    ensures AllOpen(RetryItems(items))
  {
    RetryRows(items);
    RetryKeepsSkips(items);
  }

  /** A settled batch without failed rows has no skipped rows either. */
  lemma NoFailureNoSkip(items: Items)
    requires JobGraph.WellFormed(Parents(items)) && SkipLocal(items) && Settled(items)
    requires forall t :: t in items ==> 0 <= t
    requires WithStatus(items, Failed) == {}
    ensures AllOpen(items)
  {
    forall s | s in items ensures items[s].status == Done {
      assert s !in WithStatus(items, Failed);
      if s in WithStatus(items, Skipped) {
        SkippedNeedsFailed(items);
      }
    }
  }

  lemma NoneLeft(items: Items)
    requires forall s :: s in items ==> items[s].status != Failed && items[s].status != Skipped
    ensures |WithStatus(items, Failed)| == 0 && |WithStatus(items, Skipped)| == 0
  {
    forall s: int ensures s !in WithStatus(items, Skipped) && s !in WithStatus(items, Failed) {}
    Collections.NoMembers(WithStatus(items, Skipped));
    Collections.NoMembers(WithStatus(items, Failed));
  }

  /**
    Retry-failed on a partial batch, well formed and never cancelled: every row is done, or queued with
    no attempts; the header is running again if and only if some row was failed.
   */
  lemma RetryUndoesCascade(b: Batch, steps: seq<Step>)
    requires JobCreate.IsCreated(b) && JobGraph.WellFormed(Parents(b.items)) && NeverCancels(steps)
    requires Exec(b, steps).status == Partial
    ensures AllOpen(RetryFailedStep(Exec(b, steps)).items)
    ensures RetryFailedStep(Exec(b, steps)).status == Active <==> WithStatus(Exec(b, steps).items, Failed) != {}
  {
    var p := Exec(b, steps);
    CreatedInv(b);
    RunKeepsInv(b, steps);
    RunKeepsSkips(b, steps);
    RunKeepsParents(b, steps);
    assert forall s :: s in p.items ==> s in b.items;
    if WithStatus(p.items, Failed) == {} {
      NoFailureNoSkip(p.items);
    } else {
      RetryRowsAllOpen(p.items);
    }
  }

  lemma RetryConserves(p: Batch)
    requires Conserved(p) && p.status == Partial
    ensures Conserved(RetryFailedStep(p))
  {
    assert !LosesCount(p, RetryFailed);
    StepConservesIff(p, RetryFailed);
    assert Apply(p, RetryFailed) == RetryFailedStep(p);
  }

  lemma NothingCounted(c: Batch)
    requires Conserved(c) && AllOpen(c.items)
    ensures c.failedCount == 0 && c.skippedCount == 0
  {
    NoneLeft(c.items);
  }

  /** Under exact counters a partial batch, well formed and never cancelled, has a failed row. */
  lemma PartialHasFailure(b: Batch, steps: seq<Step>)
    requires JobCreate.IsCreated(b) && JobGraph.WellFormed(Parents(b.items)) && NeverCancels(steps)
    requires KeepsCount(b, steps) && Exec(b, steps).status == Partial
    ensures WithStatus(Exec(b, steps).items, Failed) != {}
  {
    var p := Exec(b, steps);
    RunKeepsSkips(b, steps);
    RunKeepsParents(b, steps);
    assert forall s :: s in p.items ==> s in b.items;
    PartialHasCause(b, steps);
    SkippedNeedsFailed(p.items);
  }

  /** With exact counters, the header of that batch runs again, with nothing counted as failed or skipped. */
  lemma RetryZeroesCounters(b: Batch, steps: seq<Step>)
    requires JobCreate.IsCreated(b) && JobGraph.WellFormed(Parents(b.items)) && NeverCancels(steps)
    requires KeepsCount(b, steps) && Exec(b, steps).status == Partial
    ensures var c := RetryFailedStep(Exec(b, steps)); c.status == Active && c.failedCount == 0 && c.skippedCount == 0
  {
    RetryUndoesCascade(b, steps);
    PartialHasFailure(b, steps);
    CreatedInv(b);
    CountedSoFar(b, steps, |steps|);
    ExecAll(b, steps);
    RetryConserves(Exec(b, steps));
    NothingCounted(RetryFailedStep(Exec(b, steps)));
  }

  // ---------------------------------------------------------------- progress

  /** `s` is the queued row with the least seq. */
  ghost predicate LeastQueued(items: Items, s: int)
  {
    && s in items && items[s].status == Queued
    && forall t :: t in items && items[t].status == Queued ==> s <= t
  }

  /**
    With nothing running, the least queued row of a pending or running batch (well formed, never
    cancelled) is claimable unless its attempts are used up, and then the next claim hands it out.
   */
  lemma Progress(b: Batch, steps: seq<Step>, s: int, limit: int)
    requires JobCreate.IsCreated(b) && JobGraph.WellFormed(Parents(b.items)) && NeverCancels(steps)
    requires Exec(b, steps).status == Pending || Exec(b, steps).status == Active
    requires forall t :: t in Exec(b, steps).items ==> Exec(b, steps).items[t].status != Running
    requires LeastQueued(Exec(b, steps).items, s)
    ensures Claimable(Exec(b, steps), s) <==> Exec(b, steps).items[s].attempts != MAX_ATTEMPTS
    ensures Exec(b, steps).items[s].attempts != MAX_ATTEMPTS ==> s in Picked(Exec(b, steps), limit, {})
  {
    var c := Exec(b, steps);
    CreatedInv(b);
    RunKeepsInv(b, steps);
    RunKeepsSkips(b, steps);
    RunKeepsParents(b, steps);
    assert Parents(c.items)[s] == c.items[s].after;
    if c.items[s].after.Some? {
      var p := c.items[s].after.value;
      assert p in Parents(c.items) && p < s;
      assert !Blocked(c.items, c.items[s].after);
      assert c.items[p].status == Done;
    }
    if Claimable(c, s) {
      var earlier := set t | t in Ready(c, {}) && t < s;
      forall t: int ensures t !in earlier {}
      Collections.NoMembers(earlier);
    }
  }

  /** Only the release of a fourth claim leaves a queued row with its attempts used up. */
  lemma ExhaustedOnlyByRelease(b: Batch, step: Step, s: int)
    requires s in b.items && !(b.items[s].status == Queued && b.items[s].attempts == MAX_ATTEMPTS)
    requires Apply(b, step).items[s].status == Queued && Apply(b, step).items[s].attempts == MAX_ATTEMPTS
    ensures step.Release? && s in Releasable(b.items, step.worker, step.ids) && b.items[s].attempts == MAX_ATTEMPTS
  {
    RowMoves(b, step, s);
  }

  // ---------------------------------------------------------------- hand-outs

  ghost predicate HandsOutAt(b: Batch, steps: seq<Step>, k: nat, s: int)
    requires k < |steps|
  {
    HandsOut(Exec(b, steps[..k]), steps[k], s)
  }

  ghost predicate ReturnsAt(b: Batch, steps: seq<Step>, k: nat, s: int)
    requires k < |steps|
  {
    Returns(Exec(b, steps[..k]), steps[k], s)
  }

  /** A return through release was made under the tag of the worker that was handed the row. */
  ghost predicate ReturnedFrom(b: Batch, steps: seq<Step>, i: nat, k: nat, s: int)
    requires i < |steps| && k < |steps|
  {
    ReturnsAt(b, steps, k, s) && (steps[k].Release? && steps[i].Claim? ==> steps[k].worker == steps[i].worker)
  }

  predicate Held(x: Item, worker: Option<string>)
  {
    x.status == Done || x.status == Failed || (x.status == Running && x.claimedBy == worker)
  }

  lemma HeldStep(b: Batch, step: Step, s: int, worker: Option<string>)
    requires s in b.items && Held(b.items[s], worker)
    ensures s in Apply(b, step).items
    ensures Held(Apply(b, step).items[s], worker) || (Returns(b, step, s) && (step.Release? ==> step.worker == worker))
  {
    RowMoves(b, step, s);
  }

  ghost predicate HeldAt(b: Batch, steps: seq<Step>, m: nat, s: int, worker: Option<string>)
    requires m <= |steps|
  {
    s in Exec(b, steps[..m]).items && Held(Exec(b, steps[..m]).items[s], worker)
  }

  lemma HeldAfterHandOut(b: Batch, steps: seq<Step>, i: nat, s: int)
    requires s in b.items && i < |steps| && HandsOutAt(b, steps, i, s)
    ensures HeldAt(b, steps, i + 1, s, steps[i].worker)
  {
    RunKeepsParents(b, steps[..i]);
    ExecNext(b, steps, i);
    RowMoves(Exec(b, steps[..i]), steps[i], s);
  }

  lemma HeldNext(b: Batch, steps: seq<Step>, i: nat, m: nat, s: int)
    requires i < m < |steps| && steps[i].Claim?
    requires HeldAt(b, steps, m, s, steps[i].worker)
    ensures HeldAt(b, steps, m + 1, s, steps[i].worker) || ReturnedFrom(b, steps, i, m, s)
  {
    ExecNext(b, steps, m);
    HeldStep(Exec(b, steps[..m]), steps[m], s, steps[i].worker);
  }

  /**
    After a hand-out at step `i`, until the row is returned it stays with its claimer, or it is
    done, or it failed: recovery never puts it back in the queue.
   */
  lemma {:induction false} HeldUntilReturned(b: Batch, steps: seq<Step>, i: nat, m: nat, s: int)
    requires s in b.items && i < m <= |steps|
    requires HandsOutAt(b, steps, i, s)
    ensures (exists k :: i < k < m && ReturnedFrom(b, steps, i, k, s)) || HeldAt(b, steps, m, s, steps[i].worker)
    decreases m
  {
    if m == i + 1 {
      HeldAfterHandOut(b, steps, i, s);
    } else {
      HeldUntilReturned(b, steps, i, m - 1, s);
      if HeldAt(b, steps, m - 1, s, steps[i].worker) {
        HeldNext(b, steps, i, m - 1, s);
      }
    }
  }

  /**
    Two hand-outs of one row are always separated by a retryable failure report, a release under
    the claiming worker's tag, or a retry: no row is silently executed twice.
   */
  lemma HandOutsSeparated(b: Batch, steps: seq<Step>, i: nat, j: nat, s: int)
    requires s in b.items && i < j < |steps|
    requires HandsOutAt(b, steps, i, s) && HandsOutAt(b, steps, j, s)
    ensures exists k :: i < k < j && ReturnedFrom(b, steps, i, k, s)
  {
    HeldUntilReturned(b, steps, i, j, s);
  }

  // ---------------------------------------------------------------- leases

  predicate Timed(step: Step)
  {
    step.Claim? || step.Recover?
  }

  /** The database clock never runs backwards. */
  ghost predicate ClockOrdered(steps: seq<Step>)
  {
    forall i, j :: 0 <= i < j < |steps| && Timed(steps[i]) && Timed(steps[j]) ==> steps[i].now <= steps[j].now
  }

  /** Every row running under `worker` holds a lease to `until` at least. */
  ghost predicate LeasedUntil(items: Items, worker: Option<string>, until: int)
  {
    forall s :: s in items && items[s].status == Running && items[s].claimedBy == worker ==>
      items[s].expires.Some? && items[s].expires.value >= until
  }

  lemma ClaimLeases(b: Batch, step: Step)
    requires step.Claim? && step.worker.Some?
    ensures LeasedUntil(Apply(b, step).items, step.worker, step.now + LEASE)
  {
  }

  lemma StepKeepsLeases(b: Batch, step: Step, worker: Option<string>, until: int)
    requires worker.Some? && LeasedUntil(b.items, worker, until)
    requires step.Claim? ==> until <= step.now + LEASE
    ensures LeasedUntil(Apply(b, step).items, worker, until)
  {
    var c := Apply(b, step);
    StepKeepsKeys(b, step);
    forall s | s in c.items && c.items[s].status == Running && c.items[s].claimedBy == worker
      ensures c.items[s].expires.Some? && c.items[s].expires.value >= until
    {
      RowMoves(b, step, s);
    }
  }

  lemma {:induction false} LeasesLast(b: Batch, steps: seq<Step>, i: nat, m: nat)
    requires i < m <= |steps| && ClockOrdered(steps)
    requires steps[i].Claim? && steps[i].worker.Some?
    ensures LeasedUntil(Exec(b, steps[..m]).items, steps[i].worker, steps[i].now + LEASE)
    decreases m
  {
    ExecNext(b, steps, m - 1);
    if i == m - 1 {
      ClaimLeases(Exec(b, steps[..i]), steps[i]);
    } else {
      LeasesLast(b, steps, i, m - 1);
      StepKeepsLeases(Exec(b, steps[..m - 1]), steps[m - 1], steps[i].worker, steps[i].now + LEASE);
    }
  }

  /** The same recovery does fail the row once the lease has run out, whoever holds it. */
  lemma ExpiredLeaseFails(b: Batch, now: int, s: int)
    requires s in b.items && b.items[s].status == Running
    ensures RecoverStep(b, now).items[s].status == Failed <==>
            b.items[s].expires == None || b.items[s].expires.value < now
    ensures RecoverStep(b, now).items[s].status == Failed || RecoverStep(b, now).items[s] == b.items[s]
  {
  }

  lemma LeasedRowSurvives(b: Batch, step: Step, s: int, until: int)
    requires step.Recover? && step.now <= until
    requires s in b.items && LeasedUntil(b.items, b.items[s].claimedBy, until)
    requires b.items[s].status == Running
    ensures s in Apply(b, step).items && Apply(b, step).items[s] == b.items[s]
  {
    ExpiredLeaseFails(b, step.now, s);
  }

  /**
    A worker with a tag that claimed within the last thirty minutes loses no running row to a
    recovery: each of its rows is still running, and still its own, after the step.
   */
  lemma LiveWorkerIsSafe(b: Batch, steps: seq<Step>, i: nat, k: nat, s: int)
    requires i < k < |steps| && ClockOrdered(steps)
    requires steps[i].Claim? && steps[i].worker.Some?
    requires steps[k].Recover? && steps[k].now <= steps[i].now + LEASE
    requires s in Exec(b, steps[..k]).items
    requires Exec(b, steps[..k]).items[s].status == Running && Exec(b, steps[..k]).items[s].claimedBy == steps[i].worker
    ensures s in Exec(b, steps[..k + 1]).items
    ensures Exec(b, steps[..k + 1]).items[s] == Exec(b, steps[..k]).items[s]
  {
    LeasesLast(b, steps, i, k);
    ExecNext(b, steps, k);
    LeasedRowSurvives(Exec(b, steps[..k]), steps[k], s, steps[i].now + LEASE);
  }

  // ---------------------------------------------------------------- termination

  /** Twice the hand-outs left, plus one while the row is open. */
  function Fuel(i: Item): int
  {
    match i.status
    case Queued => 9 - 2 * i.attempts
    case Running => 10 - 2 * i.attempts
    case _ => 0
  }

  ghost function RowFuel(items: Items): int -> int
  {
    s => if s in items then Fuel(items[s]) else 0
  }

  ghost function Measure(b: Batch): int
  {
    Collections.SumOver(b.items.Keys, RowFuel(b.items))
  }

  /** Rows whose status a step changes. */
  function Moved(b: Batch, step: Step): set<int>
  {
    set s | s in b.items && s in Apply(b, step).items && Apply(b, step).items[s].status != b.items[s].status
  }

  /** Item transitions over a whole run. */
  function Transitions(b: Batch, steps: seq<Step>): nat
  {
    if steps == [] then 0
    else Transitions(b, steps[..|steps| - 1]) + |Moved(Exec(b, steps[..|steps| - 1]), steps[|steps| - 1])|
  }

  lemma StepBurnsFuel(b: Batch, step: Step)
    requires AttemptsBounded(b.items) && step != RetryFailed
    ensures Measure(Apply(b, step)) + |Moved(b, step)| <= Measure(b)
  {
    var c := Apply(b, step);
    StepKeepsKeys(b, step);
    forall s | s in b.items.Keys
      ensures RowFuel(c.items)(s) + (if s in Moved(b, step) then 1 else 0) <= RowFuel(b.items)(s)
    {
      RowMoves(b, step, s);
    }
    Collections.SumDrops(b.items.Keys, RowFuel(b.items), RowFuel(c.items), Moved(b, step));
  }

  lemma {:induction false} RunBurnsFuel(b: Batch, steps: seq<Step>)
    requires Inv(b) && RetryFailed !in steps
    ensures Measure(Exec(b, steps)) + Transitions(b, steps) <= Measure(b)
  {
    if steps != [] {
      RunBurnsFuel(b, steps[..|steps| - 1]);
      RunKeepsInv(b, steps[..|steps| - 1]);
      StepBurnsFuel(Exec(b, steps[..|steps| - 1]), steps[|steps| - 1]);
    }
  }

  lemma MeasureBounds(b: Batch)
    requires AttemptsBounded(b.items)
    ensures 0 <= Measure(b) <= 9 * |b.items|
  {
    Collections.SumBounded(b.items.Keys, RowFuel(b.items), 9);
    Collections.SumNonNegative(b.items.Keys, RowFuel(b.items));
    assert |b.items.Keys| == |b.items|;
  }

  /** Between two retries a batch of n rows makes at most 9n row transitions, whatever the workers do. */
  lemma NineTransitionsPerRow(b: Batch, steps: seq<Step>)
    requires Inv(b) && RetryFailed !in steps
    ensures Transitions(b, steps) <= 9 * |b.items|
  {
    RunBurnsFuel(b, steps);
    RunKeepsInv(b, steps);
    MeasureBounds(Exec(b, steps));
    MeasureBounds(b);
  }

  /** Hand-outs of one row over a run. */
  ghost function HandOuts(b: Batch, steps: seq<Step>, s: int): nat
  {
    if steps == [] then 0
    else HandOuts(b, steps[..|steps| - 1], s) +
         if HandsOut(Exec(b, steps[..|steps| - 1]), steps[|steps| - 1], s) then 1 else 0
  }

  /** Without a retry, attempts count hand-outs exactly, so no row is handed out more than four times. */
  lemma {:induction false} FourHandOutsPerRow(b: Batch, steps: seq<Step>, s: int)
    requires Inv(b) && s in b.items && RetryFailed !in steps
    ensures s in Exec(b, steps).items
    ensures Exec(b, steps).items[s].attempts == b.items[s].attempts + HandOuts(b, steps, s)
    ensures HandOuts(b, steps, s) <= MAX_ATTEMPTS - b.items[s].attempts
  {
    RunKeepsInv(b, steps);
    RunKeepsParents(b, steps);
    if steps != [] {
      FourHandOutsPerRow(b, steps[..|steps| - 1], s);
      RowMoves(Exec(b, steps[..|steps| - 1]), steps[|steps| - 1], s);
    }
  }

  // ---------------------------------------------------------------- without well-formedness

  /** Rows that wait only for each other, or for rows that do not exist. */
  ghost predicate WaitsForever(items: Items, waiting: set<int>)
  {
    forall s :: s in waiting && s in items ==>
      items[s].after.Some? && (items[s].after.value in waiting || items[s].after.value !in items)
  }

  /** A dependency cycle, or a dependency on a row that was never stored, wedges its rows in every run. */
  lemma {:induction false} WaitersNeverStart(b: Batch, steps: seq<Step>, waiting: set<int>, s: int)
    requires JobCreate.IsCreated(b) && WaitsForever(b.items, waiting)
    requires s in waiting && s in b.items
    ensures s in Exec(b, steps).items && !Started(Exec(b, steps).items[s].status)
    decreases |steps|
  {
    RunKeepsParents(b, steps);
    if steps != [] {
      var before := steps[..|steps| - 1];
      var c := Exec(b, before);
      WaitersNeverStart(b, before, waiting, s);
      RunKeepsParents(b, before);
      assert Parents(c.items)[s] == Parents(b.items)[s];
      var p: int := b.items[s].after.value;
      if p in waiting && p in b.items {
        WaitersNeverStart(b, before, waiting, p);
      }
      RowMoves(c, steps[|steps| - 1], s);
      assert !ParentDone(c.items, c.items[s].after);
    }
  }
}
