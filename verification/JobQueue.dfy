/**
  The queue handlers as methods over one stored batch.  Each method performs its handler's
  statements in order and is proved to have exactly the effect of the matching step.
 */
module JobQueue {
  import opened Wrappers
  import opened JobBatch
  import Collections
  import JobCreate

  const WORKER_LENGTH := 64
  const NOT_RUNNING := "Item not found or not running"

  /** The worker id as a release compares it. */
  function ReleaseTag(workerId: Option<string>): Option<string>
  {
    match workerId
    case None => None
    case Some(w) => Some(if |w| <= WORKER_LENGTH then w else w[..WORKER_LENGTH])
  }

  /** The worker id as a claim stores it: cut to 64 characters, and null when empty or missing. */
  function ClaimTag(workerId: Option<string>): Option<string>
  {
    if workerId.None? || workerId.value == "" then None else ReleaseTag(workerId)
  }

  /** A claimer with a non-empty id can release what it claimed; any other caller's release matches no claim of its own. */
  lemma TagsAgree(workerId: Option<string>)
    ensures ClaimTag(workerId) == ReleaseTag(workerId) <==> workerId != Some("")
    ensures ClaimTag(workerId) != Some("")
  {
  }

  /** What finalizing a batch replies: the verdict it gets, or nothing. */
  function Verdict(b: Batch): Option<BatchStatus>
  {
    if b.status == Active && Settled(b.items) then Some(FinalizeStep(b).status) else None
  }

  ghost predicate Ascending(rows: seq<int>)
  {
    forall i, j :: 0 <= i < j < |rows| ==> rows[i] < rows[j]
  }

  /** ORDER BY seq. */
  method BySeq(rows: set<int>) returns (ordered: seq<int>)
    ensures Ascending(ordered) && forall s :: s in ordered <==> s in rows
  {
    ordered := [];
    var left := rows;
    while left != {}
      invariant left <= rows && Ascending(ordered)
      invariant forall s :: s in ordered <==> s in rows && s !in left
      invariant forall s, t :: s in ordered && t in left ==> s < t
      decreases |left|
    {
      ghost var least := Collections.Least(left);
      assert least in left && forall t :: t in left ==> least <= t;
      var s :| s in left && forall t :: t in left ==> s <= t;
      assert forall k :: 0 <= k < |ordered| ==> ordered[k] in ordered;
      ordered := ordered + [s];
      left := left - {s};
    }
  }

  /** A failure's reply: the row is queued again, or it is failed with its dependents skipped. */
  datatype FailReply = Retried(attempts: int) | GaveUp(skipped: nat, finalStatus: Option<BatchStatus>)

  class StoredBatch {
    var status: BatchStatus
    var total: int
    var doneCount: int
    var failedCount: int
    var skippedCount: int
    var items: Items

    /** The header and item rows as one value. */
    ghost function View(): Batch
      reads this
    {
      Batch(status, total, doneCount, failedCount, skippedCount, items)
    }

    /** INSERT the header with the payload's length, INSERT the rows, then correct the total. */
    constructor (payload: seq<JobCreate.NewItem>)
      ensures View() == Batch(Pending, |JobCreate.Rows(payload)|, 0, 0, 0, JobCreate.Rows(payload))
    {
      status, doneCount, failedCount, skippedCount := Pending, 0, 0, 0;
      total := |payload|;
      items := JobCreate.Rows(payload);
      new;
      total := |items|;
    }

    /** `finalizeBatch`: flip a running batch with nothing queued or running to done or partial. */
    method FinalizeBatch() returns (flipped: Option<BatchStatus>)
      modifies this
      ensures View() == FinalizeStep(old(View()))
      ensures flipped == Verdict(old(View()))
    {
      flipped := None;
      if status == Active && Settled(items) {
        status := if failedCount + skippedCount > 0 then Partial else Finished;
        flipped := Some(status);
      }
    }

    /** `ai:batch-claim`. */
    method BatchClaim(now: int, limit: int, workerId: Option<string>, locked: set<int>) returns (handed: seq<int>)
      modifies this
      ensures View() == ClaimStep(old(View()), now, limit, ClaimTag(workerId), locked)
      ensures Ascending(handed) && forall s :: s in handed <==> s in Picked(old(View()), limit, locked)
    {
      var worker := ClaimTag(workerId);
      var header := Batch(status, total, doneCount, failedCount, skippedCount, items);
      var picked := Picked(header, limit, locked);
      items := map s | s in items :: ClaimItem(items[s], s in picked, now, worker);
      if status == Pending {
        status := Active;
      }
      handed := BySeq(picked);
    }

    /** `ai:batch-item-done`. */
    method BatchItemDone(s: int) returns (reply: Result<Option<BatchStatus>>)
      modifies this
      ensures View() == if reply.Ok? then FinalizeStep(DoneStep(old(View()), s)) else old(View())
      ensures reply.Ok? <==> IsRunning(old(View()), s)
      ensures reply.Ok? ==> reply.value == Verdict(DoneStep(old(View()), s))
      ensures reply.Err? ==> reply.error == NOT_RUNNING
    {
      if s !in items || items[s].status != Running {
        return Err(NOT_RUNNING);
      }
      items := Update(items, {s}, (i: Item) => i.(status := Done));
      doneCount := doneCount + 1;
      var flipped := FinalizeBatch();
      reply := Ok(flipped);
    }

    /** `ai:batch-item-fail`. */
    method BatchItemFail(s: int, retryable: bool) returns (reply: Result<FailReply>)
      modifies this
      ensures reply.Ok? <==> IsRunning(old(View()), s)
      ensures reply.Err? ==> View() == old(View()) && reply.error == NOT_RUNNING
      ensures reply.Ok? && Requeues(old(View()), s, retryable) ==>
                reply.value == Retried(old(items)[s].attempts) && View() == FailStep(old(View()), s, retryable)
      ensures reply.Ok? && !Requeues(old(View()), s, retryable) ==>
                reply.value == GaveUp(|CutOff(old(items), {s})|, Verdict(FailStep(old(View()), s, retryable))) &&
                View() == FinalizeStep(FailStep(old(View()), s, retryable))
    {
      if s !in items || items[s].status != Running {
        return Err(NOT_RUNNING);
      }
      if retryable && items[s].attempts < MAX_ATTEMPTS {
        var attempts := items[s].attempts;
        items := Update(items, {s}, (i: Item) => i.(status := Queued));
        return Ok(Retried(attempts));
      }
      var skipped := |CutOff(items, {s})|;
      items := Cascade(items, {s});
      failedCount := failedCount + 1;
      skippedCount := skippedCount + skipped;
      var finalStatus := FinalizeBatch();
      reply := Ok(GaveUp(skipped, finalStatus));
    }

    /** `ai:batch-set-status`. */
    method BatchSetStatus(target: Target) returns (reply: Result<nat>)
      modifies this
      ensures View() == SetStatusStep(old(View()), target)
      ensures reply.Ok? <==> Allowed(old(status), target)
      ensures reply.Ok? ==> reply.value == if target == ToCancelled then |WithStatus(old(items), Queued)| else 0
    {
      if !Allowed(status, target) {
        return Err("Batch not found or transition not allowed");
      }
      match target {
        case ToPaused => status := Paused;
        case ToActive => status := Active;
        case ToCancelled => status := Cancelled;
      }
      var skipped := 0;
      if target == ToCancelled {
        var parked := WithStatus(items, Queued);
        items := Update(items, parked, (i: Item) => i.(status := Skipped));
        skipped := |parked|;
        skippedCount := skippedCount + skipped;
      }
      reply := Ok(skipped);
    }

    /** The two row updates of a retry: requeue the failed rows, then un-skip what that unblocks. */
    method RequeueRows(failed: set<int>) returns (revived: set<int>)
      requires failed == WithStatus(items, Failed)
      modifies this`items
      ensures items == RetryItems(old(items))
      ensures revived == RetryRevives(old(items))
    {
      items := Update(items, failed, Fresh);
      revived := Revived(items);
      items := Update(items, revived, Fresh);
    }

    /** The header update of a retry, which only partial and paused batches take. */
    method ReopenHeader(requeued: nat, unskipped: nat)
      modifies this`status, this`failedCount, this`skippedCount
      ensures CountsRetry(old(status)) ==>
                status == Active && failedCount == old(failedCount) - requeued && skippedCount == old(skippedCount) - unskipped
      ensures !CountsRetry(old(status)) ==>
                status == old(status) && failedCount == old(failedCount) && skippedCount == old(skippedCount)
    {
      if status == Partial || status == Paused {
        status := Active;
        failedCount := failedCount - requeued;
        skippedCount := skippedCount - unskipped;
      }
    }

    /** The three updates of a retry that found failed rows. */
    method RetryRows(failed: set<int>) returns (unskipped: nat)
      requires failed == WithStatus(items, Failed) && failed != {}
      modifies this
      ensures View() == RetryFailedStep(old(View()))
      ensures unskipped == |RetryRevives(old(items))|
    {
      var revived := RequeueRows(failed);
      unskipped := |revived|;
      ReopenHeader(|failed|, unskipped);
      ghost var after := RetryFailedStep(old(View()));
      assert items == after.items;
      assert status == after.status;
      assert total == after.total && doneCount == after.doneCount;
      assert failedCount == after.failedCount;
      assert skippedCount == after.skippedCount;
    }

    /** `ai:batch-retry-failed`: the reply counts the rows requeued and the rows un-skipped. */
    method BatchRetryFailed() returns (reply: Result<(nat, nat)>)
      modifies this
      ensures View() == RetryFailedStep(old(View()))
      ensures reply.Ok? <==> WithStatus(old(items), Failed) != {}
      ensures reply.Ok? ==> reply.value == (|WithStatus(old(items), Failed)|, |RetryRevives(old(items))|)
    {
      var failed := WithStatus(items, Failed);
      if failed == {} {
        return Err("No failed items to retry");
      }
      var unskipped := RetryRows(failed);
      reply := Ok((|failed|, unskipped));
    }

    /** The header update of a recovery, which pending, running and paused batches take. */
    method CountRecovery(failed: nat, skipped: nat) returns (recovered: (nat, nat))
      modifies this`failedCount, this`skippedCount
      ensures CountsRecovery(status) ==>
                failedCount == old(failedCount) + failed && skippedCount == old(skippedCount) + skipped && recovered == (failed, skipped)
      ensures !CountsRecovery(status) ==>
                failedCount == old(failedCount) && skippedCount == old(skippedCount) && recovered == (0, 0)
    {
      recovered := (0, 0);
      if status == Pending || status == Active || status == Paused {
        failedCount := failedCount + failed;
        skippedCount := skippedCount + skipped;
        recovered := (failed, skipped);
      }
    }

    /** The one statement of a recovery: stale rows, their dependents, and the header. */
    method RecoverRows(now: int) returns (recovered: (nat, nat))
      modifies this
      ensures View() == RecoverStep(old(View()), now)
      ensures recovered == if CountsRecovery(old(status)) then (|Stale(old(items), now)|, |CutOff(old(items), Stale(old(items), now))|) else (0, 0)
    {
      var stale := Stale(items, now);
      recovered := CountRecovery(|stale|, |CutOff(items, stale)|);
      items := Cascade(items, stale);
    }

    /** `ai:batch-recover`: the reply counts what the header update counted. */
    method BatchRecover(now: int) returns (recovered: (nat, nat), finalStatus: Option<BatchStatus>)
      modifies this
      ensures finalStatus == Verdict(RecoverStep(old(View()), now))
      ensures View() == FinalizeStep(RecoverStep(old(View()), now))
      ensures recovered == if CountsRecovery(old(status)) then (|Stale(old(items), now)|, |CutOff(old(items), Stale(old(items), now))|) else (0, 0)
    {
      recovered := RecoverRows(now);
      finalStatus := FinalizeBatch();
    }

    /** `ai:batch-release`. */
    method BatchRelease(workerId: Option<string>, ids: seq<int>) returns (reply: Result<nat>)
      modifies this
      ensures reply.Ok? <==> |ids| <= CLAIM_LIMIT
      ensures View() == if reply.Ok? then ReleaseStep(old(View()), ReleaseTag(workerId), set s | s in ids) else old(View())
      ensures reply.Ok? ==> reply.value == |Releasable(old(items), ReleaseTag(workerId), set s | s in ids)|
    {
      if |ids| > CLAIM_LIMIT {
        return Err("too many itemIds");
      }
      var released := Releasable(items, ReleaseTag(workerId), set s | s in ids);
      items := Update(items, released, (i: Item) => i.(status := Queued, claimedBy := None, expires := None));
      reply := Ok(|released|);
    }
  }

  /** `ai:batch-create`. */
  method BatchCreate(payload: seq<JobCreate.NewItem>) returns (reply: Result<StoredBatch>)
    ensures reply.Ok? <==> JobCreate.Create(payload).Ok?
    ensures reply.Ok? ==> fresh(reply.value) && reply.value.View() == JobCreate.Create(payload).value
    ensures reply.Err? ==> reply.error == JobCreate.Create(payload).error
  {
    match JobCreate.Create(payload) {
      case Err(error) => reply := Err(error);
      case Ok(_) =>
        var stored := new StoredBatch(payload);
        reply := Ok(stored);
    }
  }
}
