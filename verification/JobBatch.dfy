/**
  The rows of one job batch and the effect of each queue handler on them.

  A batch is its header row together with its item rows, keyed by `seq` (unique within the batch).
  Every handler is one atomic step on these rows; `FinalizeStep` is a step of its own.
 */
module JobBatch {
  import opened Wrappers
  import JobGraph

  const MAX_ATTEMPTS := 4
  const CLAIM_LIMIT := 10
  /** Thirty minutes, in milliseconds. */
  const LEASE := 1_800_000

  datatype ItemStatus = Queued | Running | Done | Failed | Skipped

  /** `Active` and `Finished` are the header values 'running' and 'done'. */
  datatype BatchStatus = Pending | Active | Paused | Finished | Partial | Cancelled

  datatype Item = Item(
    after: Option<int>,
    status: ItemStatus,
    attempts: int,
    claimedBy: Option<string>,
    expires: Option<int>)

  type Items = map<int, Item>

  datatype Batch = Batch(
    status: BatchStatus,
    total: int,
    doneCount: int,
    failedCount: int,
    skippedCount: int,
    items: Items)

  function WithStatus(items: Items, status: ItemStatus): set<int>
  {
    set s | s in items && items[s].status == status
  }

  /** The dependency column, which no handler ever writes. */
  function Parents(items: Items): map<int, Option<int>>
  {
    map s | s in items :: items[s].after
  }

  /** UPDATE of the rows in `hit`. */
  function Update(items: Items, hit: set<int>, change: Item -> Item): Items
  {
    map s | s in items :: if s in hit then change(items[s]) else items[s]
  }

  // ---------------------------------------------------------------- claim

  /** The caller's limit, forced into 1..10; a missing or zero limit means 10. */
  function Take(limit: int): nat
  {
    var wanted := if limit == 0 then CLAIM_LIMIT else limit;
    var capped := if wanted < CLAIM_LIMIT then wanted else CLAIM_LIMIT;
    if capped < 1 then 1 else capped
  }

  /** The dependency test of a claim: no parent, or a parent that is done. */
  predicate ParentDone(items: Items, after: Option<int>)
  {
    after.Some? ==> after.value in items && items[after.value].status == Done
  }

  predicate Claimable(b: Batch, s: int)
  {
    && s in b.items
    && b.items[s].status == Queued
    && b.items[s].attempts < MAX_ATTEMPTS
    && ParentDone(b.items, b.items[s].after)
    && (b.status == Pending || b.status == Active)
  }

  /** Claimable rows that no other transaction has locked (SKIP LOCKED). */
  function Ready(b: Batch, locked: set<int>): set<int>
  {
    set s | s in b.items && Claimable(b, s) && s !in locked
  }

  /** ORDER BY seq LIMIT take. */
  function FirstBySeq(ready: set<int>, take: nat): set<int>
  {
    set s | s in ready && |set t | t in ready && t < s| < take
  }

  function Picked(b: Batch, limit: int, locked: set<int>): set<int>
  {
    FirstBySeq(Ready(b, locked), Take(limit))
  }

  function HandOut(i: Item, now: int, worker: Option<string>): Item
  {
    i.(status := Running,
       attempts := i.attempts + 1,
       claimedBy := worker,
       expires := if worker.None? then None else Some(now + LEASE))
  }

  /** A claim also refreshes the leases the worker already holds. */
  function ClaimItem(i: Item, picked: bool, now: int, worker: Option<string>): Item
  {
    if picked then HandOut(i, now, worker)
    else if i.status == Running && worker.Some? && i.claimedBy == worker then i.(expires := Some(now + LEASE))
    else i
  }

  function ClaimStep(b: Batch, now: int, limit: int, worker: Option<string>, locked: set<int>): Batch
  {
    var picked := Picked(b, limit, locked);
    b.(status := if b.status == Pending then Active else b.status,
       items := map s | s in b.items :: ClaimItem(b.items[s], s in picked, now, worker))
  }

  // ---------------------------------------------------------------- done, fail, recover

  predicate IsRunning(b: Batch, s: int)
  {
    s in b.items && b.items[s].status == Running
  }

  function DoneStep(b: Batch, s: int): Batch
  {
    if IsRunning(b, s)
    then b.(items := Update(b.items, {s}, (i: Item) => i.(status := Done)), doneCount := b.doneCount + 1)
    else b
  }

  /** Every transitive dependent of `roots`, as the recursive query computes it. */
  function Doomed(items: Items, roots: set<int>): set<int>
  {
    var parents := Parents(items);
    JobGraph.Recursive(parents, parents.Keys, JobGraph.Children(parents, parents.Keys, roots))
  }

  /** The queued rows a permanent failure of `roots` turns to skipped. */
  function CutOff(items: Items, roots: set<int>): set<int>
  {
    WithStatus(items, Queued) * Doomed(items, roots)
  }

  /** Fail the rows in `roots` and skip their queued dependents, in one statement. */
  function Cascade(items: Items, roots: set<int>): Items
  {
    var cut := CutOff(items, roots);
    map s | s in items ::
      if s in roots then items[s].(status := Failed)
      else if s in cut then items[s].(status := Skipped)
      else items[s]
  }

  predicate Requeues(b: Batch, s: int, retryable: bool)
  {
    IsRunning(b, s) && retryable && b.items[s].attempts < MAX_ATTEMPTS
  }

  function FailStep(b: Batch, s: int, retryable: bool): Batch
  {
    if !IsRunning(b, s) then b
    else if Requeues(b, s, retryable) then
      b.(items := Update(b.items, {s}, (i: Item) => i.(status := Queued)))
    else
      b.(items := Cascade(b.items, {s}),
         failedCount := b.failedCount + 1,
         skippedCount := b.skippedCount + |CutOff(b.items, {s})|)
  }

  /** Running rows whose lease is missing or has run out. */
  function Stale(items: Items, now: int): set<int>
  {
    set s | s in items && items[s].status == Running && (items[s].expires.None? || items[s].expires.value < now)
  }

  predicate CountsRecovery(status: BatchStatus)
  {
    status == Pending || status == Active || status == Paused
  }

  function RecoverStep(b: Batch, now: int): Batch
  {
    var stale := Stale(b.items, now);
    var counted := CountsRecovery(b.status);
    b.(items := Cascade(b.items, stale),
       failedCount := if counted then b.failedCount + |stale| else b.failedCount,
       skippedCount := if counted then b.skippedCount + |CutOff(b.items, stale)| else b.skippedCount)
  }

  // ---------------------------------------------------------------- pause, resume, cancel

  datatype Target = ToPaused | ToActive | ToCancelled

  predicate Allowed(status: BatchStatus, target: Target)
  {
    match target
    case ToPaused => status == Pending || status == Active
    case ToActive => status == Paused
    case ToCancelled => status == Pending || status == Active || status == Paused
  }

  function SetStatusStep(b: Batch, target: Target): Batch
  {
    if !Allowed(b.status, target) then b
    else match target
      case ToPaused => b.(status := Paused)
      case ToActive => b.(status := Active)
      case ToCancelled =>
        var parked := WithStatus(b.items, Queued);
        b.(status := Cancelled,
           items := Update(b.items, parked, (i: Item) => i.(status := Skipped)),
           skippedCount := b.skippedCount + |parked|)
  }

  // ---------------------------------------------------------------- retry

  function Fresh(i: Item): Item
  {
    i.(status := Queued, attempts := 0)
  }

  /** Skipped rows whose own parent is absent, done or queued: the query's starting rows. */
  function Unblocked(items: Items): set<int>
  {
    set s | s in items && items[s].status == Skipped &&
      (items[s].after.Some? ==>
         items[s].after.value in items &&
         (items[items[s].after.value].status == Done || items[items[s].after.value].status == Queued))
  }

  /** Rows the un-skip query reaches: the starting rows and, through skipped rows only, their dependents. */
  function Revived(items: Items): set<int>
  {
    JobGraph.Recursive(Parents(items), WithStatus(items, Skipped), Unblocked(items))
  }

  function RetryItems(items: Items): Items
  {
    var requeued := Update(items, WithStatus(items, Failed), Fresh);
    Update(requeued, Revived(requeued), Fresh)
  }

  /** How many skipped rows a retry brings back. */
  function RetryRevives(items: Items): set<int>
  {
    Revived(Update(items, WithStatus(items, Failed), Fresh))
  }

  predicate CountsRetry(status: BatchStatus)
  {
    status == Partial || status == Paused
  }

  function RetryFailedStep(b: Batch): Batch
  {
    var failed := WithStatus(b.items, Failed);
    if failed == {} then b
    else if CountsRetry(b.status) then
      b.(status := Active,
         failedCount := b.failedCount - |failed|,
         skippedCount := b.skippedCount - |RetryRevives(b.items)|,
         items := RetryItems(b.items))
    else b.(items := RetryItems(b.items))
  }

  // ---------------------------------------------------------------- release, finalize

  function Releasable(items: Items, worker: Option<string>, ids: set<int>): set<int>
  {
    set s | s in items && s in ids && items[s].status == Running && worker.Some? && items[s].claimedBy == worker
  }

  function ReleaseStep(b: Batch, worker: Option<string>, ids: set<int>): Batch
  {
    b.(items := Update(b.items, Releasable(b.items, worker, ids),
                       (i: Item) => i.(status := Queued, claimedBy := None, expires := None)))
  }

  predicate Settled(items: Items)
  {
    forall s :: s in items ==> items[s].status != Queued && items[s].status != Running
  }

  function FinalizeStep(b: Batch): Batch
  {
    if b.status == Active && Settled(b.items)
    then b.(status := if b.failedCount + b.skippedCount > 0 then Partial else Finished)
    else b
  }

  // ---------------------------------------------------------------- runs

  datatype Step =
    | Claim(now: int, limit: int, worker: Option<string>, locked: set<int>)
    | ItemDone(row: int)
    | ItemFail(row: int, retryable: bool)
    | SetStatus(target: Target)
    | RetryFailed
    | Recover(now: int)
    | Release(worker: Option<string>, ids: set<int>)
    | Finalize

  function Apply(b: Batch, step: Step): Batch
  {
    match step
    case Claim(now, limit, worker, locked) => ClaimStep(b, now, limit, worker, locked)
    case ItemDone(s) => DoneStep(b, s)
    case ItemFail(s, retryable) => FailStep(b, s, retryable)
    case SetStatus(target) => SetStatusStep(b, target)
    case RetryFailed => RetryFailedStep(b)
    case Recover(now) => RecoverStep(b, now)
    case Release(worker, ids) => ReleaseStep(b, worker, ids)
    case Finalize => FinalizeStep(b)
  }

  /** The batch after the steps of a run, in order. */
  function Exec(b: Batch, steps: seq<Step>): Batch
  {
    if steps == [] then b else Apply(Exec(b, steps[..|steps| - 1]), steps[|steps| - 1])
  }
}
