/** What each queue handler does to the header and the rows, with the numbers the program gives; and what a pause holds. */
module JobRules {
  import opened Wrappers
  import opened JobBatch
  import opened JobInvariants
  import opened JobRuns
  import JobCreate
  import JobQueue

  // ---------------------------------------------------------------- pause, resume, cancel

  /** The transitions there are; any other request leaves the batch as it is. */
  lemma AllowedIff(b: Batch, target: Target)
    ensures Allowed(b.status, target) <==>
            (b.status, target) in
              {(Pending, ToPaused), (Active, ToPaused), (Paused, ToActive),
               (Pending, ToCancelled), (Active, ToCancelled), (Paused, ToCancelled)}
    ensures !Allowed(b.status, target) ==> SetStatusStep(b, target) == b
  {
  }

  /** Pausing and resuming write the header's status and nothing else. */
  lemma PauseEffect(b: Batch)
    ensures b.status == Pending || b.status == Active ==> SetStatusStep(b, ToPaused) == b.(status := Paused)
    ensures b.status == Paused ==> SetStatusStep(b, ToActive) == b.(status := Active)
  {
  }

  /** Cancelling turns the queued rows to skipped, and counts them; every other row goes on as it is. */
  lemma CancelEffect(b: Batch, s: int)
    requires b.status == Pending || b.status == Active || b.status == Paused
    ensures var c := SetStatusStep(b, ToCancelled);
            && c == b.(status := Cancelled, skippedCount := c.skippedCount, items := c.items)
            && c.skippedCount == b.skippedCount + |set t | t in b.items && b.items[t].status == Queued|
            && c.items.Keys == b.items.Keys
            && (s in b.items ==> c.items[s] == if b.items[s].status == Queued then b.items[s].(status := Skipped) else b.items[s])
  {
    var queued := set t | t in b.items && b.items[t].status == Queued;
    assert queued == WithStatus(b.items, Queued);
  }

  /** A step that neither resumes nor cancels, in either of the two ways a batch is resumed. */
  predicate KeepsPause(step: Step)
  {
    step != SetStatus(ToActive) && step != SetStatus(ToCancelled) && step != RetryFailed
  }

  /** A claim on a paused batch hands nothing out, and starts nothing. */
  lemma PausedHandsOutNothing(b: Batch, now: int, limit: int, worker: Option<string>, locked: set<int>, s: int)
    requires b.status == Paused
    ensures Picked(b, limit, locked) == {} && ClaimStep(b, now, limit, worker, locked).status == Paused
    ensures var c := ClaimStep(b, now, limit, worker, locked);
            s in b.items ==> s in c.items && c.items[s].status == b.items[s].status
  {
    forall t: int ensures t !in Picked(b, limit, locked) {}
  }

  lemma PausedStep(b: Batch, step: Step)
    requires b.status == Paused && KeepsPause(step)
    ensures Apply(b, step).status == Paused
  {
  }

  /** However a run goes on after a pause, until it is resumed or cancelled the batch stays paused, with no verdict, and no claim hands anything out. */
  lemma {:induction false} PauseHolds(b: Batch, steps: seq<Step>, limit: int, locked: set<int>)
    requires b.status == Pending || b.status == Active
    requires forall k :: 0 <= k < |steps| ==> KeepsPause(steps[k])
    ensures var c := Exec(Apply(b, SetStatus(ToPaused)), steps);
            c.status == Paused && Picked(c, limit, locked) == {} && JobQueue.Verdict(c) == None && FinalizeStep(c) == c
  {
    if steps != [] {
      PauseHolds(b, steps[..|steps| - 1], limit, locked);
      PausedStep(Exec(Apply(b, SetStatus(ToPaused)), steps[..|steps| - 1]), steps[|steps| - 1]);
    }
    PausedHandsOutNothing(Exec(Apply(b, SetStatus(ToPaused)), steps), 0, limit, None, locked, 0);
  }

  /** Meanwhile a running row may still complete. */
  lemma PausedRowCompletes(b: Batch, s: int)
    requires b.status == Paused && IsRunning(b, s)
    ensures var c := DoneStep(b, s);
            c.status == Paused && s in c.items && c.items[s] == b.items[s].(status := Done) && c.doneCount == b.doneCount + 1
  {
  }

  /** A resumed batch has for claiming exactly the queued rows with attempts left that wait for nothing or for a done row. */
  lemma ResumeRestores(b: Batch, locked: set<int>, s: int)
    requires b.status == Paused
    ensures s in Ready(SetStatusStep(b, ToActive), locked) <==>
            && s in b.items && s !in locked && b.items[s].status == Queued && b.items[s].attempts < 4
            && (b.items[s].after.Some? ==>
                  b.items[s].after.value in b.items && b.items[b.items[s].after.value].status == Done)
  {
  }

  /** Pausing and resuming at once changes no row, no counter and nothing that could be claimed. */
  lemma PauseThenResume(b: Batch, locked: set<int>)
    requires b.status == Pending || b.status == Active
    ensures var c := SetStatusStep(SetStatusStep(b, ToPaused), ToActive);
            c == b.(status := Active) && Ready(c, locked) == Ready(b, locked)
  {
    var c := SetStatusStep(SetStatusStep(b, ToPaused), ToActive);
    forall s: int ensures s in Ready(c, locked) <==> s in Ready(b, locked) {}
  }

  // ---------------------------------------------------------------- claims

  /** What a claim may hand out: at most three attempts so far, a pending or running batch, the parent done. */
  lemma ReadyIff(b: Batch, locked: set<int>, s: int)
    ensures s in Ready(b, locked) <==>
            && (b.status == Pending || b.status == Active)
            && s in b.items && s !in locked && b.items[s].status == Queued && b.items[s].attempts < 4
            && (b.items[s].after.Some? ==>
                  b.items[s].after.value in b.items && b.items[b.items[s].after.value].status == Done)
  {
  }

  /** How many rows a claim asks for: ten unless told one to nine, and one for a negative number. */
  function Asked(limit: int): nat
  {
    if limit == 0 || limit > 10 then 10 else if limit < 0 then 1 else limit
  }

  /** A claim hands out as many of them as it asks for, or all, least seq first. */
  lemma ClaimSize(b: Batch, limit: int, locked: set<int>)
    ensures |Picked(b, limit, locked)| == if |Ready(b, locked)| < Asked(limit) then |Ready(b, locked)| else Asked(limit)
    ensures Picked(b, limit, locked) <= Ready(b, locked)
    ensures forall s, t :: s in Picked(b, limit, locked) && t in Ready(b, locked) && t < s ==> t in Picked(b, limit, locked)
  {
    PickedAreLeast(Ready(b, locked), Take(limit));
  }

  /** A row handed out runs for the claimer, once more tried, leased for thirty minutes if the claimer has an id; the claimer's other running rows are leased anew. */
  lemma ClaimEffect(b: Batch, now: int, limit: int, worker: Option<string>, locked: set<int>, s: int)
    requires s in b.items
    ensures var i, c := b.items[s], ClaimStep(b, now, limit, worker, locked);
            && s in c.items
            && (s in Picked(b, limit, locked) ==>
                  c.items[s] == Item(i.after, Running, i.attempts + 1, worker, if worker.Some? then Some(now + 1_800_000) else None))
            && (s !in Picked(b, limit, locked) && i.status == Running && worker.Some? && i.claimedBy == worker ==>
                  c.items[s] == i.(expires := Some(now + 1_800_000)))
            && (s !in Picked(b, limit, locked) && !(i.status == Running && worker.Some? && i.claimedBy == worker) ==> c.items[s] == i)
            && c == b.(status := if b.status == Pending then Active else b.status, items := c.items)
  {
  }

  // ---------------------------------------------------------------- reports

  /** A completion reported for a running row marks it done and counts it; any other report changes nothing. */
  lemma DoneEffect(b: Batch, s: int, t: int)
    requires t in b.items
    ensures s in b.items && b.items[s].status == Running ==>
              var c := DoneStep(b, s);
              && c == b.(doneCount := b.doneCount + 1, items := c.items)
              && t in c.items && c.items[t] == if t == s then b.items[t].(status := Done) else b.items[t]
    ensures !(s in b.items && b.items[s].status == Running) ==> DoneStep(b, s) == b
  {
  }

  /** A retryable failure of a row tried at most three times queues it again, as it is, and counts nothing. */
  lemma RetryableReport(b: Batch, s: int, t: int)
    requires s in b.items && b.items[s].status == Running && b.items[s].attempts < 4 && t in b.items
    ensures var c := FailStep(b, s, true);
            c == b.(items := c.items) && t in c.items && c.items[t] == if t == s then b.items[t].(status := Queued) else b.items[t]
  {
  }

  /** Any other failure of a running row is final: the row is failed and counted, whatever hangs on it is cut off. */
  lemma FinalReport(b: Batch, s: int, retryable: bool, t: int)
    requires s in b.items && b.items[s].status == Running && (!retryable || b.items[s].attempts >= 4) && t in b.items
    ensures var c := FailStep(b, s, retryable);
            && c == b.(failedCount := b.failedCount + 1, skippedCount := b.skippedCount + |CutOff(b.items, {s})|, items := c.items)
            && t in c.items && c.items[s].status == Failed
            && (t != s && t in CutOff(b.items, {s}) ==> c.items[t] == b.items[t].(status := Skipped))
            && (t != s && t !in CutOff(b.items, {s}) ==> c.items[t] == b.items[t])
  {
  }

  /** A release queues the rows named that run under the caller's tag, taking off claimer and lease and leaving the attempts. */
  lemma ReleaseEffect(b: Batch, worker: Option<string>, ids: set<int>, t: int)
    requires t in b.items
    ensures var i, c := b.items[t], ReleaseStep(b, worker, ids);
            && c == b.(items := c.items) && t in c.items
            && c.items[t] == if t in ids && i.status == Running && worker.Some? && i.claimedBy == worker
                             then Item(i.after, Queued, i.attempts, None, None) else i
  {
  }

  /** A retry reopens a partial or paused batch that has a failed row; no other header changes. */
  lemma RetryHeader(b: Batch)
    ensures RetryFailedStep(b).status ==
            if (exists s :: s in b.items && b.items[s].status == Failed) && (b.status == Partial || b.status == Paused) then Active else b.status
  {
    if s :| s in b.items && b.items[s].status == Failed {
      assert s in WithStatus(b.items, Failed);
    } else {
      forall s: int ensures s !in WithStatus(b.items, Failed) {}
    }
  }

  // ---------------------------------------------------------------- verdicts

  /** A verdict is given exactly to a running batch with nothing queued or running: done if nothing is counted as failed or skipped, else partial. */
  lemma VerdictIs(b: Batch)
    ensures JobQueue.Verdict(b) ==
            if b.status == Active && forall s :: s in b.items ==> b.items[s].status in {Done, Failed, Skipped}
            then Some(if b.failedCount + b.skippedCount > 0 then Partial else Finished) else None
    ensures FinalizeStep(b) == if JobQueue.Verdict(b).Some? then b.(status := JobQueue.Verdict(b).value) else b
  {
    if Settled(b.items) {
      forall s | s in b.items ensures b.items[s].status in {Done, Failed, Skipped} {}
    }
  }

  // ---------------------------------------------------------------- tags

  /** Worker ids that agree in their first 64 characters are one worker; a shorter id is itself. */
  lemma TagIs(w: string)
    ensures w != "" ==> JobQueue.ClaimTag(Some(w)) == Some(if |w| <= 64 then w else w[..64])
    ensures JobQueue.ReleaseTag(Some(w)) == Some(if |w| <= 64 then w else w[..64])
    ensures JobQueue.ClaimTag(Some("")) == None && JobQueue.ClaimTag(None) == None
  {
  }

  // ---------------------------------------------------------------- keys

  /** The character at a place of a key, if there is one. */
  function At(key: string, p: nat): Option<char>
  {
    if p < |key| then Some(key[p]) else None
  }

  /** The two keys differ within their first 200 characters. */
  ghost predicate Differ(a: string, b: string)
  {
    exists p: nat :: p < 200 && At(a, p) != At(b, p)
  }

  lemma StoredAt(it: JobCreate.NewItem, p: nat)
    requires p < 200
    ensures |JobCreate.StoredKey(it)| <= 200 && At(JobCreate.StoredKey(it), p) == At(it.key, p)
  {
  }

  lemma SameCharacters(x: string, y: string)
    requires |x| <= 200 && |y| <= 200 && !Differ(x, y)
    ensures x == y
  {
    assert |x| < 200 ==> At(x, |x|) == At(y, |x|);
    assert |y| < 200 ==> At(x, |y|) == At(y, |y|);
    forall p | 0 <= p < |x| ensures x[p] == y[p] {
      assert At(x, p) == At(y, p);
    }
  }

  lemma StoredKeysDiffer(a: JobCreate.NewItem, b: JobCreate.NewItem)
    ensures JobCreate.StoredKey(a) != JobCreate.StoredKey(b) <==> Differ(a.key, b.key)
  {
    forall p: nat | p < 200
      ensures At(JobCreate.StoredKey(a), p) == At(a.key, p) && At(JobCreate.StoredKey(b), p) == At(b.key, p)
    {
      StoredAt(a, p);
      StoredAt(b, p);
    }
    StoredAt(a, 0);
    StoredAt(b, 0);
    if !Differ(a.key, b.key) {
      SameCharacters(JobCreate.StoredKey(a), JobCreate.StoredKey(b));
    }
  }

  /** An entry is stored exactly when its key differs from every earlier one within the first 200 characters. */
  lemma KeptIff(payload: seq<JobCreate.NewItem>, i: nat)
    requires i < |payload|
    ensures i in JobCreate.Rows(payload) <==> forall j :: 0 <= j < i ==> Differ(payload[j].key, payload[i].key)
  {
    forall j | 0 <= j < i
      ensures JobCreate.StoredKey(payload[j]) != JobCreate.StoredKey(payload[i]) <==> Differ(payload[j].key, payload[i].key)
    {
      StoredKeysDiffer(payload[j], payload[i]);
    }
  }
}
