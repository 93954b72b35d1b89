# Verification of the ERP's queue, books and transformations

A Dafny model of the parts of this application whose correctness spans many calls, with proofs about
every run and every input. `dafny verify dfyconfig.toml` checks the whole project.

| files | what they model |
|---|---|
| `JobGraph`, `JobBatch`, `JobCreate` | the AI job queue: the dependency graph and its recursive queries, the rows of a batch, one step per handler, batch creation |
| `JobInvariants`, `JobRuns` | what each step keeps, and what holds over all runs of steps |
| `JobRules` | each handler's effect with the program's numbers, and what a pause holds |
| `JobLimits` | where those promises end: a stranded row, runs that lose count, and a retry in two statements |
| `JobQueue` | the handlers as methods over a stored batch, each proved to perform its step |
| `Books`, `BooksProofs` | journal transactions, tax periods, and the balances read back from posted legs |
| `BooksRules` | what is accepted and refused, what closed periods freeze, and what the VAT totals add up |
| `Supplier` | the supplier balance as a closed expression and as a running statement |
| `StreamDecoder` | the read loop that decodes a streamed completion |
| `StreamMeaning` | which events a stream yields, told from the objects sent |
| `ChatStore` | saving chat sessions in batches of rows, and loading them |
| `ChatMeaning` | what a user gets back, and whose sessions a save or load touches |
| `BackupTables`, `Backup` | company backup and restore, with the program's own table lists and the schema's foreign keys |
| `BackupCascade`, `BackupProofs` | what the deletions of a restore take with them, and what a restore guarantees |
| `BackupCrossings` | two companies whose rows name each other: how that comes about and what it does |
| `Migrations`, `MigrationNames` | the start-up schema sync: file order, one transaction per file, crashes, new releases |
| `Text`, `Collections`, `Wrappers` | splitting text, sums and sets, `Option` and `Result` |

A batch is its header row and a map from `seq` to item row. A run is a sequence of steps; `Exec` is the
state after it, and a statement over `Exec(b, steps)` for all `steps` holds of every reachable state,
whatever the workers do and however their calls interleave. Each handler is one atomic step, and
`finalizeBatch` is a step of its own.

## Where the code and its comments part

These are modelled as the code has them, and each has its exact condition proved.

- **Release keeps the attempt.** The comment at `electron/aiHandler.js:1843-1844` promises a release that uses
  up no attempt, but the claim's increment (line 1451) stays. Four claims, each released, strand the row
  (`FourReleasesStrand`); it then stays queued, and its batch never becomes done or partial, in every run
  without a cancellation (`StrandedForever`). `ExhaustedOnlyByRelease` shows it is the only way there, and
  `Progress` holds exactly for the other rows.
- **Retry and recovery can lose count.** Retry-failed requeues rows in any header state but corrects the
  counters only of partial and paused batches; recovery fails rows in any state but counts only pending,
  running and paused ones. `ConservationIff` shows that the counters stay exact in every state of a run if
  and only if no such uncounted change happens; `RecoveryLosesCount` and `RetryLosesCount` are runs where
  one does.
- **The retry branch of item-fail writes unguarded.** Its check and its UPDATE are two statements.
  `UnguardedRequeue` shows when the second alone has the effect of the whole step. Over runs in which the two
  come apart, a done row stays done if and only if no second statement comes upon one (`DoneStaysIff`);
  `LateReportUndoesDone` is a run that passes every check and ends with a queued row in a batch reported done.
- **The gate's day is not the stored day.** A creation is gated on the first ten characters of the date's
  text (`electron/dbHandler.js:264`) and stored as the instant the whole text denotes (line 1690); a posting is
  gated on the day of the application's clock (lines 286-293). `FrozenIff` shows that a run leaves a filed
  period's legs alone if and only if none of its steps posts an instant inside the period's window;
  `AgreementSuffices` that no step does when the gate looks at the stored instant's day. `OtherZoneThaws` is a
  posting late on December 31, five hours west of the database, that lands in a filed January.
- **Creating checks the period before it inserts.** `createTransaction` checks the period and inserts in
  separate statements. If the insert lands after a filing it did not see, the filed legs survive exactly when
  the transaction is a draft or dated outside the window (`DelayedInsertSafeIff`), and `DelayedInsertCanThaw`
  is a run where they do not.
- **The last day of a ledger window.** The bounds are dates compared with an instant, so postings after
  midnight on the end date are missing from that window's movement although the next window's opening counts
  them. `WindowsTelescope` carries them as an explicit term, so that two adjacent windows meet if and only if
  that term is zero (`WindowsMeetIff`); with every posting at midnight it is (`MidnightWindowsMeet`).
- **Base currency in the supplier list.** The list coalesces the base amount, the statement uses the
  document amount. `StatementEndsOnBalance` gives their difference exactly. The column is NOT NULL with
  default 0, so the fallback to the document amount is never taken for stored rows.
- **Usage in a chunk without a choice is dropped**, although the comment above the code says the final
  chunk's usage is handled (`ChoicelessChunkIsIgnored`).
- **Restored users.** Restore warns that existing users were preserved (`electron/dbHandler.js:7936`). Its own
  statements do skip them, but the schema deletes a company's users with its company row
  (`drizzle/0000_init.sql:1185`) and nulls their branch with a branch. `RestoreKeepsUsersIff` shows when the
  users table is as before: exactly when no user has the company, or its row is not there or not listed, and
  no user sits in a branch of the company that goes. `RestoreLosesUser` is a company whose backup, restored on
  the spot, costs it its user.
- **Companies are not closed off from each other.** A foreign key asks that the row named exists, not whose it
  is, and neither do the handlers that store such columns (`electron/dbHandler.js:4192-4215`, `2481-2493`) nor
  the validation of a restore. A restore therefore may change other companies' rows. `OthersSurviveIff` shows
  that it leaves them all alone if and only if none of them names a row the deletions take; for a full backup
  that is any row of the company (`RoundTripIsolatesIff`). `ForeignTaskIsChanged` is a run in which a task comes
  to name another company's lead and then loses the column to that company's restore.
- **A full backup does not always go through.** `FullBackupGoesThroughIff` gives the exact condition. Besides
  free ids it asks three things. No row from outside may name a row that goes, by a key that forbids it: one
  cash box of another company is enough to have every restore refused (`ForeignCashBoxForbidsRestore`). Rows
  that name rows of their own table, as accounts, product categories and cost centers do, must find them by the
  end of their own chunk of 500: inserting in chunks equals inserting at once only then (`ChunkedIsAtOnceIff`),
  and `LateParentIsRefused` is 501 accounts in an order that fails. And whatever else a row names must be listed
  or still stand, which the company's own users do not (`OwnUsersForbidRestore`).
- **A late file keeps its late place.** A release may add a migration that sorts before one already recorded.
  It is still applied exactly once, but after that one: recorded order is list order if and only if what was
  recorded is a prefix of the new list (`ListOrderIff`).

## Model

| member | source | states |
|---|---|---|
| JobGraph.RecursiveIsReachability | electron/aiHandler.js:1585-1592 | the recursive query, run as a work list until no new row appears, returns exactly the rows that reach a starting row by parent links through allowed rows |
| JobGraph.DoomedAreDescendants | electron/aiHandler.js:1585-1600 | the doomed query returns exactly the rows that have a proper ancestor among the failed ones, at any depth |
| JobGraph.AncestorUnfold | electron/aiHandler.js:1589-1592 | a row's proper ancestors are its parent and its parent's proper ancestors, on any graph, cyclic or not |
| JobCreate.CreateStarts | electron/aiHandler.js:1313-1395 | a payload is accepted exactly when its length is in bounds, every entry is valid, label and ref included, and its columns fit; the created batch is pending with zero counters and all rows queued, unclaimed and unattempted |
| JobCreate.KeptOnce | electron/aiHandler.js:1360-1395 | of the entries with one idempotency key the first is stored and no other |
| JobRules.KeptIff | electron/aiHandler.js:1374-1385 | an entry is stored exactly when its key differs from every earlier one somewhere in the first 200 characters |
| JobCreate.TotalIsDistinctKeys | electron/aiHandler.js:1379-1395 | the stored total is the number of distinct keys, at least one and at most the number of entries sent |
| JobCreate.WellFormedIff | electron/aiHandler.js:1313-1323 | validation does not check dependencies; the stored graph is well formed exactly when every stored waiting entry waits for an earlier stored entry |
| JobQueue.BatchCreate | electron/aiHandler.js:1327-1405 | create either stores the batch that the specification describes, and replies with it, or refuses with its error |
| JobQueue.StoredBatch.constructor | electron/aiHandler.js:1360-1395 | header, rows and the corrected total after the three statements of create |
| JobQueue.StoredBatch.FinalizeBatch | electron/aiHandler.js:1297-1311 | the header flips to done or partial exactly when it is running and nothing is queued or running; the reply is the new status |
| JobQueue.StoredBatch.BatchClaim | electron/aiHandler.js:1411-1490 | leases are refreshed, the least ready rows handed out, and the header started, as in the claim step; the reply lists exactly the rows handed out, in ascending seq order |
| JobQueue.StoredBatch.BatchItemDone | electron/aiHandler.js:1492-1545 | succeeds exactly on a running row; row, counter and header change as in the done step followed by the finalize step; the reply is the verdict the batch got, if it got one |
| JobQueue.StoredBatch.BatchItemFail | electron/aiHandler.js:1549-1622 | requeues the row, replying with its attempts, or fails it and cascades, replying with the number of rows cut off and the batch's verdict, exactly as the fail step says; a row that is not running changes nothing |
| JobQueue.StoredBatch.BatchSetStatus | electron/aiHandler.js:1623-1675 | the transition and the parking of queued rows of the set-status step; refused exactly when the transition is not allowed |
| JobQueue.StoredBatch.RequeueRows | electron/aiHandler.js:1737-1766 | requeueing the failed rows and then un-skipping what that unblocks changes the rows as the retry step says |
| JobQueue.StoredBatch.RetryRows | electron/aiHandler.js:1737-1774 | given the failed rows, the three updates are the retry step; the reply counts the rows revived |
| JobQueue.StoredBatch.BatchRetryFailed | electron/aiHandler.js:1727-1782 | the three updates together are the retry step; refused exactly when no row is failed; the reply counts both groups of rows |
| JobQueue.StoredBatch.RecoverRows | electron/aiHandler.js:1795-1827 | the one statement of a recovery is the recover step |
| JobQueue.StoredBatch.BatchRecover | electron/aiHandler.js:1785-1840 | stale rows fail, their dependents are skipped, counters move only for pending, running and paused batches, then the header is finalized; the reply carries what was counted and the verdict |
| JobQueue.StoredBatch.BatchRelease | electron/aiHandler.js:1848-1879 | the caller's own running rows among the ids return to queued, keeping their attempts; refused exactly for more than ten ids |
| JobQueue.TagsAgree | electron/aiHandler.js:1411-1425 | claim and release cut a worker id to the same tag except for the empty id, which a claim stores as null and a release never matches |
| JobQueue.BySeq | electron/aiHandler.js:1463-1465 | any set of rows is listed in ascending seq order, each row once |
| JobInvariants.PickedAreLeast | electron/aiHandler.js:1426-1440 | a claim takes a prefix of the ready rows by seq, as many as asked for or all of them |
| JobRules.ClaimSize | electron/aiHandler.js:1424-1440 | a claim hands out the least ready rows, ten of them unless told one to nine, one for a negative number, or all there are |
| JobRules.ClaimEffect | electron/aiHandler.js:1446-1462 | a row handed out runs for the claimer with one more attempt and a lease of thirty minutes, the claimer's other running rows are leased anew, and every other row stays |
| JobInvariants.CutOffMeaning | electron/aiHandler.js:1585-1602 | the rows skipped by a failure are exactly the queued rows with a proper ancestor among the failed ones |
| JobInvariants.RevivedMeaning | electron/aiHandler.js:1752-1766 | the rows a retry revives are exactly the skipped rows that climb, through skipped rows only, to one whose parent is absent, done or queued |
| JobInvariants.DoomedAreQueued | electron/aiHandler.js:1585-1602 | when rows that were running fail, everything the query dooms is still queued, so the status filter of the UPDATE drops nothing |
| JobInvariants.StepKeepsRows | electron/aiHandler.js:1411-1879 | every handler keeps attempts within 0..4 and keeps the parent of every running, done or failed row done |
| JobInvariants.StepKeepsSkips | electron/aiHandler.js:1411-1879 | every handler but cancel keeps: a row is skipped exactly when its parent is failed or skipped |
| JobInvariants.StepKeepsInv | electron/aiHandler.js:1297-1879 | the whole invariant is kept by every step from any state that has it |
| JobInvariants.StepCounts | electron/aiHandler.js:1525-1827 | a step changes the counters by exactly what it changes among the rows, and by something else exactly when it loses count |
| JobInvariants.RetryKeepsSkips | electron/aiHandler.js:1737-1766 | a retry of a well-formed batch that was never cancelled leaves no row failed or skipped |
| JobInvariants.StepConservesIff | electron/aiHandler.js:1525-1827 | exact counters stay exact through a step if and only if the step is not an uncounted retry or recovery that changes a row |
| JobInvariants.HeaderEntry | electron/aiHandler.js:1297-1311 | only finalize on a settled batch enters done or partial; done and cancelled are never left; nothing returns to pending |
| JobInvariants.StepKeepsParents | electron/aiHandler.js:1411-1879 | no handler adds or removes a row or rewires a dependency |
| JobInvariants.RowMoves | electron/aiHandler.js:1411-1879 | the only row changes a step can make are the ones listed for that step |
| JobInvariants.UnguardedRequeue | electron/aiHandler.js:1559-1582 | the second statement of the retry branch, run alone, equals the whole step exactly when the row is still running with attempts left or already queued |
| JobRules.RetryableReport | electron/aiHandler.js:1572-1582 | a retryable failure of a row tried at most three times queues it again with its attempts and counts nothing |
| JobRules.FinalReport | electron/aiHandler.js:1584-1616 | any other failure of a running row fails and counts it and skips and counts what it cuts off |
| JobRules.VerdictIs | electron/aiHandler.js:1297-1311 | a verdict is given exactly to a running batch whose rows are all done, failed or skipped, and is done exactly when nothing is counted as failed or skipped |
| JobRules.AllowedIff | electron/aiHandler.js:1631-1647 | the six pairs of header and target that are transitions; any other request changes nothing |
| JobRules.PauseHolds | electron/aiHandler.js:1631-1647 | from a pause on, in every run that neither resumes, retries nor cancels, the batch stays paused, gets no verdict, and no claim hands anything out |
| JobRules.PausedRowCompletes | electron/aiHandler.js:1525-1540 | a row that was running when the batch was paused may still be completed and is counted |
| JobRules.ResumeRestores | electron/aiHandler.js:1428-1437 | after a resume exactly the unlocked queued rows with fewer than four attempts whose parent is absent or done can be claimed |
| JobRules.PauseThenResume | electron/aiHandler.js:1631-1647 | a pause and a resume change no row and no counter, and what could be claimed is the same |
| JobRules.CancelEffect | electron/aiHandler.js:1648-1665 | a cancellation skips and counts the queued rows and leaves all others |
| JobRules.RetryHeader | electron/aiHandler.js:1767-1774 | a retry reopens exactly the partial or paused batches that have a failed row |
| JobRuns.SkipClosure | electron/aiHandler.js:1584-1610 | in every reachable state of a well-formed, never-cancelled batch, a row is skipped exactly when some proper ancestor is failed |
| JobRuns.RunKeepsInv | electron/aiHandler.js:1297-1879 | the invariant holds in every state of every run |
| JobRuns.ConservationIff | electron/aiHandler.js:1525-1827 | the counters equal the row counts in every state of a run if and only if no retry or recovery of the run changes rows without counting them |
| JobRuns.DisciplineKeepsCount | electron/aiHandler.js:1768-1823 | retrying only partial or paused batches and never recovering a cancelled one is enough for exact counters |
| JobRuns.Progress | electron/aiHandler.js:1425-1457 | with nothing running in a pending or running, well-formed, never-cancelled batch, the least queued row is claimable exactly when its attempts are not 4, and then the next claim hands it out |
| JobRuns.ExhaustedOnlyByRelease | electron/aiHandler.js:1862-1874 | only the release of a row on its fourth claim leaves a queued row with attempts used up |
| JobRuns.RetryUndoesCascade | electron/aiHandler.js:1727-1774 | after a retry of a partial, well-formed, never-cancelled batch every row is done or freshly queued, and the header is running exactly when some row was failed |
| JobRuns.RetryZeroesCounters | electron/aiHandler.js:1767-1774 | if the counters were exact too, the header is running and nothing is counted as failed or skipped any more |
| JobRuns.DependencyOrder | electron/aiHandler.js:1427-1439 | in every reachable state each running, done or failed row has no parent or a done parent |
| JobRuns.DoneIsForever | electron/aiHandler.js:1525-1530 | a done row is never changed again by any later step |
| JobRuns.HeldUntilReturned | electron/aiHandler.js:1795-1804 | after a hand-out the row stays with its claimer or is done or failed until it is returned by a retryable failure, a release under the claimer's tag or a retry |
| JobRuns.HandOutsSeparated | electron/aiHandler.js:1426-1457 | two hand-outs of one row always have such a return between them: recovery never re-executes a row silently |
| JobRuns.LiveWorkerIsSafe | electron/aiHandler.js:1795-1804 | a worker with a tag that claimed on the batch within thirty minutes loses no running row to any recovery |
| JobRuns.ExpiredLeaseFails | electron/aiHandler.js:1795-1804 | a recovery fails a running row exactly when its lease is missing or has run out, and otherwise leaves it alone |
| JobRuns.NineTransitionsPerRow | electron/aiHandler.js:1429-1608 | without a retry, a batch of n rows makes at most 9n row transitions |
| JobRuns.FourHandOutsPerRow | electron/aiHandler.js:1429-1451 | without a retry, attempts count hand-outs exactly and no row is handed out more than four times |
| JobRuns.SoundVerdicts | electron/aiHandler.js:1297-1311 | in every run a done header means all rows done and a partial header means nothing queued or running |
| JobRuns.PartialHasCause | electron/aiHandler.js:1297-1311 | with exact counters a partial batch has a failed or a skipped row |
| JobRuns.FinalHeaders | electron/aiHandler.js:1631-1665 | done and cancelled headers keep their status under every run |
| JobRuns.CancelledClaimsNothing | electron/aiHandler.js:1433-1437 | after a cancellation no claim hands anything out |
| JobRuns.LateCompletionsBounded | electron/aiHandler.js:1631-1665 | completions after a cancellation come from, and are at most as many as, the rows running at that moment |
| JobRuns.WaitersNeverStart | electron/aiHandler.js:1313-1323 | rows that wait in a cycle, or for a row never stored, are never started in any run: why well-formedness is asked of the caller |
| JobLimits.FourReleasesStrand | electron/aiHandler.js:1862-1874 | four claims of a new batch's one row, each followed by the release of it, leave the row queued with its attempts used up |
| JobLimits.StrandedForever | electron/aiHandler.js:1425-1457 | such a row, waiting for nothing, is never changed again in any run without a cancellation, and its batch never becomes done or partial |
| JobLimits.RecoveryLosesCount | electron/aiHandler.js:1818-1826 | a run from a new batch, claim without a worker id, cancel, recover, that ends with a failed row counted as zero failures |
| JobLimits.RetryLosesCount | electron/aiHandler.js:1767-1774 | a run from a new batch, claim, cancel, fail, retry, that ends with a queued row counted as one failure |
| JobLimits.DoneStaysIff | electron/aiHandler.js:1559-1582 | over every run in which the retry branch's check and update are separate moves, a row once done is never changed again if and only if no update comes upon a done row |
| JobLimits.LateReportUndoesDone | electron/aiHandler.js:1559-1582 | a run from a new batch, claim, check of a failure report, completion, verdict, then the report's update, in which every update passed its check and the done row is queued again under a done header |
| Books.CompanyBooks.CreateTransaction | electron/dbHandler.js:1649-1705 | written out with its totals, its period scans and its account check, creation refuses in the source's order of checks or appends exactly the requested transaction |
| Books.CompanyBooks.PostTransaction | electron/dbHandler.js:1707-1768 | posting refuses in the source's order of checks or turns exactly that draft to posted; its day is gated on the application's clock |
| Books.CompanyBooks.OpenTaxPeriod | electron/dbHandler.js:3404-3433 | opening refuses an inverted range, a missing country or type, or an overlap, in that order, or appends an open period |
| Books.CompanyBooks.SetPeriodStatus | electron/dbHandler.js:3438-3461 | only the legal transitions change a period; filing stamps it |
| Books.CompanyBooks.AssertPostingPeriodsOpen | electron/dbHandler.js:263-284 | refuses exactly when the text's first ten characters name no day, or name one in a closed or filed tax period or a closed accounting period |
| BooksRules.CreateAcceptedIff | electron/dbHandler.js:1649-1675 | a creation goes through exactly when it has entries balanced within 0.01 on the company's accounts, a date and a known status, and, if posted, a gate day in no closed or filed tax period and no closed accounting period |
| BooksRules.PostAcceptedIff | electron/dbHandler.js:1707-1750 | a draft is posted exactly when its gate day lies in no such period and it has legs with debits, balanced within 0.01 |
| BooksRules.ClosedDayStops | electron/dbHandler.js:266-283 | no posted creation and no posting goes through on a day in a closed or filed tax period or a closed accounting period |
| BooksRules.OpenDayNeverStops | electron/dbHandler.js:266-283 | on any other day a posted creation is refused exactly as the same draft would be |
| BooksRules.OpenAcceptedIff | electron/dbHandler.js:3404-3433 | a tax period is opened exactly when it is a named range that shares no day with another |
| BooksRules.PeriodChangesIff | electron/dbHandler.js:3438-3461 | the six changes of status there are, and that a change touches that period's status and, for a filing, its stamp |
| BooksRules.ClosedYearIsFrozen | electron/dbHandler.js:272-275 | over every run in which an accounting period stays closed and gates look at the stored day, what is posted on its days does not change |
| BooksRules.ClosedPeriodIsFrozen | electron/dbHandler.js:267-270 | the same for a tax period that stays closed or filed, to the last instant of its last day |
| BooksRules.VatRows | electron/dbHandler.js:3476-3501 | an account has a row exactly when it is one of the two and some transaction posted between the two midnights has a leg on it; the row adds up those legs, debits first, credits second |
| BooksRules.VatNetIsMovement | electron/dbHandler.js:3476-3501 | its debits less its credits are the account's ledger movement between the same dates |
| BooksRules.CreateAddsVat | electron/dbHandler.js:1687-1696 | a posted creation dated inside adds its legs to the two totals, and no other creation does |
| BooksRules.PostAddsVat | electron/dbHandler.js:1745-1756 | posting a draft dated inside adds its legs to the two totals, one dated outside nothing |
| Books.EntryTotals | electron/dbHandler.js:1662-1663 | the two accumulated totals are the sums of the debits and of the credits |
| Books.CheckAccounts | electron/dbHandler.js:1669-1674 | comparing the number of distinct named ids with the number found decides whether every named account is the company's |
| BooksProofs.StepThawsIff | electron/dbHandler.js:3476-3501 | one step leaves a filed period's posted legs as they were exactly when it does not post an instant inside its window, and otherwise adds legs |
| BooksProofs.FrozenIff | electron/dbHandler.js:3476-3501 | a run from a filed period leaves its posted legs the same if and only if none of its steps posts into the window |
| BooksProofs.AgreementSuffices | electron/dbHandler.js:263-300 | a posting whose gate looks at the day of its stored instant never goes into a filed period |
| BooksProofs.OtherZoneThaws | electron/dbHandler.js:263-265 | a posting dated late on December 31 in a western zone passes the gate and adds legs to the filed January |
| BooksProofs.FiledPeriodIsFrozen | electron/dbHandler.js:3476-3501 | a filed period keeps its status and dates in every later run, and its VAT totals for any two accounts as long as every posting is gated on the day of its stored instant |
| BooksProofs.DelayedInsertSafeIff | electron/dbHandler.js:263-284 | an insert that lands after its period was filed leaves the filed legs alone exactly when it is a draft or its instant lies outside the window |
| BooksProofs.DelayedInsertCanThaw | electron/dbHandler.js:1668-1700 | a concrete run in which a late insert adds a leg to a filed period |
| BooksProofs.PeriodsStayDisjoint | electron/dbHandler.js:3404-3421 | over every run tax periods stay pairwise disjoint, non-empty, and dated once filed |
| BooksProofs.FindPeriodFinds | electron/dbHandler.js:3388-3400 | the lookup answers a period that covers the day whenever one does, and none otherwise |
| BooksProofs.FindPeriodIsTheOnly | electron/dbHandler.js:3388-3400 | in every run the lookup answers p exactly when p covers the day: the answer is the only covering period |
| BooksProofs.SumsInterchange | electron/dbHandler.js:1394-1409 | summing per account and summing per leg give the same total |
| BooksProofs.StepKeepsSound | electron/dbHandler.js:1662-1754 | every step keeps posted transactions balanced within 0.01 and booked to known accounts |
| BooksProofs.TrialBalanceBounded | electron/dbHandler.js:1394-1409 | for every run, the running balances of all accounts sum to at most 0.01 per posted transaction in absolute value |
| BooksProofs.WindowsTelescope | electron/dbHandler.js:1447-1509 | opening plus movement plus the last day's hours is the opening of the adjacent window, for every journal, account and window |
| BooksProofs.WindowsMeetIff | electron/dbHandler.js:1447-1509 | adjacent windows meet if and only if nothing is posted, net, in the hours after midnight of the end date |
| BooksProofs.MidnightWindowsMeet | electron/dbHandler.js:1447-1509 | when every posting is at midnight, adjacent windows meet exactly |
| BooksProofs.NoonPostingIsDropped | electron/dbHandler.js:1480-1495 | one posting at noon on the last day makes adjacent windows miss its amount |
| BooksProofs.OpenWindowEndsOnBalance | electron/dbHandler.js:1400-1402 | a window without an end date closes on the account's running balance |
| BooksProofs.PartitionSumsToBalance | electron/dbHandler.js:1447-1509 | any partition of time into windows, with the dropped hours, sums to the running balance |
| BooksProofs.MidnightPartition | electron/dbHandler.js:1447-1509 | with every posting at midnight the windows of any partition alone sum to the running balance |
| Supplier.StatementEndsOnBalance | electron/dbHandler.js:6617-6655 | for every set of documents, collation and order of ties, a non-empty statement ends on the computed balance less the currency gap, and so on the computed balance exactly when that gap is zero |
| Supplier.StatementAgreesInOneCurrency | electron/dbHandler.js:6556-6570 | when base amounts are absent or equal the document amounts, the statement ends on the computed balance |
| Supplier.ForeignInvoiceDisagrees | electron/dbHandler.js:6556-6570 | one invoice with a different base amount makes them disagree |
| Supplier.EmptyStatementIsZero | electron/dbHandler.js:6617-6655 | an account without entries has a zero computed balance |
| Supplier.NetIsOrderFree | electron/dbHandler.js:6617-6647 | rearranging the entries does not change their net |
| Supplier.LastWindowIsAll | electron/dbHandler.js:6640-6647 | for the last row of an ordered statement the running-balance window is the whole statement |
| Supplier.RunningBalance | electron/dbHandler.js:6643-6646 | every balance of a statement, not only the last, is the sum of the entries down to its row, and rows that tie share the sum down to the last of them |
| Supplier.OrderedMeans | electron/dbHandler.js:6646 | a statement goes by date, then opening, documents and payments, then number |
| Supplier.InvoiceCounts | electron/dbHandler.js:6560 | a credit invoice that is not cancelled adds its base amount to the computed balance; any other adds nothing |
| Supplier.InvoiceIsListed | electron/dbHandler.js:6628-6631 | it is one more entry of the statement, crediting its total; any other invoice is none |
| Supplier.ReturnIsListed | electron/dbHandler.js:6633-6636 | a posted return is one more entry, debiting its total; any other is none |
| Supplier.VoucherIsListed | electron/dbHandler.js:6638-6641 | a posted payment is one more entry, debiting its amount; any other is none |
| StreamDecoder.CallChatCompletionStream | electron/aiHandler.js:441-498 | however the text is cut into reads, the events and the final usage are those of the whole text's terminated lines |
| StreamDecoder.HandleLines | electron/aiHandler.js:455-490 | the line loop appends each line's events and carries the usage |
| StreamDecoder.HandleLine | electron/aiHandler.js:456-489 | one line's events and the usage carried past it; other lines, the end marker and unparsable payloads yield nothing |
| StreamDecoder.YieldChunk | electron/aiHandler.js:468-488 | one chunk's events in the source's order |
| StreamDecoder.ReadCompletes | electron/aiHandler.js:449-455 | after one more read, the completed lines grow by exactly those of the buffer followed by the read |
| StreamDecoder.UnterminatedTailIsDropped | electron/aiHandler.js:449-455 | a tail without its newline yields no event |
| StreamDecoder.ChoicelessChunkIsIgnored | electron/aiHandler.js:461-466 | a chunk without a choice changes no event and no later usage, anywhere in the stream |
| StreamMeaning.DataLine | electron/aiHandler.js:455-459 | a line carries an object exactly as sent after `data:`, whatever blanks or carriage return stand around it |
| StreamMeaning.ChunkProjections | electron/aiHandler.js:463-493 | a chunk yields its non-empty text, its tool calls, the first signature of delta, chunk and choice, and its finish; one whose tool calls cannot be walked yields its text alone |
| StreamMeaning.ChunkOrder | electron/aiHandler.js:471-493 | within a chunk text comes first, then tool calls, then the signature, then the finish |
| StreamMeaning.StreamProjections | electron/aiHandler.js:441-498 | over a whole stream the texts, tool calls, signatures and finishes are, in order, those of its chunks, each finish with the latest usage reported by then |
| StreamMeaning.UsageIsLatest | electron/aiHandler.js:469 | the usage in force is that of the last chunk so far that has one |
| StreamMeaning.WireDecodes | electron/aiHandler.js:449-462 | decoding a provider's `data:` lines gives back the objects' chunks, each once and in order |
| StreamMeaning.WireToEvents | electron/aiHandler.js:441-498 | however a sent stream is cut into reads, the texts, tool calls, signatures and finishes that come out are the ones that went in |
| Text.SplitAppend | electron/aiHandler.js:449-455 | splitting a concatenation is splitting the first text and letting its last piece grow into the second |
| ChatStore.BuildMessageBatchInsert | electron/aiHandler.js:570-580 | placeholder group i names exactly the nine parameters 9i+1 to 9i+9, in order |
| ChatStore.FlatParams | electron/aiHandler.js:655-658 | the flat parameters of a batch, or failure exactly when some date cannot be written out |
| ChatStore.StatementInsertsBatch | electron/aiHandler.js:570-597 | the built statement, applied to the flat parameters, inserts exactly the batch's rows in order |
| ChatStore.InsertBatch | electron/aiHandler.js:652-660 | one multi-row statement inserts every row its groups and parameters produce, or none |
| ChatStore.WriteBatch | electron/aiHandler.js:652-660 | one turn of the loop inserts its batch at its offset, or fails exactly when one of its rows is not storable |
| ChatStore.AppendJoins | electron/aiHandler.js:652-660 | inserting in consecutive batches is inserting at once |
| ChatStore.InsertMessages | electron/aiHandler.js:652-660 | the batching loop inserts every message's row with its position, for any length, or fails exactly when one row is not storable |
| ChatStore.ChatTables.PersistSession | electron/aiHandler.js:614-668 | one transaction: the header and the rows of the target session are rewritten, or nothing changes |
| ChatStore.ChatTables.SaveSession | electron/aiHandler.js:1189-1200 | invalid message lists are refused; otherwise the cut title and the messages are persisted |
| ChatStore.TruncateTwice | electron/aiHandler.js:602-608 | cutting a summary twice is cutting it once, and the result has bounded length |
| ChatStore.RowRoundTrip | electron/aiHandler.js:582-597 | a row loads as the message's normal form under the row's id |
| ChatStore.AnswerAfterSave | electron/aiHandler.js:1163-1170 | right after a save the load query has exactly one possible answer, the inserted rows first to last |
| ChatStore.LoadAfterSave | electron/aiHandler.js:1154-1185 | loading what was saved gives back every message in order, in normal form, for any length and any prior state |
| ChatMeaning.LoadsUnchanged | electron/aiHandler.js:582-608 | saved and loaded, a message with text, attachments absent or some, whole milliseconds and a summary of at most 4000 characters is the same but for its id |
| ChatMeaning.LongSummaryIsCut | electron/aiHandler.js:602-608 | a longer summary comes back as its first 4000 characters and the marker, the rest of the tool call and of the message as they were |
| ChatMeaning.LoadedFields | electron/aiHandler.js:582-597 | whatever the message, what a save and load keeps of it, field by field, and that a date loses at most a fraction of a millisecond, toward the epoch |
| ChatStore.SaveLoadedAgain | electron/aiHandler.js:614-668 | saving what was loaded stores the same rows in the same order under the same header |
| ChatStore.LoadedIsStorable | electron/aiHandler.js:549-608 | what a save stored, once loaded, passes validation and storage again |
| ChatStore.SaveKeepsOthers | electron/aiHandler.js:642-648 | a save leaves every other session's header and messages as they were, for every reader |
| ChatMeaning.OwnSessionIsRewritten | electron/aiHandler.js:620-648 | a save to the caller's own session rewrites it in place, with the new number of messages |
| ChatMeaning.ForeignSessionIsSafe | electron/aiHandler.js:620-640 | a missing, stale or foreign session id leaves every session and message there is as it was and makes a new session of the caller's |
| ChatMeaning.ForeignLoadIsEmpty | electron/aiHandler.js:1163-1170 | no one loads a session of another user or company |
| ChatMeaning.NearDatesPass | electron/aiHandler.js:582-597 | with dates within 100 million days of the epoch, a save is stopped exactly by a row the database does not take |
| ChatStore.SaveKeepsTitles | electron/aiHandler.js:609-640 | a save sets a title only on a session it creates; a stale or foreign id creates one; owners never change |
| ChatStore.SaveKeepsValid | electron/aiHandler.js:614-668 | after a save every message still belongs to an existing session |
| BackupProofs.ProgramPlanIsSound | electron/dbHandler.js:7688-7780 | both 69-table lists name every table exactly once; under the schema's foreign keys, the keys that delete or block lead forward in the deletion order, and all keys but those to users lead backward in the insertion order or stay in the table |
| Backup.BackupCompany | electron/dbHandler.js:7887-7915 | the payload lists, table by table, exactly the company's rows, each once, without credentials |
| Backup.ValidateLine | electron/dbHandler.js:7857-7871 | one row is accepted as specified: on its own, and for a line by its parent in the payload or else by every parent seen so far in the database |
| Backup.ValidateRows | electron/dbHandler.js:7849-7872 | the row loop accepts exactly the tables whose every row is accepted |
| Backup.ValidateBackupRows | electron/dbHandler.js:7836-7873 | the loops with their growing set of parent ids accept exactly the payloads whose rows all belong to the company, carry no credentials and name known parents |
| Backup.LookupCoversEarlier | electron/dbHandler.js:7857-7871 | one line whose document is not listed has the documents of all lines before it looked up in the database as well, and each must be the company's own there |
| BackupCascade.ClosureUnfold | drizzle/0000_init.sql:1175-1404 | a DELETE takes exactly the rows it selects and the rows that name one it takes by a cascading key, at any depth and through cycles |
| Backup.DeleteRows | electron/dbHandler.js:7933-7950 | the deletion loop leaves what its DELETEs leave one after another, each cascading, nulling or refused as the foreign keys say; it stops at the first refusal |
| BackupCascade.DeletionsMean | electron/dbHandler.js:7933-7950 | if none is refused, the loop removes exactly the closure of all rows that were in scope before it began, and nulls exactly the keys into it |
| BackupCascade.CompanyRowTakesAll | drizzle/0000_init.sql:1175-1404 | with the company row goes every row of the company, in tables the payload lists or not, and every line of its documents |
| BackupCascade.UserDies | drizzle/0000_init.sql:1185 | a user goes exactly when the company row is listed and there, and the user is of that company |
| BackupCascade.UsersUnchangedIff | drizzle/0000_init.sql:1184-1185 | for every validated payload, the deletions leave the users as they were exactly when no user goes with the company row and none sits in a branch that goes |
| BackupCascade.OthersStayIff | electron/dbHandler.js:7933-7950 | whatever the payload, a row of another company outlives the deletions with every column if and only if it names no row they take |
| BackupCascade.DeletionsGoThroughIff | electron/dbHandler.js:7933-7950 | whatever the payload, the deletion loop goes through if and only if at no turn a row is left that names a row gone by then by a blocking key |
| BackupCascade.FullDeletesGoThroughIff | electron/dbHandler.js:7932-7950 | with a full backup no DELETE is refused if and only if no row from outside names, by a blocking key, a row that goes before it does: the company's own rows never stand in the way |
| BackupCascade.BlockingKeyDecides | drizzle/0000_init.sql:1175-1404 | if no key from outside cascades into the company, that is the same as no row from outside naming a row of the company by a blocking key |
| BackupProofs.WrongOrderIsRefused | electron/dbHandler.js:7932 | deleting products before quotation lines is refused for a concrete database: an order is needed |
| BackupCascade.FullLeft | electron/dbHandler.js:7933-7950 | with a full backup the deletions leave every row that neither is the company's nor cascades into it, keys to the rows that went nulled, and nothing else |
| BackupCascade.FullDeletesIsolateIff | electron/dbHandler.js:7933-7950 | they leave every other company's rows alone if and only if no row from outside names a row of the company |
| Backup.InsertMeans | electron/dbHandler.js:7976-7989 | adding rows goes through exactly when all ids are new, and then adds exactly the listed rows |
| Backup.InsertChunks | electron/dbHandler.js:7976-7989 | inserting in statements of 500 is accepted exactly when all ids are new and every row's keys hold once its own chunk is in, and then adds all rows |
| BackupProofs.ChunkedIsAtOnceIff | electron/dbHandler.js:7976-7989 | chunked insertion has the outcome of one statement if and only if that is refused too, or every row of the same table that a row names is there already or listed by the end of the row's chunk |
| BackupProofs.LateParentIsRefused | drizzle/0000_init.sql:1189 | 501 accounts, the first naming the last as its parent, go in as one statement and are refused in chunks, with no id taken |
| Backup.InsertRows | electron/dbHandler.js:7951-7991 | the insertion loop yields the target tables, or refuses exactly when some table's rows are not accepted |
| Backup.CompanyTables.RestoreCompany | electron/dbHandler.js:7917-7998 | a restore goes through exactly when the payload validates, no DELETE is refused and every table's rows are accepted, and then reaches the target tables; otherwise nothing changes |
| BackupProofs.OthersSurvive | electron/dbHandler.js:7933-7991 | whatever the payload, an accepted restore leaves a row of another company as it was if it names no row the deletions take, and, unless the row is a line, only if |
| BackupProofs.OthersSurviveIff | electron/dbHandler.js:7933-7991 | whatever the payload, an accepted restore leaves all other companies' rows as they were if and only if none of them names a row the deletions take |
| BackupProofs.AddedRowsAreMine | electron/dbHandler.js:7836-7873 | whatever the payload, every row a restore adds belongs to the company, lines through their restored documents |
| BackupProofs.RoundTrip | electron/dbHandler.js:7917-7998 | restoring a full backup into any later state makes the company's rows in every table but users exactly the saved ones, and leaves of the others exactly the rows that do not cascade into the company, with keys to the rows that went nulled |
| BackupProofs.RoundTripIsolatesIff | electron/dbHandler.js:7917-7998 | it leaves every other company's rows as they were if and only if none of them names a row of the company |
| BackupProofs.RestoredUsers | electron/dbHandler.js:7935-7938 | a full backup restored leaves exactly the other companies' users, with only keys to the company's branches nulled |
| BackupProofs.RestoreKeepsUsersIff | electron/dbHandler.js:7935-7938 | for every accepted payload the users table is the same after the restore exactly when no user goes with the company row and none sits in a branch that goes |
| BackupProofs.RestoreLosesUser | electron/dbHandler.js:7936 | a concrete company whose backup, restored on the spot, goes through and loses its user |
| BackupProofs.FullBackupValidates | electron/dbHandler.js:7836-7873 | a full backup passes validation whatever the database holds now |
| BackupProofs.FullBackupGoesThroughIff | electron/dbHandler.js:7917-7998 | a full backup restores into any later state exactly when no row from outside blocks a DELETE, no row that stands has taken one of its ids, and each of its rows names only rows that stand or that it lists, in its own table by the end of the row's chunk |
| BackupProofs.StandsIff | drizzle/0000_init.sql:1175-1404 | if no key from outside cascades into the company, the rows that stand are exactly the rows outside it |
| BackupProofs.OwnUsersForbidRestore | drizzle/0000_init.sql:1185 | as long as the company has its users, no full backup with a row that names one of them can be restored |
| BackupCrossings.RestoreMakesCrossing | electron/dbHandler.js:7836-7873 | a restore of one company accepts a row that names another company's row: validation does not see it |
| BackupCrossings.ForeignTaskIsChanged | drizzle/0000_init.sql:1337 | with the program's own lists and keys: a task comes to name another company's lead, and that company's next full restore is accepted and nulls the task's column |
| BackupCrossings.ForeignCashBoxForbidsRestore | drizzle/0000_init.sql:1352 | with the program's own lists and keys: a cash box that names another company's account has that company's full restore refused, with all ids free and all rows found |
| Migrations.FilesAreSorted | electron/migrationRunner.js:75-81 | the list is the directory's SQL files, each as often as there, ordered by leading number and then name |
| Migrations.FilesAreDistinct | electron/migrationRunner.js:75-81 | a directory's distinct names give a list of distinct files |
| MigrationNames.NumberIs | electron/migrationRunner.js:78-79 | a file named by a number in decimal, padded with zeros or not, an underscore and anything else, is ordered by that number |
| Migrations.SqlIff | electron/migrationRunner.js:76 | the names that count are those that end in `.sql` |
| Migrations.FirstStatementFirst | electron/migrationRunner.js:100-103 | a file's statements run from the first to the last, each on what the one before it left |
| Migrations.SchemaStore.RunMigrations | electron/migrationRunner.js:64-113 | however a run ends, it has applied and recorded exactly the first pending files, in order; all of them if it completes; a failure names the file whose statements are rejected |
| Migrations.SchemaStore.ApplyFile | electron/migrationRunner.js:97-111 | a file's statements and its tracking row become visible together or not at all |
| Migrations.SchemaStore.RunTransaction | electron/migrationRunner.js:97-111 | inside the transaction the statements run in order, and the committed state is untouched until it ends |
| Migrations.CrashesKeepPrefix | electron/migrationRunner.js:64-113 | from a new database, after any number of crashed or failed runs, the recorded files are a prefix of the list and the schema is that of applying them once each |
| Migrations.CompleteRunHeals | electron/migrationRunner.js:64-113 | the run that finally completes leaves every file applied once, in order, and the database equal to that of a single uninterrupted run |
| Migrations.ReleasesApplyOnce | electron/migrationRunner.js:64-113 | over any releases that add files anywhere in the order, and any crashes, the recorded files are distinct files of the releases so far, and the schema is that of applying each once, as recorded |
| Migrations.CompleteReleaseCovers | electron/migrationRunner.js:64-113 | when the last run completes, the recorded files are exactly the last release's, each applied once |
| Migrations.ListOrderIff | electron/migrationRunner.js:75-87 | a completing run records the files in list order if and only if what was recorded before is a prefix of the list |
| Migrations.LegacyReplayHeals | electron/migrationRunner.js:64-113 | a database provisioned without a tracking table reaches the full schema when the replayed files are idempotent on it |

## Left out

- Authentication, sessions, permissions and company or user ownership checks: the caller is taken to be the owner, except where `ChatStore` and `Backup` model ownership.
- `ai:batch-clear`: its two updates of one row in one statement depend on a database rule about same-row updates.
- Item ids: a row is identified by its `seq`, and a batch by its stored object. Item arguments, labels and results, error texts and timestamps other than leases are not modelled.
- `FOR UPDATE SKIP LOCKED`: a claim takes an arbitrary set of locked rows to skip.
- Interleaving inside a handler: every handler is one step, except where a lemma above names the statement that could come apart.
- `JobQueue.StoredBatch.BatchRelease`: ids that are not text are filtered out before the count of ten; here all ids are rows.
- Floating point: amounts are integers in units of 0.0001, and the tolerance of 0.01 is 100 of them. The rounding of each leg to that scale by its column, which comes after the balance test, is not modelled: amounts are taken to be at the stored scale.
- The journal is one company's, so creating for another company and the ownership of accounts across companies are not modelled; numbering, currencies and descriptions are left out, and so is the order of ledger rows.
- Dates: a date text is the day its first ten characters name and the instant the database reads it as; texts that name no day of the calendar, and range bounds that are no dates, are refused by the database with other words. All windows are in the database session's time zone.
- `sales.getCustomers` and the customer statement: only the supplier side is modelled.
- Provider HTTP, timeouts, aborts and UTF-8 decoding in the stream: reads are already text, and `parse` stands for JSON parsing of a payload.
- Renaming, deleting and purging chat sessions, and listing them.
- Chat ids come from counters instead of a random generator; text is in characters, so a summary cut through a surrogate pair is not modelled; JSON columns keep their value unchanged; `accepts` stands for any other reason the database may refuse a row; update times are left out.
- Backup: the manifest and its checksum, warnings and counts, tables that could not be read, payloads that are not lists of row objects, unknown tables and column filtering are left out; the backup's queries are taken to read one state.
- Restore: a row is its scope columns, its foreign-key columns as a set of references, its credential and its other data; a payload row has the foreign keys of its table. Constraints other than primary and foreign keys are left out.
- Foreign keys: RESTRICT and NO ACTION are one check once the cascade is complete; where the order of work inside one cascade would make RESTRICT refuse earlier, the database refuses a restore that the model accepts. With a full backup only a row of another company can be such a row.
- Migrations: normalising and splitting a file into statements is the `body` parameter, the schema and its statements are abstract, and two processes migrating at once are not modelled.
- List and CRUD channels of the other modules: single statements that would add only easy members.
