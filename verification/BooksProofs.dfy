/**
  What holds of the journal over whole runs of create, post, open-period and set-period-status:
  filed periods are frozen, tax periods are disjoint, the trial balance is bounded, and ledger
  windows add up, except for what the end date's own hours drop.
 */
module BooksProofs {
  import opened Wrappers
  import opened Books
  import Collections

  // ---------------------------------------------------------------- sums over legs

  lemma {:induction false} DebitsAppend(a: seq<Leg>, b: seq<Leg>)
    ensures Debits(a + b) == Debits(a) + Debits(b)
    ensures Credits(a + b) == Credits(a) + Credits(b)
  {
    if b == [] {
      assert a + b == a;
    } else {
      assert (a + b)[..|a + b| - 1] == a + b[..|b| - 1];
      DebitsAppend(a, b[..|b| - 1]);
    }
  }

  lemma {:induction false} OnAccountAppend(a: seq<Leg>, b: seq<Leg>, account: int)
    ensures OnAccount(a + b, account) == OnAccount(a, account) + OnAccount(b, account)
  {
    if b == [] {
      assert a + b == a;
    } else {
      assert (a + b)[..|a + b| - 1] == a + b[..|b| - 1];
      OnAccountAppend(a, b[..|b| - 1], account);
    }
  }

  lemma NetAppend(a: seq<Leg>, b: seq<Leg>, account: int)
    ensures Net(a + b, account) == Net(a, account) + Net(b, account)
  {
    OnAccountAppend(a, b, account);
    DebitsAppend(OnAccount(a, account), OnAccount(b, account));
  }

  // ---------------------------------------------------------------- filed periods are frozen

  predicate Counted(tx: Tx, from: Option<int>, upTo: Option<int>)
  {
    tx.status == Posted && Within(tx.time, from, upTo)
  }

  lemma {:induction false} SameLegsAfterUpdate(txs: seq<Tx>, id: nat, tx: Tx, from: Option<int>, upTo: Option<int>)
    requires id < |txs|
    requires !Counted(txs[id], from, upTo) && !Counted(tx, from, upTo)
    ensures PostedLegs(txs[id := tx], from, upTo) == PostedLegs(txs, from, upTo)
  {
    var last := |txs| - 1;
    if id == last {
      assert txs[id := tx][..last] == txs[..last];
    } else {
      assert txs[id := tx][..last] == txs[..last][id := tx];
      SameLegsAfterUpdate(txs[..last], id, tx, from, upTo);
    }
  }

  lemma PostedLegsAppend(txs: seq<Tx>, tx: Tx, from: Option<int>, upTo: Option<int>)
    ensures PostedLegs(txs + [tx], from, upTo) ==
            PostedLegs(txs, from, upTo) + if Counted(tx, from, upTo) then tx.legs else []
  {
    assert (txs + [tx])[..|txs|] == txs;
  }

  predicate IsFiled(j: Journal, p: int)
  {
    0 <= p < |j.periods| && j.periods[p].status == Filed
  }

  /** The filed period's VAT window: from its first midnight to its last. */
  predicate InWindow(j: Journal, p: int, time: int)
    requires 0 <= p < |j.periods|
  {
    Within(time, Some(j.periods[p].start * DAY), Some(j.periods[p].end * DAY))
  }

  function WindowLegs(j: Journal, p: int): seq<Leg>
    requires 0 <= p < |j.periods|
  {
    PostedLegs(j.txs, Some(j.periods[p].start * DAY), Some(j.periods[p].end * DAY))
  }

  /** The step posts a transaction dated inside the period: it goes through, though the period is filed. */
  predicate Thaws(j: Journal, step: Step, p: int)
    requires 0 <= p < |j.periods|
  {
    match step
    case Create(req) =>
      CreateRefusal(j, req).None? && req.status == WantPosted && InWindow(j, p, req.date.value.time.value)
    case Post(id, gate) => PostRefusal(j, id, gate).None? && InWindow(j, p, j.txs[id].time)
    case _ => false
  }

  lemma CreateThawsIff(j: Journal, req: Request, p: int)
    requires IsFiled(j, p)
    ensures WindowLegs(CreateStep(j, req), p) == WindowLegs(j, p) <==> !Thaws(j, Create(req), p)
    ensures Thaws(j, Create(req), p) ==> |WindowLegs(CreateStep(j, req), p)| > |WindowLegs(j, p)|
  {
    if CreateRefusal(j, req).None? {
      var from, upTo := Some(j.periods[p].start * DAY), Some(j.periods[p].end * DAY);
      PostedLegsAppend(j.txs, ToTx(req), from, upTo);
      assert |ToTx(req).legs| == |req.entries|;
      assert PostedLegs(j.txs, from, upTo) + [] == PostedLegs(j.txs, from, upTo);
    }
  }

  /** Posting one transaction makes the window's legs longer by its own legs, if it is dated inside, and not otherwise. */
  lemma {:induction false} MoreLegsAfterPosting(txs: seq<Tx>, id: nat, from: Option<int>, upTo: Option<int>)
    requires id < |txs| && txs[id].status != Posted
    ensures |PostedLegs(txs[id := txs[id].(status := Posted)], from, upTo)| ==
            |PostedLegs(txs, from, upTo)| + if Within(txs[id].time, from, upTo) then |txs[id].legs| else 0
  {
    var last, posted := |txs| - 1, txs[id].(status := Posted);
    if id == last {
      assert txs[id := posted][..last] == txs[..last];
    } else {
      assert txs[id := posted][..last] == txs[..last][id := posted];
      MoreLegsAfterPosting(txs[..last], id, from, upTo);
    }
  }

  lemma PostThawsIff(j: Journal, id: int, gate: int, p: int)
    requires IsFiled(j, p)
    ensures WindowLegs(PostStep(j, id, gate), p) == WindowLegs(j, p) <==> !Thaws(j, Post(id, gate), p)
    ensures Thaws(j, Post(id, gate), p) ==> |WindowLegs(PostStep(j, id, gate), p)| > |WindowLegs(j, p)|
  {
    if PostRefusal(j, id, gate).None? {
      var from, upTo := Some(j.periods[p].start * DAY), Some(j.periods[p].end * DAY);
      MoreLegsAfterPosting(j.txs, id, from, upTo);
      if !InWindow(j, p, j.txs[id].time) {
        SameLegsAfterUpdate(j.txs, id, j.txs[id].(status := Posted), from, upTo);
      }
    }
  }

  /** A filed period stays filed, with its dates, through every step. */
  lemma FiledStays(j: Journal, step: Step, p: int)
    requires IsFiled(j, p)
    ensures IsFiled(Apply(j, step), p)
    ensures Apply(j, step).periods[p].start == j.periods[p].start && Apply(j, step).periods[p].end == j.periods[p].end
  {
  }

  /** One step leaves a filed period's posted legs as they were exactly when it does not post into the period, and else adds to them. */
  lemma StepThawsIff(j: Journal, step: Step, p: int)
    requires IsFiled(j, p)
    ensures IsFiled(Apply(j, step), p)
    ensures WindowLegs(Apply(j, step), p) == WindowLegs(j, p) <==> !Thaws(j, step, p)
    ensures Thaws(j, step, p) ==> |WindowLegs(Apply(j, step), p)| > |WindowLegs(j, p)|
  {
    FiledStays(j, step, p);
    match step
    case Create(req) => CreateThawsIff(j, req, p);
    case Post(id, gate) => PostThawsIff(j, id, gate, p);
    case _ =>
  }

  /** The gate looks at the day of the stored instant. */
  predicate GateAgrees(j: Journal, step: Step)
  {
    match step
    case Create(req) => HasInstant(req) ==> req.date.value.gate == Some(Day(req.date.value.time.value))
    case Post(id, gate) => 0 <= id < |j.txs| ==> gate == Day(j.txs[id].time)
    case _ => true
  }

  /** An instant inside a filed period's window falls on a blocked day. */
  lemma FiledBlocks(j: Journal, p: int, time: int)
    requires IsFiled(j, p) && InWindow(j, p, time)
    ensures Blocked(j, Day(time))
  {
    assert j.periods[p].start <= Day(time) <= j.periods[p].end;
  }

  /** A posting whose gate looks at the right day never goes into a filed period. */
  lemma AgreementSuffices(j: Journal, step: Step, p: int)
    requires IsFiled(j, p) && GateAgrees(j, step)
    ensures !Thaws(j, step, p)
  {
    if step.Create? && HasInstant(step.req) && InWindow(j, p, step.req.date.value.time.value) {
      FiledBlocks(j, p, step.req.date.value.time.value);
    } else if step.Post? && 0 <= step.id < |j.txs| && InWindow(j, p, j.txs[step.id].time) {
      FiledBlocks(j, p, j.txs[step.id].time);
    }
  }

  /** Filed for good, with its dates, whatever the run does. */
  lemma {:induction false} FiledForGood(j: Journal, steps: seq<Step>, p: int)
    requires IsFiled(j, p)
    ensures IsFiled(Exec(j, steps), p)
    ensures Exec(j, steps).periods[p].start == j.periods[p].start && Exec(j, steps).periods[p].end == j.periods[p].end
  {
    if steps != [] {
      FiledForGood(j, steps[..|steps| - 1], p);
      FiledStays(Exec(j, steps[..|steps| - 1]), steps[|steps| - 1], p);
    }
  }

  /** The `m`-th step of the run posts into the period. */
  ghost predicate ThawsAt(j: Journal, steps: seq<Step>, m: int, p: int)
    requires 0 <= m < |steps|
  {
    var c := Exec(j, steps[..m]);
    0 <= p < |c.periods| && Thaws(c, steps[m], p)
  }

  ghost predicate ThawsIn(j: Journal, steps: seq<Step>, p: int)
  {
    exists m :: 0 <= m < |steps| && ThawsAt(j, steps, m, p)
  }

  lemma ThawsLast(j: Journal, steps: seq<Step>, p: int)
    requires steps != []
    ensures ThawsIn(j, steps, p) <==> ThawsIn(j, steps[..|steps| - 1], p) || ThawsAt(j, steps, |steps| - 1, p)
  {
    var front := steps[..|steps| - 1];
    forall m | 0 <= m < |front| ensures ThawsAt(j, front, m, p) <==> ThawsAt(j, steps, m, p) {
      assert front[..m] == steps[..m];
    }
  }

  /** A run from a filed period leaves its posted legs the same if and only if none of its steps posts into it. */
  lemma {:induction false} FrozenIff(j: Journal, steps: seq<Step>, p: int)
    requires IsFiled(j, p)
    ensures IsFiled(Exec(j, steps), p)
    ensures WindowLegs(Exec(j, steps), p) == WindowLegs(j, p) <==> !ThawsIn(j, steps, p)
    ensures ThawsIn(j, steps, p) ==> |WindowLegs(Exec(j, steps), p)| > |WindowLegs(j, p)|
  {
    if steps != [] {
      var front := steps[..|steps| - 1];
      FrozenIff(j, front, p);
      StepThawsIff(Exec(j, front), steps[|steps| - 1], p);
      ThawsLast(j, steps, p);
    }
  }

  /**
    Once a tax period is filed it stays filed, with its dates; and its VAT totals for any two accounts
    never change again as long as every posting is gated on the day of its stored instant.
   */
  lemma FiledPeriodIsFrozen(j: Journal, steps: seq<Step>, p: int, output: int, input: int)
    requires IsFiled(j, p)
    requires forall m :: 0 <= m < |steps| ==> GateAgrees(Exec(j, steps[..m]), steps[m])
    ensures IsFiled(Exec(j, steps), p)
    ensures var q, q' := j.periods[p], Exec(j, steps).periods[p];
            && q'.start == q.start && q'.end == q.end
            && VatLegs(Exec(j, steps), output, input, q.start, q.end) == VatLegs(j, output, input, q.start, q.end)
  {
    FiledForGood(j, steps, p);
    FrozenIff(j, steps, p);
    forall m | 0 <= m < |steps| ensures !ThawsAt(j, steps, m, p) {
      FiledForGood(j, steps[..m], p);
      AgreementSuffices(Exec(j, steps[..m]), steps[m], p);
    }
  }

  /**
    The freeze rests on creating in one step.  Creation checks the period in one statement and
    inserts in a later one, so the insert may land after a closing and a filing it did not see.
    It then leaves the filed legs alone exactly when it is a draft or is dated outside the window.
   */
  lemma DelayedInsertSafeIff(j: Journal, req: Request, p: int)
    requires IsFiled(j, p) && HasInstant(req) && |req.entries| > 0
    ensures WindowLegs(Insert(j, req), p) == WindowLegs(j, p) <==>
            !(req.status == WantPosted && InWindow(j, p, req.date.value.time.value))
  {
    var from, upTo := Some(j.periods[p].start * DAY), Some(j.periods[p].end * DAY);
    PostedLegsAppend(j.txs, ToTx(req), from, upTo);
    assert |ToTx(req).legs| == |req.entries|;
    assert PostedLegs(j.txs, from, upTo) + [] == PostedLegs(j.txs, from, upTo);
  }

  /** A month, open, with no transactions, and a posting dated on its first day. */
  const OPEN_MONTH := Journal({1}, [], [Period(0, 30, Open, None)], [])
  const FIRST_DAY := Request(Some(PostDate(Some(0), Some(0))), WantPosted, [Entry(Some(1), 100, 0)])

  lemma OneLeg(leg: Leg)
    ensures Debits([leg]) == leg.debit && Credits([leg]) == leg.credit
    ensures OnAccount([leg], leg.account) == [leg]
  {
    assert [leg][..0] == [];
  }

  lemma FirstDayPasses()
    ensures CreateRefusal(OPEN_MONTH, FIRST_DAY).None?
    ensures ToTx(FIRST_DAY) == Tx(0, Posted, [Leg(1, 100, 0)])
  {
    assert ToLegs(FIRST_DAY.entries) == [Leg(1, 100, 0)];
    OneLeg(Leg(1, 100, 0));
  }

  lemma MonthIsFiled()
    ensures Apply(Apply(OPEN_MONTH, SetPeriod(0, Closed, 7)), SetPeriod(0, Filed, 8)) ==
            OPEN_MONTH.(periods := [Period(0, 30, Filed, Some(8))])
  {
    assert Apply(OPEN_MONTH, SetPeriod(0, Closed, 7)).periods == [Period(0, 30, Closed, None)];
  }

  /** A posting that passed its check while the period was open adds a leg to the period filed meanwhile. */
  lemma DelayedInsertCanThaw()
    ensures CreateRefusal(OPEN_MONTH, FIRST_DAY).None?
    ensures var filed := Apply(Apply(OPEN_MONTH, SetPeriod(0, Closed, 7)), SetPeriod(0, Filed, 8));
            && IsFiled(filed, 0)
            && PostedLegs(filed.txs, Some(0), Some(30 * DAY)) == []
            && PostedLegs(Insert(filed, FIRST_DAY).txs, Some(0), Some(30 * DAY)) == [Leg(1, 100, 0)]
  {
    FirstDayPasses();
    MonthIsFiled();
    PostedLegsAppend([], ToTx(FIRST_DAY), Some(0), Some(30 * DAY));
    assert [] + [ToTx(FIRST_DAY)] == [ToTx(FIRST_DAY)];
    assert [] + [Leg(1, 100, 0)] == [Leg(1, 100, 0)];
  }

  /** December, open, and January, filed; and a posting dated at half past eleven on December 31, five hours west of the database. */
  const NEW_YEAR := Journal({1}, [], [Period(0, 30, Open, None), Period(31, 61, Filed, Some(0))], [])
  const LATE_EVENING := Request(
    Some(PostDate(Some(30), Some(31 * DAY + 16_200_000_000))), WantPosted, [Entry(Some(1), 500, 0), Entry(Some(1), 0, 500)])

  /** Its gate is December 31, its instant half past four on January 1: it goes through, into the filed month. */
  lemma OtherZoneThaws()
    ensures IsFiled(NEW_YEAR, 1) && CreateRefusal(NEW_YEAR, LATE_EVENING).None?
    ensures Thaws(NEW_YEAR, Create(LATE_EVENING), 1)
    ensures WindowLegs(CreateStep(NEW_YEAR, LATE_EVENING), 1) != WindowLegs(NEW_YEAR, 1)
  {
    var legs := ToLegs(LATE_EVENING.entries);
    assert legs == [Leg(1, 500, 0), Leg(1, 0, 500)];
    assert legs[..1][..0] == [] && legs[..1] == [Leg(1, 500, 0)];
    assert Debits(legs[..1]) == 500 && Credits(legs[..1]) == 0;
    assert !Blocked(NEW_YEAR, 30);
    assert AccountsKnown(NEW_YEAR, LATE_EVENING.entries);
    CreateThawsIff(NEW_YEAR, LATE_EVENING, 1);
  }

  // ---------------------------------------------------------------- tax periods

  ghost predicate PeriodsProper(periods: seq<Period>)
  {
    && (forall i :: 0 <= i < |periods| ==> periods[i].start <= periods[i].end)
    && (forall i :: 0 <= i < |periods| && periods[i].status == Filed ==> periods[i].filedAt.Some?)
  }

  /** No day belongs to two tax periods. */
  ghost predicate Disjoint(periods: seq<Period>)
  {
    forall i, k, day ::
      (0 <= i < |periods| && 0 <= k < |periods| &&
       Covers(periods[i].start, periods[i].end, day) && Covers(periods[k].start, periods[k].end, day)) ==> i == k
  }

  lemma SameRangesDisjoint(before: seq<Period>, after: seq<Period>)
    requires Disjoint(before) && |after| == |before|
    requires forall i :: 0 <= i < |before| ==> after[i].start == before[i].start && after[i].end == before[i].end
    ensures Disjoint(after)
  {
    forall i, k, day | 0 <= i < |after| && 0 <= k < |after| &&
      Covers(after[i].start, after[i].end, day) && Covers(after[k].start, after[k].end, day)
      ensures i == k
    {
      assert Covers(before[i].start, before[i].end, day) && Covers(before[k].start, before[k].end, day);
    }
  }

  lemma StepKeepsPeriods(j: Journal, step: Step)
    requires PeriodsProper(j.periods) && Disjoint(j.periods)
    ensures PeriodsProper(Apply(j, step).periods) && Disjoint(Apply(j, step).periods)
  {
    var after := Apply(j, step).periods;
    if step.OpenPeriod? && OpenRefusal(j, step.start, step.end, step.country, step.kind).None? {
      forall i, k, day | 0 <= i < |after| && 0 <= k < |after| &&
        Covers(after[i].start, after[i].end, day) && Covers(after[k].start, after[k].end, day)
        ensures i == k
      {
        assert i < |j.periods| ==> after[i] == j.periods[i] && !Overlaps(j.periods[i], step.start, step.end);
        assert k < |j.periods| ==> after[k] == j.periods[k] && !Overlaps(j.periods[k], step.start, step.end);
      }
    } else if step.SetPeriod? && MayChange(j, step.period, step.to) {
      SameRangesDisjoint(j.periods, after);
    }
  }

  /** Over every run the tax periods stay pairwise disjoint, non-empty, and dated once filed. */
  lemma {:induction false} PeriodsStayDisjoint(j: Journal, steps: seq<Step>)
    requires PeriodsProper(j.periods) && Disjoint(j.periods)
    ensures PeriodsProper(Exec(j, steps).periods) && Disjoint(Exec(j, steps).periods)
  {
    if steps != [] {
      PeriodsStayDisjoint(j, steps[..|steps| - 1]);
      StepKeepsPeriods(Exec(j, steps[..|steps| - 1]), steps[|steps| - 1]);
    }
  }

  lemma {:induction false} FindPeriodFinds(periods: seq<Period>, day: int)
    ensures var f := FindPeriod(periods, day);
      && (f.Some? ==> 0 <= f.value < |periods| && Covers(periods[f.value].start, periods[f.value].end, day))
      && (f.None? ==> forall i :: 0 <= i < |periods| ==> !Covers(periods[i].start, periods[i].end, day))
      && (f.Some? ==> forall i :: 0 <= i < |periods| && Covers(periods[i].start, periods[i].end, day) ==> periods[i].end <= periods[f.value].end)
  {
    if periods != [] {
      FindPeriodFinds(periods[..|periods| - 1], day);
    }
  }

  /** In every run, `findPeriod` answers with the one period that covers the date, and answers none only if none does. */
  lemma FindPeriodIsTheOnly(j: Journal, steps: seq<Step>, day: int, p: int)
    requires PeriodsProper(j.periods) && Disjoint(j.periods)
    ensures var periods := Exec(j, steps).periods;
      FindPeriod(periods, day) == Some(p) <==> 0 <= p < |periods| && Covers(periods[p].start, periods[p].end, day)
  {
    PeriodsStayDisjoint(j, steps);
    FindPeriodFinds(Exec(j, steps).periods, day);
  }

  // ---------------------------------------------------------------- trial balance

  /** Legs book to the company's accounts, and posted transactions balance within the tolerance. */
  ghost predicate TxSound(accounts: set<int>, tx: Tx)
  {
    && (forall i :: 0 <= i < |tx.legs| ==> tx.legs[i].account in accounts)
    && (tx.status == Posted ==> Abs(Debits(tx.legs) - Credits(tx.legs)) <= TOLERANCE)
  }

  ghost predicate JournalSound(j: Journal)
  {
    forall i :: 0 <= i < |j.txs| ==> TxSound(j.accounts, j.txs[i])
  }

  lemma NewTxSound(j: Journal, req: Request)
    requires CreateRefusal(j, req).None?
    ensures TxSound(j.accounts, ToTx(req))
  {
    var tx := ToTx(req);
    forall i | 0 <= i < |tx.legs| ensures tx.legs[i].account in j.accounts {
      assert tx.legs[i] == ToLeg(req.entries[i]);
    }
  }

  lemma PostedTxSound(j: Journal, id: int, gate: int)
    requires JournalSound(j) && PostRefusal(j, id, gate).None?
    ensures TxSound(j.accounts, j.txs[id].(status := Posted))
  {
    assert TxSound(j.accounts, j.txs[id]);
  }

  lemma StepKeepsSound(j: Journal, step: Step)
    requires JournalSound(j)
    ensures JournalSound(Apply(j, step)) && Apply(j, step).accounts == j.accounts
  {
    if step.Create? && CreateRefusal(j, step.req).None? {
      NewTxSound(j, step.req);
    } else if step.Post? && PostRefusal(j, step.id, step.gate).None? {
      PostedTxSound(j, step.id, step.gate);
    }
  }

  lemma {:induction false} RunKeepsSound(j: Journal, steps: seq<Step>)
    requires JournalSound(j)
    ensures JournalSound(Exec(j, steps)) && Exec(j, steps).accounts == j.accounts
  {
    if steps != [] {
      RunKeepsSound(j, steps[..|steps| - 1]);
      StepKeepsSound(Exec(j, steps[..|steps| - 1]), steps[|steps| - 1]);
    }
  }

  function PostedCount(txs: seq<Tx>): nat
  {
    if txs == [] then 0 else PostedCount(txs[..|txs| - 1]) + if txs[|txs| - 1].status == Posted then 1 else 0
  }

  ghost function NetOf(legs: seq<Leg>): int -> int
  {
    a => Net(legs, a)
  }

  /** The sum over all accounts of `running_balance`. */
  ghost function TrialBalance(j: Journal): int
  {
    Collections.SumOver(j.accounts, NetOf(PostedLegs(j.txs, None, None)))
  }

  lemma LastLegNet(legs: seq<Leg>, a: int)
    requires legs != []
    ensures var leg := legs[|legs| - 1];
      Net(legs, a) == Net(legs[..|legs| - 1], a) + if a == leg.account then leg.debit - leg.credit else 0
  {
    var rest, leg := legs[..|legs| - 1], legs[|legs| - 1];
    OneLeg(leg);
    DebitsAppend(OnAccount(rest, a), [leg]);
    assert OnAccount(rest, a) + [] == OnAccount(rest, a);
  }

  /** Summing per account and summing per leg give the same total, when every leg's account is counted. */
  lemma {:induction false} SumsInterchange(accounts: set<int>, legs: seq<Leg>)
    requires forall i :: 0 <= i < |legs| ==> legs[i].account in accounts
    ensures Collections.SumOver(accounts, NetOf(legs)) == Debits(legs) - Credits(legs)
  {
    if legs == [] {
      forall a | a in accounts ensures NetOf(legs)(a) == 0 {}
      Collections.SumZero(accounts, NetOf(legs));
    } else {
      var rest, leg := legs[..|legs| - 1], legs[|legs| - 1];
      SumsInterchange(accounts, rest);
      forall a | a in accounts
        ensures NetOf(legs)(a) == NetOf(rest)(a) + if a == leg.account then leg.debit - leg.credit else 0
      {
        LastLegNet(legs, a);
      }
      Collections.SumBump(accounts, NetOf(rest), NetOf(legs), leg.account, leg.debit - leg.credit);
    }
  }

  lemma {:induction false} PostedLegsKnown(accounts: set<int>, txs: seq<Tx>)
    requires forall i :: 0 <= i < |txs| ==> TxSound(accounts, txs[i])
    ensures forall i :: 0 <= i < |PostedLegs(txs, None, None)| ==> PostedLegs(txs, None, None)[i].account in accounts
  {
    if txs != [] {
      PostedLegsKnown(accounts, txs[..|txs| - 1]);
      assert TxSound(accounts, txs[|txs| - 1]);
    }
  }

  lemma {:induction false} PostedLegsBalance(accounts: set<int>, txs: seq<Tx>)
    requires forall i :: 0 <= i < |txs| ==> TxSound(accounts, txs[i])
    ensures Abs(Debits(PostedLegs(txs, None, None)) - Credits(PostedLegs(txs, None, None))) <= TOLERANCE * PostedCount(txs)
  {
    if txs != [] {
      var rest, tx := txs[..|txs| - 1], txs[|txs| - 1];
      PostedLegsBalance(accounts, rest);
      if tx.status == Posted {
        assert TxSound(accounts, tx);
        DebitsAppend(PostedLegs(rest, None, None), tx.legs);
      } else {
        assert PostedLegs(rest, None, None) + [] == PostedLegs(rest, None, None);
      }
    }
  }

  lemma SoundJournalBalances(j: Journal)
    requires JournalSound(j)
    ensures Abs(TrialBalance(j)) <= TOLERANCE * PostedCount(j.txs)
  {
    PostedLegsKnown(j.accounts, j.txs);
    PostedLegsBalance(j.accounts, j.txs);
    SumsInterchange(j.accounts, PostedLegs(j.txs, None, None));
  }

  /**
    For every run of the journal, the running balances of all accounts together differ from zero by
    at most 0.01 for each posted transaction.
   */
  lemma TrialBalanceBounded(j: Journal, steps: seq<Step>)
    requires JournalSound(j)
    ensures Abs(TrialBalance(Exec(j, steps))) <= TOLERANCE * PostedCount(Exec(j, steps).txs)
  {
    RunKeepsSound(j, steps);
    SoundJournalBalances(Exec(j, steps));
  }

  // ---------------------------------------------------------------- ledger windows

  function MovementNet(j: Journal, account: int, start: Option<int>, end: Option<int>): int
  {
    Debits(Movement(j, account, start, end)) - Credits(Movement(j, account, start, end))
  }

  /** Postings after midnight on the window's last day: the date bound leaves them out. */
  function LastDayHours(j: Journal, account: int, end: int): int
  {
    Net(PostedLegs(j.txs, Some(end * DAY + 1), Some((end + 1) * DAY - 1)), account)
  }

  lemma TailNet(txs: seq<Tx>, from: Option<int>, upTo: Option<int>, account: int)
    requires txs != []
    ensures Net(PostedLegs(txs, from, upTo), account) ==
            Net(PostedLegs(txs[..|txs| - 1], from, upTo), account) +
            if Counted(txs[|txs| - 1], from, upTo) then Net(txs[|txs| - 1].legs, account) else 0
  {
    var rest, tx := txs[..|txs| - 1], txs[|txs| - 1];
    if Counted(tx, from, upTo) {
      NetAppend(PostedLegs(rest, from, upTo), tx.legs, account);
    } else {
      assert PostedLegs(rest, from, upTo) + [] == PostedLegs(rest, from, upTo);
    }
  }

  /** Splitting a window of instants splits its sum. */
  lemma {:induction false} NetSplits(txs: seq<Tx>, from: Option<int>, cut: int, upTo: Option<int>, account: int)
    requires from.Some? ==> from.value <= cut + 1
    requires upTo.Some? ==> cut <= upTo.value
    ensures Net(PostedLegs(txs, from, upTo), account) ==
            Net(PostedLegs(txs, from, Some(cut)), account) + Net(PostedLegs(txs, Some(cut + 1), upTo), account)
  {
    if txs != [] {
      var rest, tx := txs[..|txs| - 1], txs[|txs| - 1];
      NetSplits(rest, from, cut, upTo, account);
      TailNet(txs, from, upTo, account);
      TailNet(txs, from, Some(cut), account);
      TailNet(txs, Some(cut + 1), upTo, account);
    }
  }

  /** Opening plus movement, plus the last day's hours, is the opening of the next window: for every journal and window. */
  lemma WindowsTelescope(j: Journal, account: int, start: int, end: int)
    requires start <= end
    ensures Opening(j, account, start) + MovementNet(j, account, Some(start), Some(end)) + LastDayHours(j, account, end)
            == Opening(j, account, end + 1)
  {
    NetSplits(j.txs, None, start * DAY - 1, Some(end * DAY), account);
    NetSplits(j.txs, None, end * DAY, Some((end + 1) * DAY - 1), account);
  }

  /** Adjacent windows meet exactly when the hours after the last midnight net to zero. */
  lemma WindowsMeetIff(j: Journal, account: int, start: int, end: int)
    requires start <= end
    ensures Opening(j, account, start) + MovementNet(j, account, Some(start), Some(end)) == Opening(j, account, end + 1) <==>
            LastDayHours(j, account, end) == 0
  {
    WindowsTelescope(j, account, start, end);
  }

  /** Without an end date, the window ends on the full balance. */
  lemma OpenWindowEndsOnBalance(j: Journal, account: int, start: int)
    ensures Opening(j, account, start) + MovementNet(j, account, Some(start), None) == RunningBalance(j, account)
    ensures MovementNet(j, account, None, None) == RunningBalance(j, account)
  {
    NetSplits(j.txs, None, start * DAY - 1, None, account);
  }

  /** Every posted transaction is dated at midnight, as a date without a time of day is stored. */
  ghost predicate DatedAtMidnight(j: Journal)
  {
    forall i :: 0 <= i < |j.txs| && j.txs[i].status == Posted ==> j.txs[i].time % DAY == 0
  }

  lemma MidnightIsNoHour(time: int, day: int)
    requires time % DAY == 0
    ensures !Within(time, Some(day * DAY + 1), Some((day + 1) * DAY - 1))
  {
    assert time == DAY * (time / DAY);
  }

  lemma {:induction false} NoHoursAtMidnight(txs: seq<Tx>, day: int)
    requires forall i :: 0 <= i < |txs| && txs[i].status == Posted ==> txs[i].time % DAY == 0
    ensures PostedLegs(txs, Some(day * DAY + 1), Some((day + 1) * DAY - 1)) == []
  {
    if txs != [] {
      NoHoursAtMidnight(txs[..|txs| - 1], day);
      if txs[|txs| - 1].status == Posted {
        MidnightIsNoHour(txs[|txs| - 1].time, day);
      }
    }
  }

  /** Adjacent windows meet exactly, if every posting is dated at midnight. */
  lemma MidnightWindowsMeet(j: Journal, account: int, start: int, end: int)
    requires start <= end && DatedAtMidnight(j)
    ensures Opening(j, account, start) + MovementNet(j, account, Some(start), Some(end)) == Opening(j, account, end + 1)
  {
    WindowsTelescope(j, account, start, end);
    NoHoursAtMidnight(j.txs, end);
  }

  /** A posting at noon on the last day of a window is in neither that window nor the next one. */
  lemma NoonPostingIsDropped(start: int, end: int, amount: int)
    requires start <= end && amount != 0
    ensures var j := Journal({1}, [Tx(end * DAY + DAY / 2, Posted, [Leg(1, amount, 0)])], [], []);
      && Opening(j, 1, start) + MovementNet(j, 1, Some(start), Some(end)) != Opening(j, 1, end + 1)
      && LastDayHours(j, 1, end) == amount
  {
    var tx := Tx(end * DAY + DAY / 2, Posted, [Leg(1, amount, 0)]);
    var j := Journal({1}, [tx], [], []);
    WindowsTelescope(j, 1, start, end);
    PostedLegsAppend([], tx, Some(end * DAY + 1), Some((end + 1) * DAY - 1));
    assert [] + [tx] == [tx];
    assert [] + [Leg(1, amount, 0)] == [Leg(1, amount, 0)];
    OneLeg(Leg(1, amount, 0));
  }

  ghost predicate Increasing(cuts: seq<int>)
  {
    forall i :: 0 < i < |cuts| ==> cuts[i - 1] < cuts[i]
  }

  /** The windows between successive cut days, each running up to the day before the next cut. */
  function WindowsNet(j: Journal, account: int, cuts: seq<int>): int
    requires |cuts| > 0
  {
    if |cuts| == 1 then MovementNet(j, account, Some(cuts[0]), None)
    else MovementNet(j, account, Some(cuts[0]), Some(cuts[1] - 1)) + WindowsNet(j, account, cuts[1..])
  }

  /** What the windows drop: the hours of the day before each later cut. */
  function DroppedNet(j: Journal, account: int, cuts: seq<int>): int
    requires |cuts| > 0
  {
    if |cuts| == 1 then 0 else LastDayHours(j, account, cuts[1] - 1) + DroppedNet(j, account, cuts[1..])
  }

  lemma WindowThenCut(j: Journal, account: int, cut: int, next: int)
    requires cut < next
    ensures Opening(j, account, cut) + MovementNet(j, account, Some(cut), Some(next - 1)) + LastDayHours(j, account, next - 1)
            == Opening(j, account, next)
  {
    WindowsTelescope(j, account, cut, next - 1);
  }

  lemma FirstWindow(j: Journal, account: int, cuts: seq<int>)
    requires |cuts| > 1 && cuts[0] < cuts[1]
    ensures Opening(j, account, cuts[0]) + WindowsNet(j, account, cuts) + DroppedNet(j, account, cuts) ==
            Opening(j, account, cuts[1]) + WindowsNet(j, account, cuts[1..]) + DroppedNet(j, account, cuts[1..])
  {
    WindowThenCut(j, account, cuts[0], cuts[1]);
  }

  lemma LastWindow(j: Journal, account: int, cuts: seq<int>)
    requires |cuts| == 1
    ensures Opening(j, account, cuts[0]) + WindowsNet(j, account, cuts) + DroppedNet(j, account, cuts) == RunningBalance(j, account)
  {
    OpenWindowEndsOnBalance(j, account, cuts[0]);
  }

  /** Any partition of time into ledger windows, with the dropped hours, sums to the running balance. */
  lemma {:induction false} PartitionSumsToBalance(j: Journal, account: int, cuts: seq<int>)
    requires |cuts| > 0 && Increasing(cuts)
    ensures Opening(j, account, cuts[0]) + WindowsNet(j, account, cuts) + DroppedNet(j, account, cuts) == RunningBalance(j, account)
  {
    if |cuts| == 1 {
      LastWindow(j, account, cuts);
    } else {
      FirstWindow(j, account, cuts);
      PartitionSumsToBalance(j, account, cuts[1..]);
    }
  }

  lemma {:induction false} NothingDropped(j: Journal, account: int, cuts: seq<int>)
    requires |cuts| > 0 && DatedAtMidnight(j)
    ensures DroppedNet(j, account, cuts) == 0
  {
    if |cuts| > 1 {
      NoHoursAtMidnight(j.txs, cuts[1] - 1);
      NothingDropped(j, account, cuts[1..]);
    }
  }

  /** With every posting at midnight nothing is dropped: the windows alone sum to the running balance. */
  lemma MidnightPartition(j: Journal, account: int, cuts: seq<int>)
    requires |cuts| > 0 && DatedAtMidnight(j) && Increasing(cuts)
    ensures Opening(j, account, cuts[0]) + WindowsNet(j, account, cuts) == RunningBalance(j, account)
  {
    PartitionSumsToBalance(j, account, cuts);
    NothingDropped(j, account, cuts);
  }
}
