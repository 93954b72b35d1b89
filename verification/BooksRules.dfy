/**
  What each accounting handler accepts and what it then does, read off the periods, statuses and amounts
  themselves; what a closed period freezes; and what the VAT totals add up.
 */
module BooksRules {
  import opened Wrappers
  import opened Books
  import opened BooksProofs

  // ---------------------------------------------------------------- accepting

  lemma GateIs(j: Journal, day: int)
    ensures Blocked(j, day) <==>
            || (exists i :: 0 <= i < |j.periods| && j.periods[i].start <= day <= j.periods[i].end && j.periods[i].status != Open)
            || (exists i :: 0 <= i < |j.fiscal| && j.fiscal[i].start <= day <= j.fiscal[i].end && j.fiscal[i].status == FiscalClosed)
  {
  }

  /** A creation goes through exactly when all of this holds; only a posted one looks at the periods. */
  lemma CreateAcceptedIff(j: Journal, req: Request)
    ensures CreateRefusal(j, req).None? <==>
            && req.entries != []
            && req.date.Some? && req.date.value.time.Some?
            && req.status != Unknown
            && -100 <= Debits(ToLegs(req.entries)) - Credits(ToLegs(req.entries)) <= 100
            && (forall i :: 0 <= i < |req.entries| ==> req.entries[i].account.Some? && req.entries[i].account.value in j.accounts)
            && (req.status == WantPosted ==>
                  && req.date.value.gate.Some?
                  && (forall i :: 0 <= i < |j.periods| && j.periods[i].start <= req.date.value.gate.value <= j.periods[i].end ==>
                        j.periods[i].status == Open)
                  && (forall i :: 0 <= i < |j.fiscal| && j.fiscal[i].start <= req.date.value.gate.value <= j.fiscal[i].end ==>
                        j.fiscal[i].status == FiscalOpen || j.fiscal[i].status == SoftClosed))
  {
    if req.date.Some? && req.date.value.gate.Some? {
      GateIs(j, req.date.value.gate.value);
    }
  }

  /** On a day that no closed period holds, posting asks for nothing a draft does not. */
  lemma OpenDayNeverStops(j: Journal, req: Request, day: int)
    requires req.date.Some? && req.date.value.gate == Some(day)
    requires forall i :: 0 <= i < |j.periods| && j.periods[i].start <= day <= j.periods[i].end ==> j.periods[i].status == Open
    requires forall i :: 0 <= i < |j.fiscal| && j.fiscal[i].start <= day <= j.fiscal[i].end ==> j.fiscal[i].status != FiscalClosed
    ensures CreateRefusal(j, req.(status := WantPosted)) == CreateRefusal(j, req.(status := WantDraft))
  {
    GateIs(j, day);
  }

  /** On a day in a closed or filed tax period, or in a closed accounting period, nothing is posted. */
  lemma ClosedDayStops(j: Journal, req: Request, id: int, day: int)
    requires || (exists i :: 0 <= i < |j.periods| && j.periods[i].start <= day <= j.periods[i].end && j.periods[i].status in {Closed, Filed})
             || (exists i :: 0 <= i < |j.fiscal| && j.fiscal[i].start <= day <= j.fiscal[i].end && j.fiscal[i].status == FiscalClosed)
    ensures req.status == WantPosted && req.date.Some? && req.date.value.gate == Some(day) ==> CreateStep(j, req) == j
    ensures PostStep(j, id, day) == j
  {
    GateIs(j, day);
  }

  /** A draft is posted exactly when all of this holds. */
  lemma PostAcceptedIff(j: Journal, id: int, gate: int)
    ensures PostRefusal(j, id, gate).None? <==>
            && 0 <= id < |j.txs| && j.txs[id].status == Draft
            && (forall i :: 0 <= i < |j.periods| && j.periods[i].start <= gate <= j.periods[i].end ==> j.periods[i].status == Open)
            && (forall i :: 0 <= i < |j.fiscal| && j.fiscal[i].start <= gate <= j.fiscal[i].end ==>
                  j.fiscal[i].status == FiscalOpen || j.fiscal[i].status == SoftClosed)
            && j.txs[id].legs != [] && Debits(j.txs[id].legs) != 0
            && -100 <= Debits(j.txs[id].legs) - Credits(j.txs[id].legs) <= 100
  {
    GateIs(j, gate);
  }

  /** A tax period is opened exactly when it is a range, named, and shares no day with another. */
  lemma OpenAcceptedIff(j: Journal, start: int, end: int, country: string, kind: string)
    requires forall i :: 0 <= i < |j.periods| ==> j.periods[i].start <= j.periods[i].end
    ensures OpenRefusal(j, start, end, country, kind).None? <==>
            && start <= end && country != "" && kind != ""
            && forall i, day :: 0 <= i < |j.periods| && start <= day <= end ==> !Covers(j.periods[i].start, j.periods[i].end, day)
  {
    if i :| 0 <= i < |j.periods| && Overlaps(j.periods[i], start, end) {
      var day := if j.periods[i].start <= start then start else j.periods[i].start;
      assert start <= end ==> Covers(j.periods[i].start, j.periods[i].end, day);
    }
  }

  // ---------------------------------------------------------------- effects

  /** An accepted creation adds one transaction at the end: dated by its instant, posted if asked for, one leg an entry. */
  lemma CreateEffect(j: Journal, req: Request)
    requires CreateRefusal(j, req).None?
    ensures var after := CreateStep(j, req); var tx := after.txs[|after.txs| - 1];
            && after == j.(txs := j.txs + [tx])
            && Some(tx.time) == req.date.value.time
            && tx.status == (if req.status == WantPosted then Posted else Draft)
            && |tx.legs| == |req.entries|
            && forall i :: 0 <= i < |tx.legs| ==>
                 && Some(tx.legs[i].account) == req.entries[i].account
                 && tx.legs[i].debit == req.entries[i].debit && tx.legs[i].credit == req.entries[i].credit
  {
    CreateAcceptedIff(j, req);
  }

  /** A posting turns one draft to posted and changes nothing else. */
  lemma PostEffect(j: Journal, id: int, gate: int)
    requires PostRefusal(j, id, gate).None?
    ensures PostStep(j, id, gate) == j.(txs := j.txs[id := Tx(j.txs[id].time, Posted, j.txs[id].legs)])
  {
  }

  /** A tax period changes exactly from open to closed, from closed to open or filed, or to what it is; filing stamps it. */
  lemma PeriodChangesIff(j: Journal, id: int, to: PeriodStatus, now: int)
    ensures MayChange(j, id, to) <==>
            0 <= id < |j.periods| &&
            (j.periods[id].status, to) in
              {(Open, Open), (Open, Closed), (Closed, Open), (Closed, Closed), (Closed, Filed), (Filed, Filed)}
    ensures MayChange(j, id, to) ==>
              var p := j.periods[id];
              PeriodStep(j, id, to, now) == j.(periods := j.periods[id := Period(p.start, p.end, to, if to == Filed then Some(now) else p.filedAt)])
    ensures !MayChange(j, id, to) ==> PeriodStep(j, id, to, now) == j
  {
  }

  // ---------------------------------------------------------------- closed days

  /** The legs posted on whole days, from one midnight to the last instant before another. */
  function DayLegs(j: Journal, first: int, last: int): seq<Leg>
  {
    PostedLegs(j.txs, Some(first * DAY), Some((last + 1) * DAY - 1))
  }

  ghost predicate AllBlocked(j: Journal, first: int, last: int)
  {
    forall day :: first <= day <= last ==> Blocked(j, day)
  }

  lemma BlockedInstant(j: Journal, first: int, last: int, time: int)
    requires AllBlocked(j, first, last) && first * DAY <= time <= (last + 1) * DAY - 1
    ensures Blocked(j, Day(time))
  {
    assert first <= Day(time) <= last;
  }

  lemma BlockedDaysKeep(j: Journal, step: Step, first: int, last: int)
    requires AllBlocked(j, first, last) && GateAgrees(j, step)
    ensures DayLegs(Apply(j, step), first, last) == DayLegs(j, first, last)
  {
    var from, upTo := Some(first * DAY), Some((last + 1) * DAY - 1);
    match step
    case Create(req) =>
      if CreateRefusal(j, req).None? {
        if Counted(ToTx(req), from, upTo) {
          BlockedInstant(j, first, last, ToTx(req).time);
        }
        PostedLegsAppend(j.txs, ToTx(req), from, upTo);
        assert PostedLegs(j.txs, from, upTo) + [] == PostedLegs(j.txs, from, upTo);
      }
    case Post(id, gate) =>
      if PostRefusal(j, id, gate).None? {
        var posted := j.txs[id].(status := Posted);
        if Counted(posted, from, upTo) {
          BlockedInstant(j, first, last, posted.time);
        }
        SameLegsAfterUpdate(j.txs, id, posted, from, upTo);
      }
    case _ =>
  }

  lemma {:induction false} BlockedDaysFrozen(j: Journal, steps: seq<Step>, first: int, last: int)
    requires forall m :: 0 <= m < |steps| ==> AllBlocked(Exec(j, steps[..m]), first, last) && GateAgrees(Exec(j, steps[..m]), steps[m])
    ensures DayLegs(Exec(j, steps), first, last) == DayLegs(j, first, last)
  {
    if steps != [] {
      var front := steps[..|steps| - 1];
      forall m | 0 <= m < |front| ensures AllBlocked(Exec(j, front[..m]), first, last) && GateAgrees(Exec(j, front[..m]), front[m]) {
        assert front[..m] == steps[..m];
      }
      BlockedDaysFrozen(j, front, first, last);
      BlockedDaysKeep(Exec(j, front), steps[|steps| - 1], first, last);
    }
  }

  /** While an accounting period is closed and every gate looks at the stored day, its days' posted legs do not change. */
  lemma ClosedYearIsFrozen(j: Journal, steps: seq<Step>, f: nat, start: int, end: int)
    requires forall m :: 0 <= m < |steps| ==>
               f < |Exec(j, steps[..m]).fiscal| && Exec(j, steps[..m]).fiscal[f] == FiscalPeriod(start, end, FiscalClosed)
    requires forall m :: 0 <= m < |steps| ==> GateAgrees(Exec(j, steps[..m]), steps[m])
    ensures DayLegs(Exec(j, steps), start, end) == DayLegs(j, start, end)
  {
    forall m | 0 <= m < |steps| ensures AllBlocked(Exec(j, steps[..m]), start, end) {
      var c := Exec(j, steps[..m]);
      assert c.fiscal[f] == FiscalPeriod(start, end, FiscalClosed);
      forall day | start <= day <= end ensures Blocked(c, day) {
        GateIs(c, day);
      }
    }
    BlockedDaysFrozen(j, steps, start, end);
  }

  /** The same while a tax period is closed or filed. */
  lemma ClosedPeriodIsFrozen(j: Journal, steps: seq<Step>, p: nat, start: int, end: int)
    requires forall m :: 0 <= m < |steps| ==> p < |Exec(j, steps[..m]).periods|
    requires forall m :: 0 <= m < |steps| ==>
               var q := Exec(j, steps[..m]).periods[p]; q.start == start && q.end == end && q.status in {Closed, Filed}
    requires forall m :: 0 <= m < |steps| ==> GateAgrees(Exec(j, steps[..m]), steps[m])
    ensures DayLegs(Exec(j, steps), start, end) == DayLegs(j, start, end)
  {
    forall m | 0 <= m < |steps| ensures AllBlocked(Exec(j, steps[..m]), start, end) {
      var c := Exec(j, steps[..m]);
      assert c.periods[p].start == start && c.periods[p].end == end && c.periods[p].status in {Closed, Filed};
      forall day | start <= day <= end ensures Blocked(c, day) {
        GateIs(c, day);
      }
    }
    BlockedDaysFrozen(j, steps, start, end);
  }

  // ---------------------------------------------------------------- what the VAT totals add up

  /** One side of an account's legs, added up leg by leg. */
  function LegsTotal(legs: seq<Leg>, account: int, debit: bool): int
  {
    if legs == [] then 0
    else
      var leg := legs[|legs| - 1];
      LegsTotal(legs[..|legs| - 1], account, debit) +
      if leg.account != account then 0 else if debit then leg.debit else leg.credit
  }

  /** The same over all transactions posted between two instants. */
  function BookTotal(txs: seq<Tx>, lo: int, hi: int, account: int, debit: bool): int
  {
    if txs == [] then 0
    else
      var tx := txs[|txs| - 1];
      BookTotal(txs[..|txs| - 1], lo, hi, account, debit) +
      if tx.status == Posted && lo <= tx.time <= hi then LegsTotal(tx.legs, account, debit) else 0
  }

  lemma {:induction false} LegsTotalIs(legs: seq<Leg>, account: int)
    ensures LegsTotal(legs, account, true) == Debits(OnAccount(legs, account))
    ensures LegsTotal(legs, account, false) == Credits(OnAccount(legs, account))
  {
    if legs != [] {
      var rest, leg := legs[..|legs| - 1], legs[|legs| - 1];
      var own := if leg.account == account then [leg] else [];
      LegsTotalIs(rest, account);
      assert OnAccount(legs, account) == OnAccount(rest, account) + own;
      DebitsAppend(OnAccount(rest, account), own);
      OneLeg(leg);
    }
  }

  lemma {:induction false} BookTotalIs(txs: seq<Tx>, lo: int, hi: int, account: int)
    ensures var legs := OnAccount(PostedLegs(txs, Some(lo), Some(hi)), account);
            BookTotal(txs, lo, hi, account, true) == Debits(legs) && BookTotal(txs, lo, hi, account, false) == Credits(legs)
  {
    if txs != [] {
      var rest, tx := txs[..|txs| - 1], txs[|txs| - 1];
      var earlier := PostedLegs(rest, Some(lo), Some(hi));
      var added := if tx.status == Posted && lo <= tx.time <= hi then tx.legs else [];
      BookTotalIs(rest, lo, hi, account);
      assert PostedLegs(txs, Some(lo), Some(hi)) == earlier + added;
      OnAccountAppend(earlier, added, account);
      DebitsAppend(OnAccount(earlier, account), OnAccount(added, account));
      LegsTotalIs(added, account);
    }
  }

  ghost predicate HasLeg(legs: seq<Leg>, account: int)
  {
    exists k :: 0 <= k < |legs| && legs[k].account == account
  }

  lemma HasLegAppend(a: seq<Leg>, b: seq<Leg>, account: int)
    ensures HasLeg(a + b, account) <==> HasLeg(a, account) || HasLeg(b, account)
  {
    if k :| 0 <= k < |a| && a[k].account == account {
      assert (a + b)[k].account == account;
    }
    if k :| 0 <= k < |b| && b[k].account == account {
      assert (a + b)[|a| + k].account == account;
    }
  }

  lemma {:induction false} OnAccountHasLeg(legs: seq<Leg>, account: int)
    ensures OnAccount(legs, account) != [] <==> HasLeg(legs, account)
  {
    if legs != [] {
      var rest, leg := legs[..|legs| - 1], legs[|legs| - 1];
      OnAccountHasLeg(rest, account);
      HasLegAppend(rest, [leg], account);
      assert legs == rest + [leg];
      assert [leg][0] == leg;
    }
  }

  /** The transaction is posted between two instants and has a leg on the account. */
  ghost predicate Touches(tx: Tx, lo: int, hi: int, account: int)
  {
    tx.status == Posted && lo <= tx.time <= hi && HasLeg(tx.legs, account)
  }

  lemma {:induction false} PostedHasLeg(txs: seq<Tx>, lo: int, hi: int, account: int)
    ensures HasLeg(PostedLegs(txs, Some(lo), Some(hi)), account) <==> exists i :: 0 <= i < |txs| && Touches(txs[i], lo, hi, account)
  {
    if txs != [] {
      var rest, tx := txs[..|txs| - 1], txs[|txs| - 1];
      var added := if tx.status == Posted && lo <= tx.time <= hi then tx.legs else [];
      PostedHasLeg(rest, lo, hi, account);
      HasLegAppend(PostedLegs(rest, Some(lo), Some(hi)), added, account);
      assert PostedLegs(txs, Some(lo), Some(hi)) == PostedLegs(rest, Some(lo), Some(hi)) + added;
      assert HasLeg(added, account) <==> Touches(txs[|txs| - 1], lo, hi, account);
      forall i | 0 <= i < |rest| ensures Touches(rest[i], lo, hi, account) <==> Touches(txs[i], lo, hi, account) {}
    }
  }

  /**
    The VAT query has a row for each of the two accounts that some transaction posted between the two
    midnights touches, and for no other; it carries the debits first and the credits second.
   */
  lemma VatRows(j: Journal, output: int, input: int, start: int, end: int, account: int)
    ensures account in VatLegs(j, output, input, start, end) <==>
            (account == output || account == input) &&
            exists i :: 0 <= i < |j.txs| && Touches(j.txs[i], start * 86_400_000_000, end * 86_400_000_000, account)
    ensures account in VatLegs(j, output, input, start, end) ==>
              VatLegs(j, output, input, start, end)[account] ==
                (BookTotal(j.txs, start * 86_400_000_000, end * 86_400_000_000, account, true),
                 BookTotal(j.txs, start * 86_400_000_000, end * 86_400_000_000, account, false))
  {
    OnAccountHasLeg(PostedLegs(j.txs, Some(start * DAY), Some(end * DAY)), account);
    PostedHasLeg(j.txs, start * DAY, end * DAY, account);
    BookTotalIs(j.txs, start * DAY, end * DAY, account);
  }

  /** The two totals of an account, zero without a row. */
  function VatOf(j: Journal, output: int, input: int, start: int, end: int, account: int): (int, int)
  {
    var vat := VatLegs(j, output, input, start, end);
    if account in vat then vat[account] else (0, 0)
  }

  lemma VatOfIs(j: Journal, output: int, input: int, start: int, end: int, account: int)
    requires account == output || account == input
    ensures VatOf(j, output, input, start, end, account) ==
            (BookTotal(j.txs, start * DAY, end * DAY, account, true), BookTotal(j.txs, start * DAY, end * DAY, account, false))
  {
    BookTotalIs(j.txs, start * DAY, end * DAY, account);
  }

  /** Its debits less its credits are the account's movement between the same dates. */
  lemma VatNetIsMovement(j: Journal, output: int, input: int, start: int, end: int, account: int)
    requires account == output || account == input
    ensures VatOf(j, output, input, start, end, account).0 - VatOf(j, output, input, start, end, account).1 ==
            MovementNet(j, account, Some(start), Some(end))
  {
    assert Movement(j, account, Some(start), Some(end)) == OnAccount(PostedLegs(j.txs, Some(start * DAY), Some(end * DAY)), account);
  }

  lemma BookTotalSnoc(txs: seq<Tx>, tx: Tx, lo: int, hi: int, account: int, debit: bool)
    ensures BookTotal(txs + [tx], lo, hi, account, debit) ==
            BookTotal(txs, lo, hi, account, debit) + if tx.status == Posted && lo <= tx.time <= hi then LegsTotal(tx.legs, account, debit) else 0
  {
    assert (txs + [tx])[..|txs|] == txs;
  }

  /** Creating a posted transaction dated inside adds its legs, debits to the first total and credits to the second; no other creation adds anything. */
  lemma CreateAddsVat(j: Journal, req: Request, output: int, input: int, start: int, end: int, account: int)
    requires (account == output || account == input) && CreateRefusal(j, req).None?
    ensures var before, after := VatOf(j, output, input, start, end, account), VatOf(CreateStep(j, req), output, input, start, end, account);
            var legs := ToTx(req).legs;
            if req.status == WantPosted && start * DAY <= req.date.value.time.value <= end * DAY
            then after == (before.0 + LegsTotal(legs, account, true), before.1 + LegsTotal(legs, account, false))
            else after == before
  {
    VatOfIs(j, output, input, start, end, account);
    VatOfIs(CreateStep(j, req), output, input, start, end, account);
    BookTotalSnoc(j.txs, ToTx(req), start * DAY, end * DAY, account, true);
    BookTotalSnoc(j.txs, ToTx(req), start * DAY, end * DAY, account, false);
  }

  lemma {:induction false} BookTotalUpdate(txs: seq<Tx>, id: nat, lo: int, hi: int, account: int, debit: bool)
    requires id < |txs| && txs[id].status != Posted
    ensures BookTotal(txs[id := txs[id].(status := Posted)], lo, hi, account, debit) ==
            BookTotal(txs, lo, hi, account, debit) + if lo <= txs[id].time <= hi then LegsTotal(txs[id].legs, account, debit) else 0
  {
    var last, posted := |txs| - 1, txs[id].(status := Posted);
    if id == last {
      assert txs[id := posted][..last] == txs[..last];
    } else {
      assert txs[id := posted][..last] == txs[..last][id := posted];
      BookTotalUpdate(txs[..last], id, lo, hi, account, debit);
    }
  }

  /** Posting a draft dated inside does the same. */
  lemma PostAddsVat(j: Journal, id: int, gate: int, output: int, input: int, start: int, end: int, account: int)
    requires (account == output || account == input) && PostRefusal(j, id, gate).None?
    ensures var before, after := VatOf(j, output, input, start, end, account), VatOf(PostStep(j, id, gate), output, input, start, end, account);
            if start * DAY <= j.txs[id].time <= end * DAY
            then after == (before.0 + LegsTotal(j.txs[id].legs, account, true), before.1 + LegsTotal(j.txs[id].legs, account, false))
            else after == before
  {
    VatOfIs(j, output, input, start, end, account);
    VatOfIs(PostStep(j, id, gate), output, input, start, end, account);
    BookTotalUpdate(j.txs, id, start * DAY, end * DAY, account, true);
    BookTotalUpdate(j.txs, id, start * DAY, end * DAY, account, false);
  }
}
