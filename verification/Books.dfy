/**
  The journal of one company, the tax periods that gate posting to it, and the balances read back.

  Amounts are in units of 0.0001, the scale the database stores.  Instants are in microseconds and days
  are whole, both in the database session's time zone.  The day that gates a posting is read elsewhere:
  off the text of the request, or off the application's own clock.
 */
module Books {
  import opened Wrappers

  const DAY := 86_400_000_000
  /** 0.01 */
  const TOLERANCE := 100

  datatype PeriodStatus = Open | Closed | Filed

  datatype Period = Period(start: int, end: int, status: PeriodStatus, filedAt: Option<int>)

  datatype FiscalStatus = FiscalOpen | SoftClosed | FiscalClosed

  datatype FiscalPeriod = FiscalPeriod(start: int, end: int, status: FiscalStatus)

  datatype Leg = Leg(account: int, debit: int, credit: int)

  datatype TxStatus = Draft | Posted | Voided

  datatype Tx = Tx(time: int, status: TxStatus, legs: seq<Leg>)

  datatype Journal = Journal(
    accounts: set<int>,
    txs: seq<Tx>,
    periods: seq<Period>,
    fiscal: seq<FiscalPeriod>)

  function Day(time: int): int
  {
    time / DAY
  }

  function Abs(x: int): int
  {
    if x < 0 then -x else x
  }

  function Debits(legs: seq<Leg>): int
  {
    if legs == [] then 0 else Debits(legs[..|legs| - 1]) + legs[|legs| - 1].debit
  }

  function Credits(legs: seq<Leg>): int
  {
    if legs == [] then 0 else Credits(legs[..|legs| - 1]) + legs[|legs| - 1].credit
  }

  // ---------------------------------------------------------------- the posting gate

  predicate Covers(start: int, end: int, day: int)
  {
    start <= day <= end
  }

  /** A closed or filed tax period, or a closed accounting period, covers the day. */
  predicate Blocked(j: Journal, day: int)
  {
    || (exists i :: 0 <= i < |j.periods| && Covers(j.periods[i].start, j.periods[i].end, day) && j.periods[i].status != Open)
    || (exists i :: 0 <= i < |j.fiscal| && Covers(j.fiscal[i].start, j.fiscal[i].end, day) && j.fiscal[i].status == FiscalClosed)
  }

  // ---------------------------------------------------------------- create and post

  /** The requested status: left out, one of the two accepted values, or anything else. */
  datatype StatusField = Unset | WantDraft | WantPosted | Unknown

  datatype Entry = Entry(account: Option<int>, debit: int, credit: int)

  /**
    The date text of a request: the day its first ten characters name, if they have that form, and the
    instant the database reads the whole text as, if it can.
   */
  datatype PostDate = PostDate(gate: Option<int>, time: Option<int>)

  datatype Request = Request(date: Option<PostDate>, status: StatusField, entries: seq<Entry>)

  function ToLeg(e: Entry): Leg
  {
    Leg(if e.account.Some? then e.account.value else 0, e.debit, e.credit)
  }

  function ToLegs(entries: seq<Entry>): seq<Leg>
  {
    seq(|entries|, i requires 0 <= i < |entries| => ToLeg(entries[i]))
  }

  predicate HasInstant(req: Request)
  {
    req.date.Some? && req.date.value.time.Some?
  }

  function ToTx(req: Request): Tx
    requires HasInstant(req)
  {
    Tx(req.date.value.time.value, if req.status == WantPosted then Posted else Draft, ToLegs(req.entries))
  }

  predicate AccountsKnown(j: Journal, entries: seq<Entry>)
  {
    forall i :: 0 <= i < |entries| && entries[i].account.Some? ==> entries[i].account.value in j.accounts
  }

  /** The gate of a posted creation: the text must name a day, and that day must be open. */
  function GateRefusal(j: Journal, date: PostDate): Option<string>
  {
    if date.gate.None? then Some("Posting date is required")
    else if Blocked(j, date.gate.value) then Some("Posting period is closed")
    else None
  }

  /** The checks of `accounting.createTransaction`, in order; `None` lets the request through. */
  function CreateRefusal(j: Journal, req: Request): (refusal: Option<string>)
    ensures refusal.None? ==> HasInstant(req)
  {
    if |req.entries| == 0 then Some("No journal entries provided")
    else if req.date.None? then Some("companyId and date required")
    else if req.status == Unknown then Some("Invalid transaction status")
    else if Abs(Debits(ToLegs(req.entries)) - Credits(ToLegs(req.entries))) > TOLERANCE then Some("Journal entry is not balanced")
    else if req.status == WantPosted && GateRefusal(j, req.date.value).Some? then GateRefusal(j, req.date.value)
    else if exists i :: 0 <= i < |req.entries| && req.entries[i].account.None? then Some("accountId required")
    else if !AccountsKnown(j, req.entries) then Some("Journal account not found in company")
    else if req.date.value.time.None? then Some("invalid input syntax for type timestamp")
    else None
  }

  /** The INSERT alone, without its checks. */
  function Insert(j: Journal, req: Request): Journal
    requires HasInstant(req)
  {
    j.(txs := j.txs + [ToTx(req)])
  }

  function CreateStep(j: Journal, req: Request): Journal
  {
    if CreateRefusal(j, req).Some? then j else Insert(j, req)
  }

  /** The checks of `accounting.postTransaction`, in order; `gate` is the transaction's day on the application's clock. */
  function PostRefusal(j: Journal, id: int, gate: int): Option<string>
  {
    if !(0 <= id < |j.txs|) then Some("Transaction not found")
    else
      var tx := j.txs[id];
      var debit, credit := Debits(tx.legs), Credits(tx.legs);
      if tx.status != Draft then Some("Transaction is not in draft status (already posted or cancelled)")
      else if Blocked(j, gate) then Some("Posting period is closed")
      else if |tx.legs| == 0 || Abs(debit - credit) > TOLERANCE || debit == 0 then Some("Cannot post unbalanced transaction")
      else None
  }

  function PostStep(j: Journal, id: int, gate: int): Journal
  {
    if PostRefusal(j, id, gate).Some? then j else j.(txs := j.txs[id := j.txs[id].(status := Posted)])
  }

  // ---------------------------------------------------------------- tax periods

  predicate Overlaps(p: Period, start: int, end: int)
  {
    p.start <= end && p.end >= start
  }

  function OpenRefusal(j: Journal, start: int, end: int, country: string, kind: string): Option<string>
  {
    if end < start then Some("endDate must be on or after startDate")
    else if country == "" || kind == "" then Some("countryCode and periodType are required")
    else if exists i :: 0 <= i < |j.periods| && Overlaps(j.periods[i], start, end) then Some("Tax period overlaps an existing period")
    else None
  }

  function OpenStep(j: Journal, start: int, end: int, country: string, kind: string): Journal
  {
    if OpenRefusal(j, start, end, country, kind).Some? then j
    else j.(periods := j.periods + [Period(start, end, Open, None)])
  }

  /** open -> closed -> filed, closed -> open, and any status to itself. */
  predicate Transition(from: PeriodStatus, to: PeriodStatus)
  {
    (from == Open && to == Closed) || (from == Closed && to != Closed) || from == to
  }

  predicate MayChange(j: Journal, id: int, to: PeriodStatus)
  {
    0 <= id < |j.periods| && Transition(j.periods[id].status, to)
  }

  function ChangePeriod(p: Period, to: PeriodStatus, now: int): Period
  {
    p.(status := to, filedAt := if to == Filed then Some(now) else p.filedAt)
  }

  function PeriodStep(j: Journal, id: int, to: PeriodStatus, now: int): Journal
  {
    if MayChange(j, id, to) then j.(periods := j.periods[id := ChangePeriod(j.periods[id], to, now)]) else j
  }

  /** Among the covering periods, the one that ends last (ORDER BY end_date DESC LIMIT 1). */
  function FindPeriod(periods: seq<Period>, day: int): Option<int>
  {
    if periods == [] then None
    else
      var last := |periods| - 1;
      var earlier := FindPeriod(periods[..last], day);
      if !Covers(periods[last].start, periods[last].end, day) then earlier
      else if earlier.Some? && 0 <= earlier.value < last && periods[last].end <= periods[earlier.value].end then earlier
      else Some(last)
  }

  // ---------------------------------------------------------------- reading back

  predicate Within(time: int, from: Option<int>, upTo: Option<int>)
  {
    (from.Some? ==> from.value <= time) && (upTo.Some? ==> time <= upTo.value)
  }

  /** The legs of the posted transactions dated in the window, in row order. */
  function PostedLegs(txs: seq<Tx>, from: Option<int>, upTo: Option<int>): seq<Leg>
  {
    if txs == [] then []
    else
      var tx := txs[|txs| - 1];
      PostedLegs(txs[..|txs| - 1], from, upTo) + if tx.status == Posted && Within(tx.time, from, upTo) then tx.legs else []
  }

  function OnAccount(legs: seq<Leg>, account: int): seq<Leg>
  {
    if legs == [] then []
    else
      var leg := legs[|legs| - 1];
      OnAccount(legs[..|legs| - 1], account) + if leg.account == account then [leg] else []
  }

  /** SUM(debit - credit) of the account's legs. */
  function Net(legs: seq<Leg>, account: int): int
  {
    Debits(OnAccount(legs, account)) - Credits(OnAccount(legs, account))
  }

  /** `accounting.getAccounts`: the sum over every posted leg. */
  function RunningBalance(j: Journal, account: int): int
  {
    Net(PostedLegs(j.txs, None, None), account)
  }

  /** `tax.vatLegs`: debit and credit totals of two accounts between two dates; an account without legs has no row. */
  function VatLegs(j: Journal, output: int, input: int, start: int, end: int): map<int, (int, int)>
  {
    var legs := PostedLegs(j.txs, Some(start * DAY), Some(end * DAY));
    map a | a in {output, input} && OnAccount(legs, a) != [] :: (Debits(OnAccount(legs, a)), Credits(OnAccount(legs, a)))
  }

  /** `accounting.getLedger`, the opening row: everything dated before the window. */
  function Opening(j: Journal, account: int, start: int): int
  {
    Net(PostedLegs(j.txs, None, Some(start * DAY - 1)), account)
  }

  function DateBound(day: Option<int>): Option<int>
  {
    if day.Some? then Some(day.value * DAY) else None
  }

  /** `accounting.getLedger`, the movement rows: both bounds are dates, compared with the instant. */
  function Movement(j: Journal, account: int, start: Option<int>, end: Option<int>): seq<Leg>
  {
    OnAccount(PostedLegs(j.txs, DateBound(start), DateBound(end)), account)
  }

  // ---------------------------------------------------------------- runs

  datatype Step =
    | Create(req: Request)
    | Post(id: int, gate: int)
    | OpenPeriod(start: int, end: int, country: string, kind: string)
    | SetPeriod(period: int, to: PeriodStatus, now: int)
    | FiscalChange(fiscal: seq<FiscalPeriod>)

  function Apply(j: Journal, step: Step): Journal
  {
    match step
    case Create(req) => CreateStep(j, req)
    case Post(id, gate) => PostStep(j, id, gate)
    case OpenPeriod(start, end, country, kind) => OpenStep(j, start, end, country, kind)
    case SetPeriod(id, to, now) => PeriodStep(j, id, to, now)
    case FiscalChange(fiscal) => j.(fiscal := fiscal)
  }

  function Exec(j: Journal, steps: seq<Step>): Journal
  {
    if steps == [] then j else Apply(Exec(j, steps[..|steps| - 1]), steps[|steps| - 1])
  }

  // ---------------------------------------------------------------- the handlers

  lemma ToLegsNext(entries: seq<Entry>, k: nat)
    requires k < |entries|
    ensures ToLegs(entries[..k + 1])[..k] == ToLegs(entries[..k]) && ToLegs(entries[..k + 1])[k] == ToLeg(entries[k])
  {
  }

  /** The two `reduce` totals of a request. */
  method EntryTotals(entries: seq<Entry>) returns (debit: int, credit: int)
    ensures debit == Debits(ToLegs(entries)) && credit == Credits(ToLegs(entries))
  {
    debit, credit := 0, 0;
    for k := 0 to |entries|
      invariant debit == Debits(ToLegs(entries[..k])) && credit == Credits(ToLegs(entries[..k]))
    {
      ToLegsNext(entries, k);
      debit, credit := debit + entries[k].debit, credit + entries[k].credit;
    }
    assert entries[..|entries|] == entries;
  }

  /** The two totals read back for a stored transaction. */
  method LegTotals(legs: seq<Leg>) returns (debit: int, credit: int)
    ensures debit == Debits(legs) && credit == Credits(legs)
  {
    debit, credit := 0, 0;
    for k := 0 to |legs|
      invariant debit == Debits(legs[..k]) && credit == Credits(legs[..k])
    {
      assert legs[..k + 1][..k] == legs[..k];
      debit, credit := debit + legs[k].debit, credit + legs[k].credit;
    }
    assert legs[..|legs|] == legs;
  }

  /** The two period scans behind the posting gate. */
  method DayIsBlocked(periods: seq<Period>, fiscal: seq<FiscalPeriod>, day: int) returns (blocked: bool)
    ensures forall accounts, txs :: blocked == Blocked(Journal(accounts, txs, periods, fiscal), day)
  {
    for i := 0 to |periods|
      invariant forall k :: 0 <= k < i ==> !Covers(periods[k].start, periods[k].end, day) || periods[k].status == Open
    {
      if Covers(periods[i].start, periods[i].end, day) && periods[i].status != Open {
        return true;
      }
    }
    for i := 0 to |fiscal|
      invariant forall k :: 0 <= k < i ==> !Covers(fiscal[k].start, fiscal[k].end, day) || fiscal[k].status != FiscalClosed
    {
      if Covers(fiscal[i].start, fiscal[i].end, day) && fiscal[i].status == FiscalClosed {
        return true;
      }
    }
    blocked := false;
  }

  lemma NamedIds(ids: set<int>, accounts: set<int>, entries: seq<Entry>)
    requires forall id :: id in ids <==> exists k :: 0 <= k < |entries| && entries[k].account == Some(id)
    ensures ids <= accounts <==> forall i :: 0 <= i < |entries| && entries[i].account.Some? ==> entries[i].account.value in accounts
  {
    forall i | 0 <= i < |entries| && entries[i].account.Some? ensures entries[i].account.value in ids {
      var id: int := entries[i].account.value;
      assert entries[i].account == Some(id);
    }
    if forall i :: 0 <= i < |entries| && entries[i].account.Some? ==> entries[i].account.value in accounts {
      forall id | id in ids ensures id in accounts {
        var k :| 0 <= k < |entries| && entries[k].account == Some(id);
        assert entries[k].account.Some? && entries[k].account.value == id;
      }
    }
  }

  lemma SameSizeIsSubset(ids: set<int>, accounts: set<int>)
    ensures |ids * accounts| == |ids| <==> ids <= accounts
  {
    if ids <= accounts {
      assert ids * accounts == ids;
    } else {
      assert ids == ids * accounts + (ids - accounts);
    }
  }

  /** The account checks of a creation: every entry names one, and the company has as many of the named ones as are named. */
  method CheckAccounts(accounts: set<int>, entries: seq<Entry>) returns (named: bool, known: bool)
    ensures named <==> forall i :: 0 <= i < |entries| ==> entries[i].account.Some?
    ensures known <==> forall i :: 0 <= i < |entries| && entries[i].account.Some? ==> entries[i].account.value in accounts
  {
    var ids: set<int> := {};
    named := true;
    for i := 0 to |entries|
      invariant named <==> forall k :: 0 <= k < i ==> entries[k].account.Some?
      invariant forall id :: id in ids <==> exists k :: 0 <= k < i && entries[k].account == Some(id)
    {
      if entries[i].account.None? {
        named := false;
      } else {
        ids := ids + {entries[i].account.value};
      }
    }
    known := |ids * accounts| == |ids|;
    SameSizeIsSubset(ids, accounts);
    NamedIds(ids, accounts, entries);
  }

  /** The company's tables, changed by one handler at a time. */
  class CompanyBooks {
    var accounts: set<int>
    var txs: seq<Tx>
    var periods: seq<Period>
    var fiscal: seq<FiscalPeriod>

    ghost function View(): Journal
      reads this
    {
      Journal(accounts, txs, periods, fiscal)
    }

    /** `assertPostingPeriodsOpen`: the error it throws, if any. */
    method AssertPostingPeriodsOpen(date: PostDate) returns (refusal: Option<string>)
      ensures refusal == GateRefusal(View(), date)
    {
      if date.gate.None? {
        return Some("Posting date is required");
      }
      var blocked := DayIsBlocked(periods, fiscal, date.gate.value);
      refusal := if blocked then Some("Posting period is closed") else None;
    }

    /** `accounting.createTransaction`; the reply carries the new transaction's id. */
    method CreateTransaction(req: Request) returns (reply: Result<int>)
      modifies this`txs
      ensures View() == CreateStep(old(View()), req)
      ensures reply == match CreateRefusal(old(View()), req) case Some(e) => Err(e) case None => Ok(|old(txs)|)
    {
      if |req.entries| == 0 {
        return Err("No journal entries provided");
      }
      if req.date.None? {
        return Err("companyId and date required");
      }
      if req.status == Unknown {
        return Err("Invalid transaction status");
      }
      var debit, credit := EntryTotals(req.entries);
      if Abs(debit - credit) > TOLERANCE {
        return Err("Journal entry is not balanced");
      }
      if req.status == WantPosted {
        var gate := AssertPostingPeriodsOpen(req.date.value);
        if gate.Some? {
          return Err(gate.value);
        }
      }
      var named, known := CheckAccounts(accounts, req.entries);
      if !named {
        return Err("accountId required");
      }
      if !known {
        return Err("Journal account not found in company");
      }
      if req.date.value.time.None? {
        return Err("invalid input syntax for type timestamp");
      }
      reply := Ok(|txs|);
      txs := txs + [ToTx(req)];
    }

    /** `accounting.postTransaction`; `gate` is the transaction's day on the application's clock. */
    method PostTransaction(id: int, gate: int) returns (reply: Result<int>)
      modifies this`txs
      ensures View() == PostStep(old(View()), id, gate)
      ensures reply == match PostRefusal(old(View()), id, gate) case Some(e) => Err(e) case None => Ok(id)
    {
      if !(0 <= id < |txs|) {
        return Err("Transaction not found");
      }
      if txs[id].status != Draft {
        return Err("Transaction is not in draft status (already posted or cancelled)");
      }
      var blocked := DayIsBlocked(periods, fiscal, gate);
      if blocked {
        return Err("Posting period is closed");
      }
      var debit, credit := LegTotals(txs[id].legs);
      if |txs[id].legs| == 0 || Abs(debit - credit) > TOLERANCE || debit == 0 {
        return Err("Cannot post unbalanced transaction");
      }
      txs := txs[id := txs[id].(status := Posted)];
      reply := Ok(id);
    }

    /** `tax.openPeriod`. */
    method OpenTaxPeriod(start: int, end: int, country: string, kind: string) returns (reply: Result<int>)
      modifies this`periods
      ensures View() == OpenStep(old(View()), start, end, country, kind)
      ensures reply == match OpenRefusal(old(View()), start, end, country, kind) case Some(e) => Err(e) case None => Ok(|old(periods)|)
    {
      if end < start {
        return Err("endDate must be on or after startDate");
      }
      if country == "" || kind == "" {
        return Err("countryCode and periodType are required");
      }
      for i := 0 to |periods|
        invariant forall k :: 0 <= k < i ==> !Overlaps(periods[k], start, end)
      {
        if Overlaps(periods[i], start, end) {
          return Err("Tax period overlaps an existing period");
        }
      }
      reply := Ok(|periods|);
      periods := periods + [Period(start, end, Open, None)];
    }

    /** `tax.setPeriodStatus`. */
    method SetPeriodStatus(id: int, to: PeriodStatus, now: int) returns (reply: Result<int>)
      modifies this`periods
      ensures View() == PeriodStep(old(View()), id, to, now)
      ensures reply.Ok? <==> MayChange(old(View()), id, to)
    {
      if !(0 <= id < |periods|) || !Transition(periods[id].status, to) {
        return Err("Illegal tax-period transition");
      }
      var row := periods[id].(status := to);
      if to == Filed {
        row := row.(filedAt := Some(now));
      }
      periods := periods[id := row];
      reply := Ok(id);
    }
  }
}
