/**
  Supplier balances, computed twice: in one closed expression for the supplier list, and as the
  running balance of the statement.
 */
module Supplier {
  import opened Wrappers

  datatype Invoice = Invoice(
    number: string, date: int, total: int, base: Option<int>, cancelled: bool, cash: bool)

  datatype Return = Return(number: string, date: int, total: int, posted: bool)

  datatype Voucher = Voucher(number: string, date: int, amount: int, base: Option<int>, posted: bool)

  /** One supplier's row and documents; `openingDate` may be null. */
  datatype Account = Account(
    openingBalance: int,
    openingDate: Option<int>,
    invoices: seq<Invoice>,
    returned: seq<Return>,
    vouchers: seq<Voucher>)

  function Coalesce(base: Option<int>, amount: int): int
  {
    if base.Some? then base.value else amount
  }

  // ---------------------------------------------------------------- the closed form

  /** Credit invoices that are not cancelled, in base currency. */
  function InvoicesBase(invoices: seq<Invoice>): int
  {
    if invoices == [] then 0
    else
      var i := invoices[0];
      (if !i.cancelled && !i.cash then Coalesce(i.base, i.total) else 0) + InvoicesBase(invoices[1..])
  }

  function VouchersBase(vouchers: seq<Voucher>): int
  {
    if vouchers == [] then 0
    else (if vouchers[0].posted then Coalesce(vouchers[0].base, vouchers[0].amount) else 0) + VouchersBase(vouchers[1..])
  }

  function ReturnsTotal(returned: seq<Return>): int
  {
    if returned == [] then 0
    else (if returned[0].posted then returned[0].total else 0) + ReturnsTotal(returned[1..])
  }

  /** `computed_balance` of `purchases.getSuppliers`. */
  function ComputedBalance(a: Account): int
  {
    a.openingBalance + InvoicesBase(a.invoices) - VouchersBase(a.vouchers) - ReturnsTotal(a.returned)
  }

  // ---------------------------------------------------------------- the statement

  /** A statement entry; `rank` is the query's sort_type. */
  datatype Entry = Entry(date: int, rank: int, number: string, debit: int, credit: int)

  /** 1900-01-01, as a day number of the statement's calendar. */
  const NO_OPENING_DATE: int := -25567

  function OpeningEntries(a: Account): seq<Entry>
  {
    if a.openingBalance == 0 then []
    else [Entry(if a.openingDate.Some? then a.openingDate.value else NO_OPENING_DATE, 0, "OPENING",
                if a.openingBalance < 0 then -a.openingBalance else 0,
                if a.openingBalance >= 0 then a.openingBalance else 0)]
  }

  function InvoiceEntries(invoices: seq<Invoice>): seq<Entry>
  {
    if invoices == [] then []
    else
      var i := invoices[0];
      (if !i.cancelled && !i.cash then [Entry(i.date, 1, i.number, 0, i.total)] else []) + InvoiceEntries(invoices[1..])
  }

  function ReturnEntries(returned: seq<Return>): seq<Entry>
  {
    if returned == [] then []
    else
      var r := returned[0];
      (if r.posted then [Entry(r.date, 1, r.number, r.total, 0)] else []) + ReturnEntries(returned[1..])
  }

  function VoucherEntries(vouchers: seq<Voucher>): seq<Entry>
  {
    if vouchers == [] then []
    else
      var v := vouchers[0];
      (if v.posted then [Entry(v.date, 2, v.number, v.amount, 0)] else []) + VoucherEntries(vouchers[1..])
  }

  function Entries(a: Account): seq<Entry>
  {
    OpeningEntries(a) + InvoiceEntries(a.invoices) + ReturnEntries(a.returned) + VoucherEntries(a.vouchers)
  }

  /** Some total order on document numbers; which one the database's collation gives does not matter here. */
  ghost predicate IsCollation(leq: (string, string) -> bool)
  {
    && (forall x, y :: leq(x, y) || leq(y, x))
    && (forall x, y, z :: leq(x, y) && leq(y, z) ==> leq(x, z))
  }

  /** ORDER BY date, sort_type, doc_number. */
  predicate NotAfter(leq: (string, string) -> bool, x: Entry, y: Entry)
  {
    x.date < y.date || (x.date == y.date && (x.rank < y.rank || (x.rank == y.rank && leq(x.number, y.number))))
  }

  ghost predicate Ordered(leq: (string, string) -> bool, rows: seq<Entry>)
  {
    forall i, j :: 0 <= i < j < |rows| ==> NotAfter(leq, rows[i], rows[j])
  }

  /** A statement goes by date, then opening, documents and payments, then number. */
  lemma OrderedMeans(leq: (string, string) -> bool, rows: seq<Entry>, i: nat, j: nat)
    requires Ordered(leq, rows) && i < j < |rows|
    ensures rows[i].date <= rows[j].date
    ensures rows[i].date == rows[j].date ==> rows[i].rank <= rows[j].rank
    ensures rows[i].date == rows[j].date && rows[i].rank == rows[j].rank ==> leq(rows[i].number, rows[j].number)
  {
    assert NotAfter(leq, rows[i], rows[j]);
  }

  /** SUM(credit - debit) of the rows among `rows` that are not after `row`. */
  function SumNotAfter(leq: (string, string) -> bool, rows: seq<Entry>, row: Entry): int
  {
    if rows == [] then 0
    else
      var last := rows[|rows| - 1];
      SumNotAfter(leq, rows[..|rows| - 1], row) + if NotAfter(leq, last, row) then last.credit - last.debit else 0
  }

  /**
    `rows` is a statement of the account: its entries in an order the query allows, each with the
    window sum over every entry not after it, so that entries that tie share one balance.
   */
  ghost predicate IsStatement(leq: (string, string) -> bool, a: Account, rows: seq<Entry>, balances: seq<int>)
  {
    && multiset(rows) == multiset(Entries(a))
    && Ordered(leq, rows)
    && |balances| == |rows|
    && forall i :: 0 <= i < |rows| ==> balances[i] == SumNotAfter(leq, rows, rows[i])
  }

  // ---------------------------------------------------------------- the two agree

  function Net(rows: seq<Entry>): int
  {
    if rows == [] then 0 else Net(rows[..|rows| - 1]) + rows[|rows| - 1].credit - rows[|rows| - 1].debit
  }

  lemma {:induction false} NetAppend(a: seq<Entry>, b: seq<Entry>)
    ensures Net(a + b) == Net(a) + Net(b)
  {
    if b == [] {
      assert a + b == a;
    } else {
      assert (a + b)[..|a + b| - 1] == a + b[..|b| - 1];
      NetAppend(a, b[..|b| - 1]);
    }
  }

  lemma NetOne(e: Entry)
    ensures Net([e]) == e.credit - e.debit
  {
    assert [e][..0] == [];
  }

  lemma {:induction false} NetRemove(rows: seq<Entry>, i: nat)
    requires i < |rows|
    ensures Net(rows) == Net(rows[..i] + rows[i + 1..]) + rows[i].credit - rows[i].debit
  {
    assert rows == rows[..i] + ([rows[i]] + rows[i + 1..]);
    NetAppend(rows[..i], [rows[i]] + rows[i + 1..]);
    NetAppend([rows[i]], rows[i + 1..]);
    NetAppend(rows[..i], rows[i + 1..]);
    NetOne(rows[i]);
  }

  lemma MultisetRemove(rows: seq<Entry>, i: nat)
    requires i < |rows|
    ensures multiset(rows[..i] + rows[i + 1..]) == multiset(rows) - multiset{rows[i]}
  {
    assert rows == rows[..i] + ([rows[i]] + rows[i + 1..]);
  }

  /** The order of the rows does not change their sum. */
  lemma {:induction false} NetIsOrderFree(a: seq<Entry>, b: seq<Entry>)
    requires multiset(a) == multiset(b)
    ensures Net(a) == Net(b)
  {
    if a == [] {
      assert |b| == |multiset(b)| == 0;
    } else {
      var last := |a| - 1;
      assert a[last] in multiset(a);
      assert a[last] in b;
      var i :| 0 <= i < |b| && b[i] == a[last];
      MultisetRemove(a, last);
      MultisetRemove(b, i);
      assert a[..last] + a[last + 1..] == a[..last];
      NetIsOrderFree(a[..last], b[..i] + b[i + 1..]);
      NetRemove(b, i);
    }
  }

  /** For the last row of an ordered statement, no row is after it, so its window is the whole statement. */
  lemma {:induction false} LastWindowIsAll(leq: (string, string) -> bool, rows: seq<Entry>, row: Entry)
    requires forall i :: 0 <= i < |rows| ==> NotAfter(leq, rows[i], row)
    ensures SumNotAfter(leq, rows, row) == Net(rows)
  {
    if rows != [] {
      LastWindowIsAll(leq, rows[..|rows| - 1], row);
    }
  }

  lemma {:induction false} SumSplits(leq: (string, string) -> bool, rows: seq<Entry>, row: Entry, k: nat)
    requires k <= |rows|
    requires forall j :: 0 <= j < k ==> NotAfter(leq, rows[j], row)
    requires forall j :: k <= j < |rows| ==> !NotAfter(leq, rows[j], row)
    ensures SumNotAfter(leq, rows, row) == Net(rows[..k])
    decreases |rows|
  {
    if k == |rows| {
      assert rows[..k] == rows;
      LastWindowIsAll(leq, rows, row);
    } else {
      var front := rows[..|rows| - 1];
      assert front[..k] == rows[..k];
      SumSplits(leq, front, row, k);
    }
  }

  /**
    Every balance of a statement is the sum of the entries down to its own row; rows that tie share the
    sum down to the last of them, row `k`.
   */
  lemma RunningBalance(leq: (string, string) -> bool, a: Account, rows: seq<Entry>, balances: seq<int>, i: nat, k: nat)
    requires IsCollation(leq) && IsStatement(leq, a, rows, balances) && i <= k < |rows|
    requires NotAfter(leq, rows[k], rows[i]) && (k + 1 < |rows| ==> !NotAfter(leq, rows[k + 1], rows[i]))
    ensures balances[i] == Net(rows[..k + 1])
  {
    forall j | 0 <= j <= k ensures NotAfter(leq, rows[j], rows[i]) {
      assert j < k ==> NotAfter(leq, rows[j], rows[k]);
    }
    forall j | k + 1 <= j < |rows| ensures !NotAfter(leq, rows[j], rows[i]) {
      assert j > k + 1 ==> NotAfter(leq, rows[k + 1], rows[j]);
    }
    SumSplits(leq, rows, rows[i], k + 1);
  }

  /** Down a statement, the balance moves by each row's credit less its debit. */
  lemma NetNext(rows: seq<Entry>, k: nat)
    requires k < |rows|
    ensures Net(rows[..k + 1]) == Net(rows[..k]) + rows[k].credit - rows[k].debit
  {
    assert rows[..k + 1][..k] == rows[..k];
  }

  // ---------------------------------------------------------------- which documents count

  /** With no documents there is the opening balance: owed to the supplier if positive, by him if negative, no entry if zero. */
  lemma OpeningAlone(opening: int, date: Option<int>)
    ensures var a := Account(opening, date, [], [], []);
            && ComputedBalance(a) == opening
            && Entries(a) ==
                 if opening == 0 then []
                 else [Entry(if date.Some? then date.value else -25567, 0, "OPENING",
                             if opening < 0 then -opening else 0, if opening < 0 then 0 else opening)]
  {
  }

  lemma FirstInvoice(i: Invoice, rest: seq<Invoice>)
    ensures InvoicesBase([i] + rest) ==
            InvoicesBase(rest) + if i.cancelled || i.cash then 0 else if i.base.Some? then i.base.value else i.total
    ensures InvoiceEntries([i] + rest) ==
            (if i.cancelled || i.cash then [] else [Entry(i.date, 1, i.number, 0, i.total)]) + InvoiceEntries(rest)
  {
    assert ([i] + rest)[1..] == rest;
  }

  lemma FirstReturn(r: Return, rest: seq<Return>)
    ensures ReturnsTotal([r] + rest) == ReturnsTotal(rest) + if r.posted then r.total else 0
    ensures ReturnEntries([r] + rest) == (if r.posted then [Entry(r.date, 1, r.number, r.total, 0)] else []) + ReturnEntries(rest)
  {
    assert ([r] + rest)[1..] == rest;
  }

  lemma FirstVoucher(v: Voucher, rest: seq<Voucher>)
    ensures VouchersBase([v] + rest) ==
            VouchersBase(rest) + if v.posted then if v.base.Some? then v.base.value else v.amount else 0
    ensures VoucherEntries([v] + rest) == (if v.posted then [Entry(v.date, 2, v.number, v.amount, 0)] else []) + VoucherEntries(rest)
  {
    assert ([v] + rest)[1..] == rest;
  }

  lemma Regroup(o: seq<Entry>, i: seq<Entry>, r: seq<Entry>, v: seq<Entry>, e: seq<Entry>)
    ensures o + i + r + v == o + (i + r + v) && o + (e + i) + r + v == o + e + (i + r + v)
    ensures o + i + r + v == (o + i) + (r + v) && o + i + (e + r) + v == (o + i) + e + (r + v)
    ensures o + i + r + (e + v) == (o + i + r) + e + v
  {
  }

  /** A credit invoice that is not cancelled adds its base amount to the balance; any other adds nothing. */
  lemma InvoiceCounts(a: Account, i: Invoice)
    ensures ComputedBalance(a.(invoices := [i] + a.invoices)) ==
            ComputedBalance(a) + if i.cancelled || i.cash then 0 else if i.base.Some? then i.base.value else i.total
  {
    FirstInvoice(i, a.invoices);
  }

  /** In the statement it is one more entry, on the credit side, of its total; any other is none. */
  lemma InvoiceIsListed(a: Account, i: Invoice) returns (before: seq<Entry>, after: seq<Entry>)
    ensures Entries(a) == before + after
    ensures Entries(a.(invoices := [i] + a.invoices)) ==
            before + (if i.cancelled || i.cash then [] else [Entry(i.date, 1, i.number, 0, i.total)]) + after
  {
    before, after := OpeningEntries(a), InvoiceEntries(a.invoices) + ReturnEntries(a.returned) + VoucherEntries(a.vouchers);
    FirstInvoice(i, a.invoices);
    Regroup(OpeningEntries(a), InvoiceEntries(a.invoices), ReturnEntries(a.returned), VoucherEntries(a.vouchers),
            if i.cancelled || i.cash then [] else [Entry(i.date, 1, i.number, 0, i.total)]);
  }

  /** A posted return takes its total off; an unposted one nothing. */
  lemma ReturnCounts(a: Account, r: Return)
    ensures ComputedBalance(a.(returned := [r] + a.returned)) == ComputedBalance(a) - if r.posted then r.total else 0
  {
    FirstReturn(r, a.returned);
  }

  lemma ReturnIsListed(a: Account, r: Return) returns (before: seq<Entry>, after: seq<Entry>)
    ensures Entries(a) == before + after
    ensures Entries(a.(returned := [r] + a.returned)) ==
            before + (if r.posted then [Entry(r.date, 1, r.number, r.total, 0)] else []) + after
  {
    before, after := OpeningEntries(a) + InvoiceEntries(a.invoices), ReturnEntries(a.returned) + VoucherEntries(a.vouchers);
    FirstReturn(r, a.returned);
    Regroup(OpeningEntries(a), InvoiceEntries(a.invoices), ReturnEntries(a.returned), VoucherEntries(a.vouchers),
            if r.posted then [Entry(r.date, 1, r.number, r.total, 0)] else []);
  }

  /** A posted payment takes its base amount off; an unposted one nothing. */
  lemma VoucherCounts(a: Account, v: Voucher)
    ensures ComputedBalance(a.(vouchers := [v] + a.vouchers)) ==
            ComputedBalance(a) - if v.posted then if v.base.Some? then v.base.value else v.amount else 0
  {
    FirstVoucher(v, a.vouchers);
  }

  lemma VoucherIsListed(a: Account, v: Voucher) returns (before: seq<Entry>, after: seq<Entry>)
    ensures Entries(a) == before + after
    ensures Entries(a.(vouchers := [v] + a.vouchers)) ==
            before + (if v.posted then [Entry(v.date, 2, v.number, v.amount, 0)] else []) + after
  {
    before, after := OpeningEntries(a) + InvoiceEntries(a.invoices) + ReturnEntries(a.returned), VoucherEntries(a.vouchers);
    FirstVoucher(v, a.vouchers);
    Regroup(OpeningEntries(a), InvoiceEntries(a.invoices), ReturnEntries(a.returned), VoucherEntries(a.vouchers),
            if v.posted then [Entry(v.date, 2, v.number, v.amount, 0)] else []);
  }

  // ---------------------------------------------------------------- base currency against document currency

  function InvoiceGap(invoices: seq<Invoice>): int
  {
    if invoices == [] then 0
    else
      var i := invoices[0];
      (if !i.cancelled && !i.cash then Coalesce(i.base, i.total) - i.total else 0) + InvoiceGap(invoices[1..])
  }

  function VoucherGap(vouchers: seq<Voucher>): int
  {
    if vouchers == [] then 0
    else (if vouchers[0].posted then Coalesce(vouchers[0].base, vouchers[0].amount) - vouchers[0].amount else 0) + VoucherGap(vouchers[1..])
  }

  /** How far the closed form, in base currency, is from the statement, in document currency. */
  function CurrencyGap(a: Account): int
  {
    InvoiceGap(a.invoices) - VoucherGap(a.vouchers)
  }

  lemma {:induction false} InvoicesNet(invoices: seq<Invoice>)
    ensures Net(InvoiceEntries(invoices)) == InvoicesBase(invoices) - InvoiceGap(invoices)
  {
    if invoices != [] {
      var i := invoices[0];
      var first := if !i.cancelled && !i.cash then [Entry(i.date, 1, i.number, 0, i.total)] else [];
      NetAppend(first, InvoiceEntries(invoices[1..]));
      NetOne(Entry(i.date, 1, i.number, 0, i.total));
      InvoicesNet(invoices[1..]);
    }
  }

  lemma {:induction false} ReturnsNet(returned: seq<Return>)
    ensures Net(ReturnEntries(returned)) == -ReturnsTotal(returned)
  {
    if returned != [] {
      var r := returned[0];
      var first := if r.posted then [Entry(r.date, 1, r.number, r.total, 0)] else [];
      NetAppend(first, ReturnEntries(returned[1..]));
      NetOne(Entry(r.date, 1, r.number, r.total, 0));
      ReturnsNet(returned[1..]);
    }
  }

  lemma {:induction false} VouchersNet(vouchers: seq<Voucher>)
    ensures Net(VoucherEntries(vouchers)) == VoucherGap(vouchers) - VouchersBase(vouchers)
  {
    if vouchers != [] {
      var v := vouchers[0];
      var first := if v.posted then [Entry(v.date, 2, v.number, v.amount, 0)] else [];
      NetAppend(first, VoucherEntries(vouchers[1..]));
      NetOne(Entry(v.date, 2, v.number, v.amount, 0));
      VouchersNet(vouchers[1..]);
    }
  }

  lemma EntriesNet(a: Account)
    ensures Net(Entries(a)) == ComputedBalance(a) - CurrencyGap(a)
  {
    var o, i, r, v := OpeningEntries(a), InvoiceEntries(a.invoices), ReturnEntries(a.returned), VoucherEntries(a.vouchers);
    NetAppend(o + i + r, v);
    NetAppend(o + i, r);
    NetAppend(o, i);
    if o != [] { NetOne(o[0]); }
    InvoicesNet(a.invoices);
    ReturnsNet(a.returned);
    VouchersNet(a.vouchers);
  }

  /**
    For every set of documents, every collation and every order of ties, the last running balance of
    a non-empty statement is the computed balance less the currency gap: the two agree exactly when
    that gap is zero.
   */
  lemma StatementEndsOnBalance(leq: (string, string) -> bool, a: Account, rows: seq<Entry>, balances: seq<int>)
    requires IsCollation(leq) && IsStatement(leq, a, rows, balances) && |rows| > 0
    ensures balances[|rows| - 1] == ComputedBalance(a) - CurrencyGap(a)
    ensures balances[|rows| - 1] == ComputedBalance(a) <==> CurrencyGap(a) == 0
  {
    var last := rows[|rows| - 1];
    forall i | 0 <= i < |rows| ensures NotAfter(leq, rows[i], last) {
      assert leq(last.number, last.number);
    }
    LastWindowIsAll(leq, rows, last);
    NetIsOrderFree(rows, Entries(a));
    EntriesNet(a);
  }

  lemma {:induction false} NoGapWithoutEntries(invoices: seq<Invoice>, vouchers: seq<Voucher>)
    requires InvoiceEntries(invoices) == [] && VoucherEntries(vouchers) == []
    ensures InvoiceGap(invoices) == 0 && VoucherGap(vouchers) == 0
    decreases |invoices| + |vouchers|
  {
    if invoices != [] {
      NoGapWithoutEntries(invoices[1..], vouchers);
    } else if vouchers != [] {
      NoGapWithoutEntries(invoices, vouchers[1..]);
    }
  }

  /** An account without entries has a zero balance in the closed form too. */
  lemma EmptyStatementIsZero(a: Account)
    requires Entries(a) == []
    ensures ComputedBalance(a) == CurrencyGap(a) == 0
  {
    EntriesNet(a);
    assert OpeningEntries(a) == [] && InvoiceEntries(a.invoices) == [] && VoucherEntries(a.vouchers) == [];
    NoGapWithoutEntries(a.invoices, a.vouchers);
  }

  /** Every counted document's base-currency amount is absent or equals its own amount. */
  ghost predicate OneCurrency(a: Account)
  {
    && (forall i :: 0 <= i < |a.invoices| && !a.invoices[i].cancelled && !a.invoices[i].cash ==>
          Coalesce(a.invoices[i].base, a.invoices[i].total) == a.invoices[i].total)
    && (forall i :: 0 <= i < |a.vouchers| && a.vouchers[i].posted ==>
          Coalesce(a.vouchers[i].base, a.vouchers[i].amount) == a.vouchers[i].amount)
  }

  lemma {:induction false} OneCurrencyNoGap(a: Account)
    requires OneCurrency(a)
    ensures CurrencyGap(a) == 0
    decreases |a.invoices| + |a.vouchers|
  {
    if a.invoices != [] {
      OneCurrencyNoGap(a.(invoices := a.invoices[1..]));
    } else if a.vouchers != [] {
      OneCurrencyNoGap(a.(vouchers := a.vouchers[1..]));
    }
  }

  /** In one currency the statement and the list agree, whatever the documents and the order of ties. */
  lemma StatementAgreesInOneCurrency(leq: (string, string) -> bool, a: Account, rows: seq<Entry>, balances: seq<int>)
    requires IsCollation(leq) && IsStatement(leq, a, rows, balances) && |rows| > 0 && OneCurrency(a)
    ensures balances[|rows| - 1] == ComputedBalance(a)
  {
    StatementEndsOnBalance(leq, a, rows, balances);
    OneCurrencyNoGap(a);
  }

  /**
    Outside one currency they need not agree: one invoice whose base amount differs from its total is
    enough, and then the statement is off by exactly that difference.
   */
  lemma ForeignInvoiceDisagrees(leq: (string, string) -> bool, number: string, date: int, total: int, base: int)
    requires IsCollation(leq) && base != total
    ensures var a := Account(0, None, [Invoice(number, date, total, Some(base), false, false)], [], []);
      var rows := [Entry(date, 1, number, 0, total)];
      && IsStatement(leq, a, rows, [total])
      && ComputedBalance(a) == base
  {
    var inv := Invoice(number, date, total, Some(base), false, false);
    var a := Account(0, None, [inv], [], []);
    var row := Entry(date, 1, number, 0, total);
    assert [inv][1..] == [];
    assert InvoiceEntries([inv]) == [row] + InvoiceEntries([]) == [row];
    assert Entries(a) == [] + [row] + [] + [] == [row];
    assert [row][..0] == [];
    assert leq(number, number);
    assert SumNotAfter(leq, [row], row) == SumNotAfter(leq, [], row) + total;
    assert InvoicesBase([inv]) == base + InvoicesBase([]);
  }
}
