/**
 * The finance report screen: income, expense and profit for a year or one of its
 * months, the twelve monthly income buckets of the chart, the year and month
 * selectors, and the manual entry of an income or an expense.
 */
module Reports {
  import opened Options
  import opened Text
  import opened JsNumber
  import opened Seqs
  import opened Records
  import opened Backend

  /** A timestamp falls in the selected year and, when one is selected, the selected month. */
  predicate InPeriod(s: Stamp, year: int, month: Option<Month>) {
    s.year == year && (month.None? || s.month == month.value)
  }

  /** The report's income rule: every order not marked unpaid, with a creation time in the period. */
  predicate CountsAsIncome(o: OrderDoc, year: int, month: Option<Month>) {
    o.payment != Some(Unpaid) && o.createdAt.Some? && InPeriod(o.createdAt.value, year, month)
  }

  predicate CountsAsExpense(e: ExpenseDoc, year: int, month: Option<Month>) {
    e.date.Some? && InPeriod(e.date.value, year, month)
  }

  function Income(orders: seq<OrderDoc>, year: int, month: Option<Month>): int {
    SumOf(Filter(orders, (o: OrderDoc) => CountsAsIncome(o, year, month)), OrderTotal)
  }

  function Expense(expenses: seq<ExpenseDoc>, year: int, month: Option<Month>): int {
    SumOf(Filter(expenses, (e: ExpenseDoc) => CountsAsExpense(e, year, month)), ExpenseAmount)
  }

  lemma IncomeStep(orders: seq<OrderDoc>, o: OrderDoc, year: int, month: Option<Month>)
    ensures Income(orders + [o], year, month) ==
            Income(orders, year, month) + (if CountsAsIncome(o, year, month) then OrderTotal(o) else 0)
  {
    SumOfFilterAppendOne(orders, o, (x: OrderDoc) => CountsAsIncome(x, year, month), OrderTotal);
  }

  lemma ExpenseStep(expenses: seq<ExpenseDoc>, e: ExpenseDoc, year: int, month: Option<Month>)
    ensures Expense(expenses + [e], year, month) ==
            Expense(expenses, year, month) + (if CountsAsExpense(e, year, month) then ExpenseAmount(e) else 0)
  {
    SumOfFilterAppendOne(expenses, e, (x: ExpenseDoc) => CountsAsExpense(x, year, month), ExpenseAmount);
  }

  /** The `forEach` over the orders of `filtered`. */
  method SumIncome(orders: seq<OrderDoc>, year: int, month: Option<Month>) returns (income: int)
    ensures income == Income(orders, year, month)
  {
    income := 0;
    var i := 0;
    while i < |orders|
      invariant 0 <= i <= |orders|
      invariant income == Income(orders[..i], year, month)
    {
      var o := orders[i];
      IncomeStep(orders[..i], o, year, month);
      assert orders[..i + 1] == orders[..i] + [o];
      if o.payment != Some(Unpaid) && o.createdAt.Some? {
        var d := o.createdAt.value;
        if d.year == year && (month.None? || d.month == month.value) {
          income := income + OrZero(o.total);
        }
      }
      i := i + 1;
    }
    assert orders[..i] == orders;
  }

  /** The `forEach` over the expenses of `filtered`. */
  method SumExpense(expenses: seq<ExpenseDoc>, year: int, month: Option<Month>) returns (expense: int)
    ensures expense == Expense(expenses, year, month)
  {
    expense := 0;
    var j := 0;
    while j < |expenses|
      invariant 0 <= j <= |expenses|
      invariant expense == Expense(expenses[..j], year, month)
    {
      var e := expenses[j];
      ExpenseStep(expenses[..j], e, year, month);
      assert expenses[..j + 1] == expenses[..j] + [e];
      if e.date.Some? {
        var d := e.date.value;
        if d.year == year && (month.None? || d.month == month.value) {
          expense := expense + OrZero(e.amount);
        }
      }
      j := j + 1;
    }
    assert expenses[..j] == expenses;
  }

  /** `filtered`: the two accumulations and their difference. */
  method Filtered(orders: seq<OrderDoc>, expenses: seq<ExpenseDoc>, year: int, month: Option<Month>)
    returns (income: int, expense: int, profit: int)
    ensures income == Income(orders, year, month)
    ensures expense == Expense(expenses, year, month)
    ensures profit == income - expense
  {
    income := SumIncome(orders, year, month);
    expense := SumExpense(expenses, year, month);
    profit := income - expense;
  }

  /**
   * `chartData`: bucket `m` accumulates, in an array of twelve zeros updated in place,
   * the income of month `m` of the selected year; the month selector plays no part.
   */
  method ChartData(orders: seq<OrderDoc>, year: int) returns (buckets: seq<int>)
    ensures |buckets| == 12
    ensures forall m :: 0 <= m < 12 ==> buckets[m] == Income(orders, year, Some(m))
  {
    var monthly := new int[12](_ => 0);
    var i := 0;
    while i < |orders|
      invariant 0 <= i <= |orders|
      invariant forall m :: 0 <= m < 12 ==> monthly[m] == Income(orders[..i], year, Some(m))
    {
      var o := orders[i];
      if o.payment != Some(Unpaid) && o.createdAt.Some? {
        var d := o.createdAt.value;
        if d.year == year {
          monthly[d.month] := monthly[d.month] + OrZero(o.total);
        }
      }
      forall m | 0 <= m < 12
        ensures monthly[m] == Income(orders[..i + 1], year, Some(m))
      {
        BucketStep(orders, i, year, m);
      }
      i := i + 1;
    }
    assert orders[..i] == orders;
    buckets := monthly[..];
  }

  /** Bucket `m` grows by an order's total exactly when the order counts for the year and falls in month `m`. */
  lemma BucketStep(orders: seq<OrderDoc>, i: int, year: int, m: Month)
    requires 0 <= i < |orders|
    ensures Income(orders[..i + 1], year, Some(m)) == Income(orders[..i], year, Some(m)) +
      (if orders[i].payment != Some(Unpaid) && orders[i].createdAt.Some? && orders[i].createdAt.value.year == year &&
          orders[i].createdAt.value.month == m then OrZero(orders[i].total) else 0)
  {
    assert orders[..i + 1] == orders[..i] + [orders[i]];
    IncomeStep(orders[..i], orders[i], year, Some(m));
  }

  /** The sum of the first `n` monthly buckets. */
  function MonthsTotal(orders: seq<OrderDoc>, year: int, n: nat): int
    requires n <= 12
  {
    if n == 0 then 0 else MonthsTotal(orders, year, n - 1) + Income(orders, year, Some(n - 1))
  }

  /** An order adds its total to the first `n` buckets when it counts for the year and its month is below `n`. */
  lemma {:induction false} MonthsTotalStep(orders: seq<OrderDoc>, o: OrderDoc, year: int, n: nat)
    requires n <= 12
    ensures MonthsTotal(orders + [o], year, n) == MonthsTotal(orders, year, n) +
      (if CountsAsIncome(o, year, None) && o.createdAt.value.month < n then OrderTotal(o) else 0)
  {
    if n > 0 {
      MonthsTotalStep(orders, o, year, n - 1);
      IncomeStep(orders, o, year, Some(n - 1));
    }
  }

  /** The twelve buckets add up to the year's income. */
  lemma {:induction false} MonthsTotalIsYear(orders: seq<OrderDoc>, year: int)
    ensures MonthsTotal(orders, year, 12) == Income(orders, year, None)
  {
    if orders == [] {
      MonthsTotalEmpty(year, 12);
    } else {
      var init, o := orders[..|orders| - 1], orders[|orders| - 1];
      assert orders == init + [o];
      MonthsTotalIsYear(init, year);
      MonthsTotalStep(init, o, year, 12);
      IncomeStep(init, o, year, None);
    }
  }

  lemma {:induction false} MonthsTotalEmpty(year: int, n: nat)
    requires n <= 12
    ensures MonthsTotal([], year, n) == 0
  {
    if n > 0 {
      MonthsTotalEmpty(year, n - 1);
    }
  }

  /** The chart's buckets sum to the income of the whole selected year. */
  lemma ChartSumsToYear(orders: seq<OrderDoc>, year: int, buckets: seq<int>)
    requires |buckets| == 12
    requires forall m :: 0 <= m < 12 ==> buckets[m] == Income(orders, year, Some(m))
    ensures SumOf(buckets, (x: int) => x) == Income(orders, year, None)
  {
    forall n: nat | n <= 12 ensures SumOf(buckets[..n], (x: int) => x) == MonthsTotal(orders, year, n) {
      BucketPrefix(orders, year, buckets, n);
    }
    assert buckets[..12] == buckets;
    MonthsTotalIsYear(orders, year);
  }

  lemma {:induction false} BucketPrefix(orders: seq<OrderDoc>, year: int, buckets: seq<int>, n: nat)
    requires |buckets| == 12 && n <= 12
    requires forall m :: 0 <= m < 12 ==> buckets[m] == Income(orders, year, Some(m))
    ensures SumOf(buckets[..n], (x: int) => x) == MonthsTotal(orders, year, n)
  {
    if n > 0 {
      BucketPrefix(orders, year, buckets, n - 1);
      assert buckets[..n][..n - 1] == buckets[..n - 1];
      var m: Month := n - 1;
      assert buckets[m] == Income(orders, year, Some(m));
    }
  }

  datatype EntryKind = IncomeEntry | ExpenseEntry

  datatype SaveResult = MissingInput | NoUser | Saved

  /** The order document a manual income entry adds: a `"paid"` order with only a total, a time, an owner and a note. */
  function IncomeRecord(amt: int, note: string, uid: string, now: Stamp): OrderDoc {
    OrderDoc(None, None, None, None, None, None, NoItems, Some(amt), None, Some(Paid), None, Some(uid), Some(now), Some(Trim(note)))
  }

  function ExpenseRecord(amt: int, note: string, uid: string, now: Stamp): ExpenseDoc {
    ExpenseDoc(Some(amt), Trim(note), Some(now), uid, None, None)
  }

  /** `saveTransaction`'s checks in order: a missing or zero amount or a blank note, then the user. */
  function TransactionGuard(amtText: string, note: string, uid: Option<string>): (r: SaveResult)
    ensures r == MissingInput <==> IsFalsy(ToNumber(amtText)) || IsBlank(note)
    ensures r == NoUser <==> !IsFalsy(ToNumber(amtText)) && !IsBlank(note) && (uid.None? || uid.value == "")
    ensures r == Saved ==> ToNumber(amtText).Some? && ToNumber(amtText).value != 0
  {
    if IsFalsy(ToNumber(amtText)) || IsBlank(note) then MissingInput
    else if uid.None? || uid.value == "" then NoUser
    else Saved
  }

  /** The write of an accepted entry under the new document id. */
  function TransactionWrite(db: Db, kind: EntryKind, amt: int, note: string, uid: string, id: string, now: Stamp): Db {
    match kind
    case ExpenseEntry => PutExpense(db, id, ExpenseRecord(amt, note, uid, now))
    case IncomeEntry => PutOrder(db, id, IncomeRecord(amt, note, uid, now))
  }

  /** A manual income entry counts in the report of its year and month, and of the whole year. */
  lemma IncomeEntryCounts(orders: seq<OrderDoc>, amt: int, note: string, uid: string, now: Stamp, month: Option<Month>)
    requires month.None? || month.value == now.month
    ensures Income(orders + [IncomeRecord(amt, note, uid, now)], now.year, month) == Income(orders, now.year, month) + amt
  {
    IncomeStep(orders, IncomeRecord(amt, note, uid, now), now.year, month);
  }

  /** A manual expense counts in the report of its year and month, and of the whole year. */
  lemma ExpenseEntryCounts(expenses: seq<ExpenseDoc>, amt: int, note: string, uid: string, now: Stamp, month: Option<Month>)
    requires month.None? || month.value == now.month
    ensures Expense(expenses + [ExpenseRecord(amt, note, uid, now)], now.year, month) == Expense(expenses, now.year, month) + amt
  {
    ExpenseStep(expenses, ExpenseRecord(amt, note, uid, now), now.year, month);
  }

  class ReportsScreen {
    var selectedYear: int
    var selectedMonth: Option<Month>
    var modal: bool
    var modalType: EntryKind
    var newAmt: string
    var newNote: string

    constructor(currentYear: int)
      ensures selectedYear == currentYear && selectedMonth.None?
      ensures !modal && modalType == ExpenseEntry && newAmt == "" && newNote == ""
    {
      selectedYear, selectedMonth := currentYear, None;
      modal, modalType, newAmt, newNote := false, ExpenseEntry, "", "";
    }

    /** The year field: `parseInt(t) || currentYear`. */
    method TypeYear(t: string, currentYear: int)
      modifies this`selectedYear
      ensures var p := ParseIntPrefix(t);
        selectedYear == (if p.None? || p.value == 0 then currentYear else p.value)
    {
      var p := ParseIntPrefix(t);
      if p.None? || p.value == 0 {
        selectedYear := currentYear;
      } else {
        selectedYear := p.value;
      }
    }

    /** "Semua". */
    method SelectAllMonths()
      modifies this`selectedMonth
      ensures selectedMonth.None?
    {
      selectedMonth := None;
    }

    /** Tapping a month selects it, or clears the selection when it is already selected. */
    method TapMonth(m: Month)
      modifies this`selectedMonth
      ensures old(selectedMonth) == Some(m) ==> selectedMonth.None?
      ensures old(selectedMonth) != Some(m) ==> selectedMonth == Some(m)
    {
      if selectedMonth == Some(m) {
        selectedMonth := None;
      } else {
        selectedMonth := Some(m);
      }
    }

    method OpenEntry(kind: EntryKind)
      modifies this`modalType, this`modal
      ensures modalType == kind && modal
    {
      modalType, modal := kind, true;
    }

    method CancelEntry()
      modifies this`modal
      ensures !modal
    {
      modal := false;
    }

    /**
     * `saveTransaction`: a rejected entry writes nothing and keeps the form; an accepted one
     * stores the number read from the amount field and the trimmed note, then clears the form
     * and closes it.
     */
    method SaveTransaction(store: Store, uid: Option<string>, id: string, now: Stamp) returns (r: SaveResult)
      modifies store, this`newAmt, this`newNote, this`modal
      ensures r == TransactionGuard(old(newAmt), old(newNote), uid)
      ensures r != Saved ==> store.Snapshot() == old(store.Snapshot()) && newAmt == old(newAmt) && newNote == old(newNote) && modal == old(modal)
      ensures r == Saved ==>
        store.Snapshot() == TransactionWrite(old(store.Snapshot()), modalType, ToNumber(old(newAmt)).value, old(newNote), uid.value, id, now) &&
        newAmt == "" && newNote == "" && !modal
    {
      r := TransactionGuard(newAmt, newNote, uid);
      if r != Saved {
        return;
      }
      var amt := ToNumber(newAmt).value;
      if modalType == ExpenseEntry {
        store.AddExpense(id, ExpenseRecord(amt, newNote, uid.value, now));
      } else {
        store.SetOrder(id, IncomeRecord(amt, newNote, uid.value, now));
      }
      newAmt, newNote, modal := "", "", false;
    }
  }
}
