/**
 * The exported finance report: the income and expense items of a year or one of
 * its months, their totals, and the numbered rows of its two tables. Income here
 * is only what was entered by hand (`"paid"` orders), unlike the report screen.
 */
module PdfReport {
  import opened Options
  import opened Text
  import opened JsNumber
  import opened Seqs
  import opened Records
  import Reports

  /** `incomeItems`: orders with a creation time in the period whose payment is exactly `"paid"`. */
  predicate IsIncomeItem(o: OrderDoc, year: int, month: Option<Month>) {
    o.createdAt.Some? && o.payment == Some(Paid) && Reports.InPeriod(o.createdAt.value, year, month)
  }

  predicate IsExpenseItem(e: ExpenseDoc, year: int, month: Option<Month>) {
    e.date.Some? && Reports.InPeriod(e.date.value, year, month)
  }

  function IncomeItems(orders: seq<OrderDoc>, year: int, month: Option<Month>): (r: seq<OrderDoc>)
    ensures forall o :: o in r <==> o in orders && IsIncomeItem(o, year, month)
    ensures IsSubseq(r, orders)
    ensures forall x :: multiset(r)[x] == if IsIncomeItem(x, year, month) then multiset(orders)[x] else 0
  {
    FilterIsSubseq(orders, (o: OrderDoc) => IsIncomeItem(o, year, month));
    FilterMultiset(orders, (o: OrderDoc) => IsIncomeItem(o, year, month));
    Filter(orders, (o: OrderDoc) => IsIncomeItem(o, year, month))
  }

  function ExpenseItems(expenses: seq<ExpenseDoc>, year: int, month: Option<Month>): (r: seq<ExpenseDoc>)
    ensures forall e :: e in r <==> e in expenses && IsExpenseItem(e, year, month)
    ensures IsSubseq(r, expenses)
    ensures forall x :: multiset(r)[x] == if IsExpenseItem(x, year, month) then multiset(expenses)[x] else 0
  {
    FilterIsSubseq(expenses, (e: ExpenseDoc) => IsExpenseItem(e, year, month));
    FilterMultiset(expenses, (e: ExpenseDoc) => IsExpenseItem(e, year, month));
    Filter(expenses, (e: ExpenseDoc) => IsExpenseItem(e, year, month))
  }

  datatype Summary = Summary(income: int, expense: int, profit: int)

  /** The summary box: the item totals (NaN as 0) and their difference. */
  function Totals(orders: seq<OrderDoc>, expenses: seq<ExpenseDoc>, year: int, month: Option<Month>): (r: Summary)
    ensures r.profit == r.income - r.expense
  {
    var income := SumOf(IncomeItems(orders, year, month), OrderTotal);
    var expense := SumOf(ExpenseItems(expenses, year, month), ExpenseAmount);
    Summary(income, expense, income - expense)
  }

  /** Orders the report screen counts as income but the export does not: those paid at the counter or by deposit. */
  predicate CountedOnScreenOnly(o: OrderDoc, year: int, month: Option<Month>) {
    Reports.CountsAsIncome(o, year, month) && o.payment != Some(Paid)
  }

  function ScreenOnlyIncome(orders: seq<OrderDoc>, year: int, month: Option<Month>): int {
    SumOf(Filter(orders, (o: OrderDoc) => CountedOnScreenOnly(o, year, month)), OrderTotal)
  }

  /** The expense side is the same on both reports; their income differs by the orders paid otherwise than by hand. */
  lemma TotalsAgainstScreen(orders: seq<OrderDoc>, expenses: seq<ExpenseDoc>, year: int, month: Option<Month>)
    ensures Totals(orders, expenses, year, month).expense == Reports.Expense(expenses, year, month)
    ensures Reports.Income(orders, year, month) ==
      Totals(orders, expenses, year, month).income +
      ScreenOnlyIncome(orders, year, month)
  {
    var p := (o: OrderDoc) => Reports.CountsAsIncome(o, year, month);
    var inc := (o: OrderDoc) => IsIncomeItem(o, year, month);
    var rest := (o: OrderDoc) => CountedOnScreenOnly(o, year, month);
    SumOfFilterSplit(orders, p, inc, rest, OrderTotal);
    FilterSamePredicate(expenses, (e: ExpenseDoc) => IsExpenseItem(e, year, month),
      (e: ExpenseDoc) => Reports.CountsAsExpense(e, year, month));
  }

  /** `value || "-"` for an optional text. */
  function TextOrDash(s: Option<string>): (r: string)
    ensures r != ""
    ensures s.Some? && s.value != "" ==> r == s.value
  {
    if s.None? || s.value == "" then "-" else s.value
  }

  /** `orderNumber || "-"`: a missing or zero order number shows as a dash. */
  function OrderNoText(n: Option<int>): (r: string)
    ensures r == "-" <==> n.None? || n.value == 0
    ensures n.Some? && n.value != 0 ==> ToNumber(r) == n
  {
    if n.None? || n.value == 0 then "-"
    else
      ToNumberOfIntToString(n.value);
      IntToString(n.value)
  }

  /** One row of the income table: number, date, order number, customer and total. */
  datatype IncomeRow = IncomeRow(no: int, date: Stamp, orderNo: string, customer: string, total: int)

  datatype ExpenseRow = ExpenseRow(no: int, date: Stamp, category: string, description: string, amount: int)

  /** A table body: the rows, or the single placeholder row when there are none. */
  datatype Table<R> = Rows(rows: seq<R>) | Placeholder

  function IncomeRowOf(o: OrderDoc, no: int): IncomeRow
    requires o.createdAt.Some?
  {
    IncomeRow(no, o.createdAt.value, OrderNoText(o.orderNumber), TextOrDash(o.customerName), OrderTotal(o))
  }

  function ExpenseRowOf(e: ExpenseDoc, no: int): ExpenseRow
    requires e.date.Some?
  {
    ExpenseRow(no, e.date.value, TextOrDash(e.category), TextOrDash(e.description), ExpenseAmount(e))
  }

  /** One row per item in item order, numbered from 1. */
  function IncomeRows(items: seq<OrderDoc>): (r: seq<IncomeRow>)
    requires forall i :: 0 <= i < |items| ==> items[i].createdAt.Some?
    ensures |r| == |items|
    ensures forall i :: 0 <= i < |r| ==> r[i] == IncomeRowOf(items[i], i + 1)
  {
    if items == [] then []
    else
      var init := items[..|items| - 1];
      IncomeRows(init) + [IncomeRowOf(items[|items| - 1], |items|)]
  }

  function ExpenseRows(items: seq<ExpenseDoc>): (r: seq<ExpenseRow>)
    requires forall i :: 0 <= i < |items| ==> items[i].date.Some?
    ensures |r| == |items|
    ensures forall i :: 0 <= i < |r| ==> r[i] == ExpenseRowOf(items[i], i + 1)
  {
    if items == [] then []
    else
      var init := items[..|items| - 1];
      ExpenseRows(init) + [ExpenseRowOf(items[|items| - 1], |items|)]
  }

  /** The income table of the export; the placeholder exactly when there is no income item. */
  function IncomeTable(orders: seq<OrderDoc>, year: int, month: Option<Month>): (r: Table<IncomeRow>)
    ensures r.Placeholder? <==> IncomeItems(orders, year, month) == []
    ensures r.Rows? ==> |r.rows| == |IncomeItems(orders, year, month)|
  {
    var items := IncomeItems(orders, year, month);
    assert forall i :: 0 <= i < |items| ==> items[i] in items;
    if items == [] then Placeholder else Rows(IncomeRows(items))
  }

  function ExpenseTable(expenses: seq<ExpenseDoc>, year: int, month: Option<Month>): (r: Table<ExpenseRow>)
    ensures r.Placeholder? <==> ExpenseItems(expenses, year, month) == []
    ensures r.Rows? ==> |r.rows| == |ExpenseItems(expenses, year, month)|
  {
    var items := ExpenseItems(expenses, year, month);
    assert forall i :: 0 <= i < |items| ==> items[i] in items;
    if items == [] then Placeholder else Rows(ExpenseRows(items))
  }

  /** The income table's totals column adds up to the summary's income. */
  lemma {:induction false} IncomeRowsSum(items: seq<OrderDoc>)
    requires forall i :: 0 <= i < |items| ==> items[i].createdAt.Some?
    ensures SumOf(IncomeRows(items), (row: IncomeRow) => row.total) == SumOf(items, OrderTotal)
  {
    if items != [] {
      var init := items[..|items| - 1];
      IncomeRowsSum(init);
      var r := IncomeRows(items);
      assert r[..|r| - 1] == IncomeRows(init);
    }
  }

  /** Only hand-entered (`"paid"`) orders are income items; an order paid at the counter never is. */
  lemma IncomeItemsAreManual(o: OrderDoc, year: int, month: Option<Month>)
    ensures IsIncomeItem(o, year, month) ==> o.payment == Some(Paid)
    ensures o.payment == Some(Cash) || o.payment == Some(Qris) || o.payment == Some(Transfer) || o.payment == Some(Deposit) ==>
      !IsIncomeItem(o, year, month)
  {
  }

  /** A manual income entry is an income item of its own month and of its year. */
  lemma ManualEntryIsIncomeItem(amt: int, note: string, uid: string, now: Stamp)
    ensures IsIncomeItem(Reports.IncomeRecord(amt, note, uid, now), now.year, Some(now.month))
    ensures IsIncomeItem(Reports.IncomeRecord(amt, note, uid, now), now.year, None)
  {
  }
}
