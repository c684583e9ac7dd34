/**
 * The three-step order form: service lines and goods for sale, payment method and
 * discount, then review and save. The totals are pure functions of the form's
 * fields; the form itself is a class whose handlers update those fields, and
 * `SaveOrder` performs the backend writes in the app's order.
 */
module OrderForm {
  import opened Options
  import opened Text
  import opened JsNumber
  import opened Seqs
  import opened Records
  import opened Backend

  datatype DiscountType = Nominal | Percent

  /** A customer as the form loads it from the `customers` snapshot. */
  datatype Customer = Customer(id: string, name: string, phone: string, isMember: bool, depositBalance: Num)

  /** A sellable inventory item with the quantity typed for this order. */
  datatype SellItem = SellItem(id: string, name: string, stock: int, price: int, qty: string)

  /** The payment methods the form offers. */
  predicate IsPayMethod(p: Payment) {
    p == Cash || p == Qris || p == Transfer || p == Deposit || p == Unpaid
  }

  /** `isMember ?? false`, `depositBalance ?? 0`. */
  function LoadCustomer(id: string, d: CustomerDoc): Customer {
    Customer(id, d.name, d.phone, d.isMember.GetOr(false), d.depositBalance.GetOr(Some(0)))
  }

  /** `price || 0` (a stored price is a number), and a quantity of `"0"`. */
  function LoadSellItem(id: string, d: InventoryDoc): SellItem {
    SellItem(id, d.name, d.stock, d.price, "0")
  }

  const EmptyLine := ServiceLine("", "", "", "", Kg)

  /** `+it.weight * +it.price`. */
  function LineAmount(l: ServiceLine): Num {
    Mul(ToNumber(l.weight), ToNumber(l.price))
  }

  /** `totalHarga`: the service subtotal, summed left to right. */
  function ServiceSubtotal(items: seq<ServiceLine>): Num {
    SumNum(items, LineAmount)
  }

  /**
   * The service subtotal is a number exactly when every line's weight and price are,
   * and it is then the sum over the lines of weight times price.
   */
  lemma ServiceSubtotalIsSum(items: seq<ServiceLine>)
    ensures ServiceSubtotal(items).Some? <==> forall i :: 0 <= i < |items| ==> LineAmount(items[i]).Some?
    ensures ServiceSubtotal(items).Some? ==> ServiceSubtotal(items) == Some(SumOf(items, OrZeroOf(LineAmount)))
  {
    SumNumIsSum(items, LineAmount);
  }

  /** `parseInt(it.qty || "0", 10) || 0`: the quantity counted in the goods subtotal. */
  function SellQty(it: SellItem): int {
    ParseIntPrefix(if it.qty == "" then "0" else it.qty).GetOr(0)
  }

  /** `parseInt(it.qty, 10) || 0`: the quantity deducted from stock. */
  function SoldQty(it: SellItem): int {
    ParseIntPrefix(it.qty).GetOr(0)
  }

  /** The two quantity readings agree, so the goods charged are the goods deducted. */
  lemma SellQtyIsSoldQty(it: SellItem)
    ensures SellQty(it) == SoldQty(it)
  {
    if it.qty == "" {
      assert DigitRun("0") == "0";
      assert DigitsValue("0") == 0 by { assert "0"[..0] == []; }
      assert ParseIntPrefix("0") == Some(0);
      assert DigitRun("") == [];
    }
  }

  function GoodsAmount(it: SellItem): int {
    it.price * SellQty(it)
  }

  /** `totalSell`: price times quantity over the sellable items. */
  function GoodsSubtotal(sell: seq<SellItem>): int {
    SumOf(sell, GoodsAmount)
  }

  /** `grandTotal = totalHarga + totalSell - discountAmount`: the value saved as the order total. */
  function GrandTotal(items: seq<ServiceLine>, sell: seq<SellItem>, discount: Num): (r: Num)
    ensures r.Some? <==> ServiceSubtotal(items).Some? && discount.Some?
    ensures r.Some? ==> r.value == ServiceSubtotal(items).value + GoodsSubtotal(sell) - discount.value
  {
    Sub(Add(ServiceSubtotal(items), Some(GoodsSubtotal(sell))), discount)
  }

  /** `Math.ceil(v / 1000) * 1000` for `v >= 0`: the least multiple of 1000 not below `v`. */
  function CeilThousand(v: int): (r: int)
    requires v >= 0
    ensures r % 1000 == 0 && v <= r < v + 1000
  {
    if v % 1000 == 0 then v else (v / 1000 + 1) * 1000
  }

  /**
   * `roundedCashTotal`, the amount shown and printed: `max(0, totalHarga - discount)`,
   * rounded up to a multiple of 1000 for cash and left as is otherwise. Goods never enter it.
   */
  function CashDisplayTotal(pay: Payment, items: seq<ServiceLine>, discount: Num): (r: Num)
    ensures r.Some? <==> ServiceSubtotal(items).Some? && discount.Some?
    ensures r.Some? ==>
      var b := ServiceSubtotal(items).value - discount.value;
      var base := if b < 0 then 0 else b;
      if pay == Cash then r.value % 1000 == 0 && base <= r.value < base + 1000
      else r.value == base
  {
    var afterDiscount := Max0(Sub(ServiceSubtotal(items), discount));
    if afterDiscount.None? then None
    else if pay == Cash then Some(CeilThousand(afterDiscount.value))
    else afterDiscount
  }

  /** `Math.round(p / 100)` for an integer `p`: the nearest integer, halves rounded up. */
  function RoundDiv100(p: int): (r: int)
    ensures 100 * r <= p + 50 < 100 * r + 100
  {
    (p + 50) / 100
  }

  /**
   * The discount set on confirming the discount dialog: the entered value when nominal,
   * `Math.round(totalHarga * v / 100)` when a percentage; an unreadable entry counts as 0.
   */
  function DiscountFor(kind: DiscountType, input: string, serviceSubtotal: Num): (r: Num)
    ensures kind == Nominal ==> r == Some(ParseIntPrefix(input).GetOr(0))
    ensures kind == Percent ==> (r.Some? <==> serviceSubtotal.Some?)
    ensures kind == Percent && r.Some? ==>
      var p := serviceSubtotal.value * ParseIntPrefix(input).GetOr(0);
      100 * r.value <= p + 50 < 100 * r.value + 100
  {
    var v := ParseIntPrefix(input).GetOr(0);
    if kind == Nominal then Some(v)
    else
      var p := Mul(serviceSubtotal, Some(v));
      if p.Some? then Some(RoundDiv100(p.value)) else None
  }

  /** `parseFloat(weight || "0")`. */
  function WeightValue(l: ServiceLine): Option<int> {
    ParseIntPrefix(if l.weight == "" then "0" else l.weight)
  }

  /** The weight prompt on leaving a weight field: a kg line weighing more than 0 and less than 3. */
  predicate NeedsMinimumPrompt(l: ServiceLine) {
    var w := WeightValue(l);
    w.Some? && 0 < w.value < 3 && l.unit == Kg
  }

  /** `filteredCust`: the customers whose phone contains the trimmed phone input, in order. */
  function Suggestions(customers: seq<Customer>, phoneText: string): (r: seq<Customer>)
    ensures forall c :: c in r <==> c in customers && Contains(c.phone, Trim(phoneText))
    ensures IsSubseq(r, customers)
    ensures forall x :: multiset(r)[x] == if Contains(x.phone, Trim(phoneText)) then multiset(customers)[x] else 0
  {
    FilterIsSubseq(customers, (c: Customer) => Contains(c.phone, Trim(phoneText)));
    FilterMultiset(customers, (c: Customer) => Contains(c.phone, Trim(phoneText)));
    Filter(customers, (c: Customer) => Contains(c.phone, Trim(phoneText)))
  }

  /** An empty or blank phone input suggests every customer. */
  lemma SuggestionsOfBlank(customers: seq<Customer>, phoneText: string)
    requires IsBlank(phoneText)
    ensures Suggestions(customers, phoneText) == customers
  {
    FilterKeepsAll(customers, (c: Customer) => Contains(c.phone, Trim(phoneText)));
  }

  /** One field of one service line, as `updateItem(idx, key, val)` sets it. */
  datatype LineEdit = SetService(s: string) | SetWeight(w: string) | SetPrice(p: string) | SetNote(n: string) | SetUnit(u: Unit)

  function Edited(l: ServiceLine, e: LineEdit): ServiceLine {
    match e
    case SetService(s) => l.(service := s)
    case SetWeight(w) => l.(weight := w)
    case SetPrice(p) => l.(price := p)
    case SetNote(n) => l.(note := n)
    case SetUnit(u) => l.(unit := u)
  }

  /** The two answers of the weight prompt: count per piece, or charge the 3 kg minimum. */
  datatype WeightChoice = PerPcs | Minimum3

  function ChoiceEdit(c: WeightChoice): LineEdit {
    if c == PerPcs then SetUnit(Pcs) else SetWeight("3")
  }

  /** Either answer of the weight prompt settles it: the line no longer triggers it. */
  lemma ChoiceSettlesPrompt(l: ServiceLine, c: WeightChoice)
    ensures !NeedsMinimumPrompt(Edited(l, ChoiceEdit(c)))
  {
    if c == Minimum3 {
      assert DigitRun("3") == "3";
      assert DigitsValue("3") == 3 by { assert "3"[..0] == []; }
    }
  }

  /** `!orderId`: no id, or the id 0. */
  predicate HasOrderId(o: Option<int>) {
    o.Some? && o.value != 0
  }

  /**
   * The deposit check as the app writes it: `(depositBalance ?? 0) < grandTotal` refuses
   * the order. A comparison with NaN is false, so a NaN grand total gets through.
   */
  predicate DepositGuardAsWritten(balance: Num, grand: Num) {
    !Less(balance, grand)
  }

  /** A weight written with a decimal comma, as Indonesian users type it, makes the grand total NaN. */
  lemma CommaWeightPassesDepositGuard(balance: Num)
    ensures GrandTotal([ServiceLine("Cuci", "2,5", "7000", "", Kg)], [], Some(0)).None?
    ensures DepositGuardAsWritten(balance, GrandTotal([ServiceLine("Cuci", "2,5", "7000", "", Kg)], [], Some(0)))
  {
    var l := ServiceLine("Cuci", "2,5", "7000", "", Kg);
    assert TrimStart("2,5") == "2,5";
    assert TrimEnd("2,5") == "2,5";
    assert !AllDigits("2,5") by { assert !IsDigit("2,5"[1]); }
    assert ToNumber(l.weight).None?;
    assert ServiceSubtotal([l]) == Add(ServiceSubtotal([]), LineAmount(l)) by {
      assert [l][..0] == [];
    }
  }

  /** The deposit check the form evidently intends: the balance covers a grand total that is a number. */
  predicate DepositCovers(balance: Num, grand: Num) {
    balance.Some? && grand.Some? && balance.value >= grand.value
  }

  /** A deposit order that passes the intended check leaves a balance of at least zero. */
  lemma DepositCoversLeavesBalance(balance: Num, grand: Num)
    requires DepositCovers(balance, grand)
    ensures Sub(balance, grand).Some? && Sub(balance, grand).value >= 0
    ensures DepositGuardAsWritten(balance, grand)
  {
  }

  datatype SaveOutcome = NoCustomer | NoOrderId | InsufficientDeposit | Saved | Failed

  /**
   * The guards of `saveOrder`, in the order they are checked; `None` lets the save go ahead.
   * The deposit step is the check as written, so a NaN grand total passes it.
   */
  function SaveGuard(selected: Option<Customer>, orderId: Option<int>, pay: Payment, grand: Num): (r: Option<SaveOutcome>)
    ensures r == Some(NoCustomer) <==> selected.None?
    ensures r == Some(NoOrderId) <==> selected.Some? && !HasOrderId(orderId)
    ensures r == Some(InsufficientDeposit) <==>
              selected.Some? && HasOrderId(orderId) && pay == Deposit && Less(selected.value.depositBalance, grand)
    ensures r.None? <==>
              selected.Some? && HasOrderId(orderId) && (pay == Deposit ==> DepositGuardAsWritten(selected.value.depositBalance, grand))
  {
    if selected.None? then Some(NoCustomer)
    else if !HasOrderId(orderId) then Some(NoOrderId)
    else if pay == Deposit && !DepositGuardAsWritten(selected.value.depositBalance, grand) then Some(InsufficientDeposit)
    else None
  }

  /** Everything a save writes, taken from the form once the guards have passed. */
  datatype Draft = Draft(
    customer: Customer,
    orderId: int,
    inDate: Option<int>,
    outDate: Option<int>,
    items: seq<ServiceLine>,
    sell: seq<SellItem>,
    pay: Payment,
    discount: Num)

  function DraftTotal(d: Draft): Num {
    GrandTotal(d.items, d.sell, d.discount)
  }

  /** The `orders` document; its total is the unrounded grand total. */
  function OrderRecord(d: Draft, uid: Option<string>, now: Stamp): OrderDoc {
    OrderDoc(Some(d.orderId), Some(d.customer.id), Some(d.customer.name), Some(d.customer.phone),
      d.inDate, d.outDate, Lines(d.items), DraftTotal(d), Some(d.discount), Some(d.pay),
      None, uid, Some(now), None)
  }

  /** The `laundry` document: a new dashboard card, always "Sedang Diproses", due at the pick-up date. */
  function DashboardRecord(d: Draft, uid: Option<string>, now: Stamp): DashboardDoc {
    DashboardDoc(d.orderId, d.customer.name, d.customer.phone, d.items, Processing, d.pay,
      d.outDate, d.discount, uid, now)
  }

  /** `sold`: each item with its deducted quantity, keeping those above zero. */
  function SoldSales(sell: seq<SellItem>): (r: seq<Sale>)
    ensures forall i :: 0 <= i < |r| ==> r[i].qty > 0
  {
    if sell == [] then []
    else
      var it := sell[|sell| - 1];
      SoldSales(sell[..|sell| - 1]) + (if SoldQty(it) > 0 then [Sale(it.id, SoldQty(it))] else [])
  }

  predicate DistinctIds(sell: seq<SellItem>) {
    forall i, j :: 0 <= i < j < |sell| ==> sell[i].id != sell[j].id
  }

  /** With distinct ids, the quantity sold under one item's id is its own quantity, or nothing if that is not positive. */
  lemma {:induction false} SoldUnderItem(sell: seq<SellItem>, k: int)
    requires DistinctIds(sell) && 0 <= k < |sell|
    ensures SumOf(Filter(SoldSales(sell), SaleFor(sell[k].id)), SaleQty) ==
            (if SoldQty(sell[k]) > 0 then SoldQty(sell[k]) else 0)
  {
    if k == |sell| - 1 {
      SoldUnderLast(sell);
    } else {
      var init := sell[..|sell| - 1];
      assert DistinctIds(init) by {
        forall i, j | 0 <= i < j < |init| ensures init[i].id != init[j].id {
          assert init[i] == sell[i] && init[j] == sell[j];
        }
      }
      assert init[k] == sell[k];
      SoldUnderItem(init, k);
      SoldSalesStep(sell, sell[k].id);
    }
  }

  /** The last item's id carries only the last item's quantity. */
  lemma SoldUnderLast(sell: seq<SellItem>)
    requires DistinctIds(sell) && sell != []
    ensures var it := sell[|sell| - 1];
      SumOf(Filter(SoldSales(sell), SaleFor(it.id)), SaleQty) == (if SoldQty(it) > 0 then SoldQty(it) else 0)
  {
    var init := sell[..|sell| - 1];
    var it := sell[|sell| - 1];
    InitLacksLastId(sell, init);
    SoldUnderNone(init, it.id);
    var before := SumOf(Filter(SoldSales(init), SaleFor(it.id)), SaleQty);
    assert before == 0;
    SoldSalesStep(sell, it.id);
    assert SumOf(Filter(SoldSales(sell), SaleFor(it.id)), SaleQty) == before + (if SoldQty(it) > 0 then SoldQty(it) else 0);
  }

  /** With distinct ids, no earlier item carries the last item's id. */
  lemma InitLacksLastId(sell: seq<SellItem>, init: seq<SellItem>)
    requires DistinctIds(sell) && sell != [] && init == sell[..|sell| - 1]
    ensures forall i :: 0 <= i < |init| ==> init[i].id != sell[|sell| - 1].id
  {
    forall i | 0 <= i < |init|
      ensures init[i].id != sell[|sell| - 1].id
    {
      assert init[i] == sell[i];
    }
  }

  /** Adding one item adds its positive quantity under its own id and nothing under any other. */
  lemma SoldSalesStep(sell: seq<SellItem>, id: string)
    requires sell != []
    ensures var init := sell[..|sell| - 1];
      var it := sell[|sell| - 1];
      SumOf(Filter(SoldSales(sell), SaleFor(id)), SaleQty) ==
      SumOf(Filter(SoldSales(init), SaleFor(id)), SaleQty) + (if it.id == id && SoldQty(it) > 0 then SoldQty(it) else 0)
  {
    var init := sell[..|sell| - 1];
    var it := sell[|sell| - 1];
    if SoldQty(it) > 0 {
      SoldUnder(SoldSales(init), Sale(it.id, SoldQty(it)), id);
    } else {
      assert SoldSales(sell) == SoldSales(init) + [];
      assert SoldSales(init) + [] == SoldSales(init);
    }
  }

  /** An id no item carries has nothing sold under it. */
  lemma {:induction false} SoldUnderNone(sell: seq<SellItem>, id: string)
    requires forall i :: 0 <= i < |sell| ==> sell[i].id != id
    ensures SumOf(Filter(SoldSales(sell), SaleFor(id)), SaleQty) == 0
  {
    if sell != [] {
      var init := sell[..|sell| - 1];
      assert forall i :: 0 <= i < |init| ==> init[i] == sell[i];
      SoldUnderNone(init, id);
      SoldSalesStep(sell, id);
    }
  }

  /** The deposit debit of a save: the grand total for a deposit payment, none otherwise. */
  function Debit(d: Draft): Option<Num> {
    if d.pay == Deposit then Some(DraftTotal(d)) else None
  }

  /**
   * The customer's two updates: the order count, then the deposit debit if any. Both
   * succeed exactly when the customer exists; then the count rises by one and the balance
   * (missing as 0) drops by the debit, NaN if either is NaN, and no other document changes.
   * A failure changes nothing.
   */
  function ChargeCustomer(db: Db, id: string, debit: Option<Num>): (r: (Db, bool))
    ensures r.1 <==> id in db.customers
    ensures !r.1 ==> r.0 == db
    ensures r.1 ==>
      var c := db.customers[id];
      r.0 == db.(customers := db.customers[id := c.(totalOrders := c.totalOrders + 1,
        depositBalance := if debit.Some? then Some(Sub(c.depositBalance.GetOr(Some(0)), debit.value)) else c.depositBalance)])
  {
    var r2 := BumpTotalOrders(db, id, 1);
    if r2.None? then (db, false)
    else
      var db2 := r2.value;
      if debit.None? then (db2, true)
      else
        match BumpDeposit(db2, id, Neg(debit.value))
        case Some(db3) => (db3, true)
        case None => (db2, false)
  }

  /** The first two writes of a save: the order and its dashboard card, under the order id. */
  function DocumentWrites(db: Db, d: Draft, uid: Option<string>, now: Stamp): (r: Db)
    ensures r.orders == db.orders[IntToString(d.orderId) := OrderRecord(d, uid, now)]
    ensures r.laundry == db.laundry[IntToString(d.orderId) := DashboardRecord(d, uid, now)]
    ensures r == db.(orders := r.orders, laundry := r.laundry)
  {
    var key := IntToString(d.orderId);
    PutLaundry(PutOrder(db, key, OrderRecord(d, uid, now)), key, DashboardRecord(d, uid, now))
  }

  /**
   * The writes of a save after its guards: the order and dashboard documents, the
   * customer's order count, the deposit debit for deposit payments, then the stock
   * updates. A failed update stops the sequence; earlier writes stay.
   */
  function SaveWrites(db: Db, d: Draft, uid: Option<string>, now: Stamp): (Db, bool)
  {
    var (db2, ok) := ChargeCustomer(DocumentWrites(db, d, uid, now), d.customer.id, Debit(d));
    if !ok then (db2, false)
    else Sell(db2, SoldSales(d.sell))
  }

  /** A save succeeds exactly when the customer and every sold item exist. */
  lemma SaveWritesOk(db: Db, d: Draft, uid: Option<string>, now: Stamp)
    ensures SaveWrites(db, d, uid, now).1 <==> d.customer.id in db.customers && SalesPresent(db.inventory, SoldSales(d.sell))
  {
    var db1 := DocumentWrites(db, d, uid, now);
    var (db2, ok) := ChargeCustomer(db1, d.customer.id, Debit(d));
    assert db2.inventory == db.inventory;
  }

  /**
   * Whatever else happens, a save stores the order under its id with the unrounded grand
   * total and a new dashboard card, and leaves expenses and user profiles alone.
   */
  lemma SaveWritesDocuments(db: Db, d: Draft, uid: Option<string>, now: Stamp)
    ensures var db' := SaveWrites(db, d, uid, now).0;
      var key := IntToString(d.orderId);
      db'.orders == db.orders[key := OrderRecord(d, uid, now)] &&
      db'.orders[key].total == GrandTotal(d.items, d.sell, d.discount) &&
      db'.laundry == db.laundry[key := DashboardRecord(d, uid, now)] &&
      db'.expenses == db.expenses && db'.users == db.users
  {
    var db1 := DocumentWrites(db, d, uid, now);
    var (db2, ok) := ChargeCustomer(db1, d.customer.id, Debit(d));
    assert db2.orders == db1.orders && db2.laundry == db1.laundry && db2.expenses == db.expenses && db2.users == db.users;
  }

  /**
   * After a successful save the customer's order count has risen by one and nothing else
   * about the customer has changed except, for a deposit payment only, the balance, which
   * drops by the grand total (NaN when the total is NaN); no other customer changes.
   */
  lemma SaveWritesCustomer(db: Db, d: Draft, uid: Option<string>, now: Stamp)
    ensures var (db', ok) := SaveWrites(db, d, uid, now);
      ok ==>
        var c := db.customers[d.customer.id];
        db'.customers == db.customers[d.customer.id := c.(totalOrders := c.totalOrders + 1,
             depositBalance := if d.pay == Deposit then Some(Sub(c.depositBalance.GetOr(Some(0)), DraftTotal(d))) else c.depositBalance)]
  {
    var db1 := DocumentWrites(db, d, uid, now);
    var (db2, ok) := ChargeCustomer(db1, d.customer.id, Debit(d));
    assert db1.customers == db.customers;
  }

  /**
   * After a successful save, every sellable item (ids distinct, as document ids are) that
   * exists in the inventory has lost exactly its positive quantity; an item with quantity 0
   * is untouched. There is no lower bound on the stock.
   */
  lemma SaveWritesStock(db: Db, d: Draft, uid: Option<string>, now: Stamp, k: int)
    requires DistinctIds(d.sell) && 0 <= k < |d.sell| && d.sell[k].id in db.inventory
    ensures var (db', ok) := SaveWrites(db, d, uid, now);
      var id := d.sell[k].id;
      ok ==> (db'.inventory[id] ==
        db.inventory[id].(stock := db.inventory[id].stock - (if SoldQty(d.sell[k]) > 0 then SoldQty(d.sell[k]) else 0)))
  {
    var (db2, ok) := ChargeCustomer(DocumentWrites(db, d, uid, now), d.customer.id, Debit(d));
    assert db2.inventory == db.inventory;
    SoldUnderItem(d.sell, k);
    ApplySalesStock(db.inventory, SoldSales(d.sell), d.sell[k].id);
  }

  /**
   * Whether or not it succeeds, a save keeps the inventory's ids, and an inventory item that
   * no sellable row names keeps its record unchanged.
   */
  lemma SaveWritesStockOthers(db: Db, d: Draft, uid: Option<string>, now: Stamp, k: string)
    requires forall i :: 0 <= i < |d.sell| ==> d.sell[i].id != k
    ensures var db' := SaveWrites(db, d, uid, now).0;
      db'.inventory.Keys == db.inventory.Keys &&
      (k in db.inventory ==> db'.inventory[k] == db.inventory[k])
  {
    var (db2, ok) := ChargeCustomer(DocumentWrites(db, d, uid, now), d.customer.id, Debit(d));
    assert db2.inventory == db.inventory;
    if k in db.inventory {
      SoldUnderNone(d.sell, k);
      ApplySalesStock(db.inventory, SoldSales(d.sell), k);
      assert db.inventory[k].(stock := db.inventory[k].stock - 0) == db.inventory[k];
    }
  }

  /** A deposit save against a current balance that passed the intended check leaves it non-negative. */
  lemma SaveWritesDepositNonNegative(db: Db, d: Draft, uid: Option<string>, now: Stamp)
    requires d.pay == Deposit && DepositCovers(d.customer.depositBalance, DraftTotal(d))
    requires d.customer.id in db.customers
    requires db.customers[d.customer.id].depositBalance.GetOr(Some(0)) == d.customer.depositBalance
    ensures var (db', ok) := SaveWrites(db, d, uid, now);
      ok ==> var b := db'.customers[d.customer.id].depositBalance.GetOr(Some(0)); b.Some? && b.value >= 0
  {
    SaveWritesCustomer(db, d, uid, now);
  }

  /**
   * A deposit order whose grand total is NaN passes the deposit check as written, and a
   * save that completes stores the NaN total on the order and NaN as the customer's balance.
   */
  lemma NaNDepositSaveStoresNaN(db: Db, d: Draft, uid: Option<string>, now: Stamp)
    requires d.pay == Deposit && DraftTotal(d).None?
    ensures DepositGuardAsWritten(d.customer.depositBalance, DraftTotal(d))
    ensures var (db', ok) := SaveWrites(db, d, uid, now);
      db'.orders[IntToString(d.orderId)].total.None? &&
      (ok ==> db'.customers[d.customer.id].depositBalance == Some(None))
  {
    SaveWritesDocuments(db, d, uid, now);
    SaveWritesCustomer(db, d, uid, now);
  }

  /** The customer's updates against the store. */
  method ChargeCustomerIn(store: Store, id: string, debit: Option<Num>) returns (ok: bool)
    modifies store
    ensures (store.Snapshot(), ok) == ChargeCustomer(old(store.Snapshot()), id, debit)
  {
    ok := store.IncrementTotalOrders(id, 1);
    if ok && debit.Some? {
      ok := store.IncrementDeposit(id, Neg(debit.value));
    }
  }

  /** The write sequence of `saveOrder`, stopping at the first failed update. */
  method PersistOrder(store: Store, d: Draft, uid: Option<string>, now: Stamp) returns (ok: bool)
    modifies store
    ensures (store.Snapshot(), ok) == SaveWrites(old(store.Snapshot()), d, uid, now)
  {
    var key := IntToString(d.orderId);
    store.SetOrder(key, OrderRecord(d, uid, now));
    store.SetLaundry(key, DashboardRecord(d, uid, now));
    ok := ChargeCustomerIn(store, d.customer.id, Debit(d));
    if ok {
      ok := store.DecrementStock(SoldSales(d.sell));
    }
  }

  /** The order form screen: its fields are the screen's state variables. */
  class LaundryForm {
    var step: int
    var orderId: Option<int>
    var phoneText: string
    var customers: seq<Customer>
    var selected: Option<Customer>
    var inDate: Option<int>
    var outDate: Option<int>
    var items: seq<ServiceLine>
    var sellList: seq<SellItem>
    var pay: Payment
    var discountType: DiscountType
    var discountInput: string
    var discountAmount: Num

    predicate Valid()
      reads this
    {
      0 <= step <= 2 && IsPayMethod(pay)
    }

    constructor()
      ensures Valid()
      ensures step == 0 && orderId.None? && phoneText == "" && customers == [] && selected.None?
      ensures inDate.None? && outDate.None? && items == [EmptyLine] && sellList == []
      ensures pay == Unpaid && discountType == Nominal && discountInput == "0" && discountAmount == Some(0)
    {
      step, orderId, phoneText, customers, selected := 0, None, "", [], None;
      inDate, outDate, items, sellList := None, None, [EmptyLine], [];
      pay, discountType, discountInput, discountAmount := Unpaid, Nominal, "0", Some(0);
    }

    /** What the form would save now, once a customer and an order id exist. */
    function CurrentDraft(): Draft
      reads this
      requires selected.Some? && orderId.Some?
    {
      Draft(selected.value, orderId.value, inDate, outDate, items, sellList, pay, discountAmount)
    }

    /** The `customers` snapshot of the signed-in owner, mapped as the form reads it. */
    method LoadCustomers(docs: seq<(string, CustomerDoc)>)
      modifies this`customers
      ensures |customers| == |docs|
      ensures forall i :: 0 <= i < |docs| ==> customers[i] == LoadCustomer(docs[i].0, docs[i].1)
    {
      customers := seq(|docs|, i requires 0 <= i < |docs| => LoadCustomer(docs[i].0, docs[i].1));
    }

    /** The snapshot of the owner's sellable inventory, each with quantity `"0"`. */
    method LoadSellList(docs: seq<(string, InventoryDoc)>)
      modifies this`sellList
      ensures |sellList| == |docs|
      ensures forall i :: 0 <= i < |docs| ==> sellList[i] == LoadSellItem(docs[i].0, docs[i].1)
    {
      sellList := seq(|docs|, i requires 0 <= i < |docs| => LoadSellItem(docs[i].0, docs[i].1));
    }

    /** Typing in the phone field drops the chosen customer. */
    method TypePhone(t: string)
      modifies this`phoneText, this`selected
      ensures phoneText == t && selected.None?
    {
      selected := None;
      phoneText := t;
    }

    /** Tapping a suggestion chooses the customer and fills in the phone. */
    method PickCustomer(c: Customer)
      modifies this`phoneText, this`selected
      ensures selected == Some(c) && phoneText == c.phone
    {
      selected := Some(c);
      phoneText := c.phone;
    }

    method PickDate(isIn: bool, d: int)
      modifies this`inDate, this`outDate
      ensures isIn ==> inDate == Some(d) && outDate == old(outDate)
      ensures !isIn ==> outDate == Some(d) && inDate == old(inDate)
    {
      if isIn { inDate := Some(d); } else { outDate := Some(d); }
    }

    method ChoosePay(m: Payment)
      requires IsPayMethod(m)
      modifies this`pay
      ensures pay == m
    {
      pay := m;
    }

    /** The discount dialog's type buttons and amount field. */
    method EditDiscount(kind: DiscountType, input: string)
      modifies this`discountType, this`discountInput
      ensures discountType == kind && discountInput == input
    {
      discountType := kind;
      discountInput := input;
    }

    /** `addService`: one empty kg line at the end, the others untouched. */
    method AddService()
      modifies this`items
      ensures items == old(items) + [EmptyLine]
    {
      items := items + [EmptyLine];
    }

    /** `updateItem(idx, key, val)`: only that field of that line changes. */
    method UpdateItem(idx: int, e: LineEdit)
      requires 0 <= idx < |items|
      modifies this`items
      ensures items == old(items)[idx := Edited(old(items)[idx], e)]
    {
      items := items[idx := Edited(items[idx], e)];
    }

    /** An answer to the weight prompt, which `handleWeightBlur` shows only for a line that needs it. */
    method ChooseWeightOption(idx: int, c: WeightChoice)
      requires 0 <= idx < |items| && NeedsMinimumPrompt(items[idx])
      modifies this`items
      ensures items == old(items)[idx := Edited(old(items)[idx], ChoiceEdit(c))]
      ensures !NeedsMinimumPrompt(items[idx])
    {
      ChoiceSettlesPrompt(items[idx], c);
      UpdateItem(idx, ChoiceEdit(c));
    }

    /** The quantity field of a sellable item keeps only the digits typed. */
    method SetSellQty(idx: int, v: string)
      requires 0 <= idx < |sellList|
      modifies this`sellList
      ensures sellList == old(sellList)[idx := old(sellList)[idx].(qty := DigitsOnly(v))]
      ensures AllDigits(sellList[idx].qty)
    {
      sellList := sellList[idx := sellList[idx].(qty := DigitsOnly(v))];
    }

    /** "Konfirmasi" in the discount dialog. */
    method ConfirmDiscount()
      modifies this`discountAmount
      ensures discountAmount == DiscountFor(discountType, discountInput, ServiceSubtotal(items))
    {
      var sub := ServiceSubtotal(items);
      discountAmount := DiscountFor(discountType, discountInput, sub);
    }

    /** Moving between steps; reaching the review step without an id stamps one from the clock. */
    method GoToStep(s: int, now: int)
      requires 0 <= s <= 2
      requires Valid()
      modifies this`step, this`orderId
      ensures Valid()
      ensures step == s
      ensures orderId == if s == 2 && !HasOrderId(old(orderId)) then Some(now) else old(orderId)
    {
      step := s;
      if step == 2 && !HasOrderId(orderId) {
        orderId := Some(now);
      }
    }

    /** The form after a successful save; the goods quantities are not cleared. */
    predicate IsResetFrom(oldCustomers: seq<Customer>, oldSell: seq<SellItem>, oldType: DiscountType)
      reads this
    {
      step == 0 && orderId.None? && selected.None? && phoneText == "" &&
      inDate.None? && outDate.None? && items == [EmptyLine] && pay == Unpaid &&
      discountAmount == Some(0) && discountInput == "0" &&
      customers == oldCustomers && sellList == oldSell && discountType == oldType
    }

    /**
     * `saveOrder`: the guards, in order, refuse without writing; otherwise the writes of
     * `SaveWrites` happen, and the form is reset only when all of them succeeded.
     */
    method SaveOrder(store: Store, uid: Option<string>, now: Stamp) returns (outcome: SaveOutcome)
      requires Valid()
      modifies this, store
      ensures Valid()
      ensures var g := SaveGuard(old(selected), old(orderId), old(pay), old(GrandTotal(items, sellList, discountAmount)));
        g.Some? ==> outcome == g.value && store.Snapshot() == old(store.Snapshot())
      ensures SaveGuard(old(selected), old(orderId), old(pay), old(GrandTotal(items, sellList, discountAmount))).None? ==>
        store.Snapshot() == SaveWrites(old(store.Snapshot()), old(CurrentDraft()), uid, now).0 &&
        outcome == (if SaveWrites(old(store.Snapshot()), old(CurrentDraft()), uid, now).1 then Saved else Failed)
      ensures outcome == Saved ==> IsResetFrom(old(customers), old(sellList), old(discountType))
      ensures outcome != Saved ==> unchanged(this)
    {
      var grand := GrandTotal(items, sellList, discountAmount);
      var g := SaveGuard(selected, orderId, pay, grand);
      if g.Some? {
        outcome := g.value;
        return;
      }
      var ok := PersistOrder(store, CurrentDraft(), uid, now);
      if ok {
        Reset();
        outcome := Saved;
      } else {
        outcome := Failed;
      }
    }

    /** The reset after a successful save. */
    method Reset()
      modifies this
      ensures Valid()
      ensures IsResetFrom(old(customers), old(sellList), old(discountType))
    {
      step, orderId, selected, phoneText := 0, None, None, "";
      inDate, outDate, items := None, None, [EmptyLine];
      pay, discountAmount, discountInput := Unpaid, Some(0), "0";
    }
  }
}
