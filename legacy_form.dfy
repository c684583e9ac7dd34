/**
 * The older order form: customer by phone, service lines without units, one of
 * three payment methods, and a save that writes the order and bumps the
 * customer's order count. It has no goods, no discount and no dashboard card.
 */
module LegacyForm {
  import opened Options
  import opened Text
  import opened JsNumber
  import opened Seqs
  import opened Records
  import opened Backend
  import OrderForm

  /** `{ id, ...data }` as the form reads a customer. */
  datatype CustomerInfo = CustomerInfo(id: string, name: string, phone: string)

  function LoadCustomer(id: string, d: CustomerDoc): CustomerInfo {
    CustomerInfo(id, d.name, d.phone)
  }

  const EmptyLine := LegacyLine("", "", "", "")

  /** `s || '0'`. */
  function OrZeroText(s: string): (r: string)
    ensures r != ""
    ensures s != "" ==> r == s
  {
    if s == "" then "0" else s
  }

  /** `parseFloat(price || '0') * parseFloat(weight || '0')`. */
  function LineAmount(l: LegacyLine): Num {
    Mul(ParseIntPrefix(OrZeroText(l.price)), ParseIntPrefix(OrZeroText(l.weight)))
  }

  /** `totalHarga`. */
  function Total(items: seq<LegacyLine>): Num {
    SumNum(items, LineAmount)
  }

  /** The total is a number exactly when every line's product is, and then it is their sum. */
  lemma TotalIsSum(items: seq<LegacyLine>)
    ensures Total(items).Some? <==> forall i :: 0 <= i < |items| ==> LineAmount(items[i]).Some?
    ensures Total(items).Some? ==> Total(items).value == SumOf(items, OrZeroOf(LineAmount))
  {
    SumNumIsSum(items, LineAmount);
  }

  /** A line with numbers typed in costs price times weight, and an empty field reads as 0. */
  lemma LineAmountOfNumbers(service: string, note: string, p: int, w: int)
    ensures LineAmount(LegacyLine(service, IntToString(w), IntToString(p), note)) == Some(p * w)
    ensures LineAmount(LegacyLine(service, "", IntToString(p), note)) == Some(0)
    ensures LineAmount(LegacyLine(service, IntToString(w), "", note)) == Some(0)
  {
    ParseIntOfIntToString(p);
    ParseIntOfIntToString(w);
    ParseIntOfIntToString(0);
    assert IntToString(0) == "0";
  }

  /** `filteredCust`: the customers whose phone contains the trimmed input. */
  function Suggestions(customers: seq<CustomerInfo>, phoneText: string): (r: seq<CustomerInfo>)
    ensures forall c :: c in r <==> c in customers && Contains(c.phone, Trim(phoneText))
    ensures IsSubseq(r, customers)
    ensures forall x :: multiset(r)[x] == if Contains(x.phone, Trim(phoneText)) then multiset(customers)[x] else 0
  {
    FilterIsSubseq(customers, (c: CustomerInfo) => Contains(c.phone, Trim(phoneText)));
    FilterMultiset(customers, (c: CustomerInfo) => Contains(c.phone, Trim(phoneText)));
    Filter(customers, (c: CustomerInfo) => Contains(c.phone, Trim(phoneText)))
  }

  /** One text field of one line, as `updateItem(idx, key, val)` sets it. */
  datatype LineEdit = SetService(s: string) | SetWeight(w: string) | SetPrice(p: string) | SetNote(n: string)

  /** The edited field takes the new text; the other three keep theirs. */
  function Edited(l: LegacyLine, e: LineEdit): (r: LegacyLine)
    ensures r.service == (if e.SetService? then e.s else l.service)
    ensures r.weight == (if e.SetWeight? then e.w else l.weight)
    ensures r.price == (if e.SetPrice? then e.p else l.price)
    ensures r.note == (if e.SetNote? then e.n else l.note)
  {
    match e
    case SetService(s) => l.(service := s)
    case SetWeight(w) => l.(weight := w)
    case SetPrice(p) => l.(price := p)
    case SetNote(n) => l.(note := n)
  }

  predicate IsPayMethod(p: Payment) {
    p == Cash || p == Qris || p == Transfer
  }

  datatype SaveOutcome = NoCustomer | NoOrderId | Saved | Failed

  /** `saveOrder`'s guards in order: a chosen customer, then an order id (`!orderId` refuses 0). */
  function SaveGuard(selected: Option<CustomerInfo>, orderId: Option<int>): (r: Option<SaveOutcome>)
    ensures r == Some(NoCustomer) <==> selected.None?
    ensures r == Some(NoOrderId) <==> selected.Some? && !OrderForm.HasOrderId(orderId)
    ensures r.None? <==> selected.Some? && OrderForm.HasOrderId(orderId)
  {
    if selected.None? then Some(NoCustomer)
    else if !OrderForm.HasOrderId(orderId) then Some(NoOrderId)
    else None
  }

  /** The stored order: the lines, `totalHarga` as the total with no discount or rounding, the owner as known. */
  function OrderRecord(c: CustomerInfo, orderId: int, inDate: Option<int>, outDate: Option<int>,
                       items: seq<LegacyLine>, pay: Payment, uid: Option<string>, now: Stamp): OrderDoc
  {
    OrderDoc(Some(orderId), Some(c.id), Some(c.name), Some(c.phone), inDate, outDate, LegacyLines(items),
             Total(items), None, Some(pay), None, uid, Some(now), None)
  }

  /** The save's writes: the order under its id, then `totalOrders + 1`; the second fails on a missing customer. */
  function SaveWrites(db: Db, c: CustomerInfo, orderId: int, inDate: Option<int>, outDate: Option<int>,
                      items: seq<LegacyLine>, pay: Payment, uid: Option<string>, now: Stamp): (Db, bool)
  {
    var db1 := PutOrder(db, IntToString(orderId), OrderRecord(c, orderId, inDate, outDate, items, pay, uid, now));
    var r := BumpTotalOrders(db1, c.id, 1);
    (Commit(db1, r), r.Some?)
  }

  /**
   * After the writes the order is stored with the summed total, the customer has one more
   * order when it exists, and no dashboard card, stock or deposit is touched.
   */
  lemma SaveWritesEffect(db: Db, c: CustomerInfo, orderId: int, inDate: Option<int>, outDate: Option<int>,
                         items: seq<LegacyLine>, pay: Payment, uid: Option<string>, now: Stamp)
    ensures var (db', ok) := SaveWrites(db, c, orderId, inDate, outDate, items, pay, uid, now);
      IntToString(orderId) in db'.orders &&
      db'.orders[IntToString(orderId)].total == Total(items) &&
      db'.orders[IntToString(orderId)].discount.None? &&
      db'.laundry == db.laundry && db'.inventory == db.inventory &&
      (ok <==> c.id in db.customers) &&
      (ok ==> db'.customers == db.customers[c.id := db.customers[c.id].(totalOrders := db.customers[c.id].totalOrders + 1)]) &&
      (!ok ==> db'.customers == db.customers)
  {
  }

  /** The two writes of a save, in order; the second may fail. */
  method PersistOrder(store: Store, c: CustomerInfo, orderId: int, inDate: Option<int>, outDate: Option<int>,
                      items: seq<LegacyLine>, pay: Payment, uid: Option<string>, now: Stamp) returns (ok: bool)
    modifies store
    ensures store.Snapshot() == SaveWrites(old(store.Snapshot()), c, orderId, inDate, outDate, items, pay, uid, now).0
    ensures ok == SaveWrites(old(store.Snapshot()), c, orderId, inDate, outDate, items, pay, uid, now).1
  {
    store.SetOrder(IntToString(orderId), OrderRecord(c, orderId, inDate, outDate, items, pay, uid, now));
    ok := store.IncrementTotalOrders(c.id, 1);
  }

  class LegacyOrderForm {
    var step: int
    var orderId: Option<int>
    var phoneText: string
    var customers: seq<CustomerInfo>
    var selected: Option<CustomerInfo>
    var inDate: Option<int>
    var outDate: Option<int>
    var items: seq<LegacyLine>
    var pay: Payment

    predicate Valid()
      reads this
    {
      0 <= step <= 2 && IsPayMethod(pay)
    }

    constructor()
      ensures Valid()
      ensures step == 0 && orderId.None? && phoneText == "" && customers == [] && selected.None?
      ensures inDate.None? && outDate.None? && items == [EmptyLine] && pay == Qris
    {
      step, orderId, phoneText, customers, selected := 0, None, "", [], None;
      inDate, outDate, items, pay := None, None, [EmptyLine], Qris;
    }

    method LoadCustomers(docs: seq<(string, CustomerDoc)>)
      modifies this`customers
      ensures |customers| == |docs|
      ensures forall i :: 0 <= i < |docs| ==> customers[i] == LoadCustomer(docs[i].0, docs[i].1)
    {
      customers := seq(|docs|, i requires 0 <= i < |docs| => LoadCustomer(docs[i].0, docs[i].1));
    }

    /** Typing in the phone field drops the chosen customer. */
    method TypePhone(t: string)
      modifies this`phoneText, this`selected
      ensures phoneText == t && selected.None?
    {
      selected := None;
      phoneText := t;
    }

    method PickCustomer(c: CustomerInfo)
      modifies this`phoneText, this`selected
      ensures selected == Some(c) && phoneText == c.phone
    {
      selected := Some(c);
      phoneText := c.phone;
    }

    method PickDate(isIn: bool, d: int)
      modifies this`inDate, this`outDate
      ensures isIn ==> inDate == Some(d) && outDate == old(outDate)
      ensures !isIn ==> outDate == Some(d) && inDate == old(inDate)
    {
      if isIn { inDate := Some(d); } else { outDate := Some(d); }
    }

    method ChoosePay(m: Payment)
      requires IsPayMethod(m)
      modifies this`pay
      ensures pay == m
    {
      pay := m;
    }

    /** `addService`: one empty line at the end. */
    method AddService()
      modifies this`items
      ensures items == old(items) + [EmptyLine]
    {
      items := items + [EmptyLine];
    }

    /** `updateItem`: one field of one line. */
    method UpdateItem(idx: int, e: LineEdit)
      requires 0 <= idx < |items|
      modifies this`items
      ensures items == old(items)[idx := Edited(old(items)[idx], e)]
    {
      items := items[idx := Edited(items[idx], e)];
    }

    /** Moving between steps; reaching the review step without an id stamps one from the clock. */
    method GoToStep(s: int, now: int)
      requires 0 <= s <= 2
      requires Valid()
      modifies this`step, this`orderId
      ensures Valid()
      ensures step == s
      ensures orderId == if s == 2 && !OrderForm.HasOrderId(old(orderId)) then Some(now) else old(orderId)
    {
      step := s;
      if step == 2 && !OrderForm.HasOrderId(orderId) {
        orderId := Some(now);
      }
    }

    /** The form after a successful save. */
    predicate IsResetFrom(oldCustomers: seq<CustomerInfo>, oldPay: Payment)
      reads this
    {
      step == 0 && orderId.None? && selected.None? && phoneText == "" && inDate.None? && outDate.None? &&
      items == [EmptyLine] && pay == oldPay && customers == oldCustomers
    }

    /** The reset after a successful save. */
    method Reset()
      requires Valid()
      modifies this
      ensures Valid()
      ensures IsResetFrom(old(customers), old(pay))
    {
      step, orderId, selected, phoneText := 0, None, None, "";
      inDate, outDate, items := None, None, [EmptyLine];
    }

    /**
     * `saveOrder`: a failed guard writes nothing; otherwise the two writes run, and only when
     * both succeed is the form reset (step 0, no id, no customer, no dates, one empty line),
     * keeping the payment method and the customer list.
     */
    method SaveOrder(store: Store, uid: Option<string>, now: Stamp) returns (outcome: SaveOutcome)
      requires Valid()
      modifies this, store
      ensures Valid()
      ensures SaveGuard(old(selected), old(orderId)).Some? ==>
        outcome == SaveGuard(old(selected), old(orderId)).value && store.Snapshot() == old(store.Snapshot()) && unchanged(this)
      ensures SaveGuard(old(selected), old(orderId)).None? ==>
        var w := SaveWrites(old(store.Snapshot()), old(selected).value, old(orderId).value, old(inDate), old(outDate), old(items), old(pay), uid, now);
        store.Snapshot() == w.0 && outcome == (if w.1 then Saved else Failed)
      ensures outcome == Saved ==> IsResetFrom(old(customers), old(pay))
      ensures outcome == Failed ==> unchanged(this)
    {
      var g := SaveGuard(selected, orderId);
      if g.Some? {
        return g.value;
      }
      var ok := PersistOrder(store, selected.value, orderId.value, inDate, outDate, items, pay, uid, now);
      if !ok {
        return Failed;
      }
      Reset();
      outcome := Saved;
    }
  }
}
