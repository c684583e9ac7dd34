/**
 * The home screen: the dashboard of open laundry orders (sorted, filtered and
 * searched), the countdown to each pick-up deadline, status and payment updates,
 * and today's income, expense and balance.
 */
module Dashboard {
  import opened Options
  import opened Text
  import opened JsNumber
  import opened Seqs
  import opened Records
  import opened Backend

  /** A `laundry` document with its id. */
  datatype Entry = Entry(id: string, doc: DashboardDoc)

  /** `STATUS_ORDER`. */
  function StatusRank(s: Status): int {
    match s
    case Processing => 0
    case AwaitingPickup => 1
    case PickedUp => 2
  }

  function UnpaidRank(p: Payment): int {
    if p == Unpaid then 1 else 0
  }

  /** The comparator as written: the first non-zero of the three differences. */
  function Compare(a: Entry, b: Entry): int {
    var byStatus := StatusRank(a.doc.status) - StatusRank(b.doc.status);
    if byStatus != 0 then byStatus
    else
      var byPayment := UnpaidRank(a.doc.payment) - UnpaidRank(b.doc.payment);
      if byPayment != 0 then byPayment else a.doc.orderNumber - b.doc.orderNumber
  }

  /** The sort key order: status rank, then paid before unpaid, then order number, ascending. */
  predicate KeyLeq(a: Entry, b: Entry) {
    var ra, rb := StatusRank(a.doc.status), StatusRank(b.doc.status);
    var ua, ub := UnpaidRank(a.doc.payment), UnpaidRank(b.doc.payment);
    ra < rb || (ra == rb && (ua < ub || (ua == ub && a.doc.orderNumber <= b.doc.orderNumber)))
  }

  /** The comparator is antisymmetric and places `a` first exactly when its key is not greater. */
  lemma CompareIsKeyOrder(a: Entry, b: Entry)
    ensures Compare(a, b) <= 0 <==> KeyLeq(a, b)
    ensures Compare(a, b) == -Compare(b, a)
  {
  }

  lemma KeyLeqIsTotalPreorder()
    ensures TotalPreorder(KeyLeq)
  {
  }

  /** The list shown: a permutation of the snapshot, in ascending key order. */
  function SortedList(docs: seq<Entry>): (r: seq<Entry>)
    ensures multiset(r) == multiset(docs)
    ensures forall i, j :: 0 <= i < j < |r| ==> KeyLeq(r[i], r[j])
  {
    KeyLeqIsTotalPreorder();
    SortBy(docs, KeyLeq)
  }

  /** Sorted, an unpaid card never precedes a paid card of the same status. */
  lemma UnpaidLastWithinStatus(docs: seq<Entry>, i: int, j: int)
    requires 0 <= i < j < |SortedList(docs)|
    requires SortedList(docs)[i].doc.status == SortedList(docs)[j].doc.status
    requires SortedList(docs)[j].doc.payment != Unpaid
    ensures SortedList(docs)[i].doc.payment != Unpaid
  {
    var r := SortedList(docs);
    assert KeyLeq(r[i], r[j]);
  }

  /** The filter sheet's choices: `"Semua"`, a status, or `"Belum Bayar"`. */
  datatype ViewFilter = All | ByStatus(status: Status) | UnpaidOnly

  /** The options in the order the sheet lists them; index 5 is "Batal". */
  const FilterOptions: seq<ViewFilter> := [All, ByStatus(Processing), ByStatus(AwaitingPickup), UnpaidOnly, ByStatus(PickedUp)]

  predicate StatusOk(d: DashboardDoc, f: ViewFilter) {
    match f
    case All => true
    case UnpaidOnly => d.payment == Unpaid
    case ByStatus(s) => d.status == s
  }

  /** The query as matched: `search.trim().toLowerCase()`. */
  function SearchKey(search: string): string {
    Lower(Trim(search))
  }

  predicate MatchesSearch(d: DashboardDoc, q: string) {
    q == "" || Contains(Lower(d.name), q) || Contains(IntToString(d.orderNumber), q)
  }

  predicate Keep(e: Entry, f: ViewFilter, search: string) {
    StatusOk(e.doc, f) && MatchesSearch(e.doc, SearchKey(search))
  }

  /** `shown`: the cards passing both the status filter and the search, in list order. */
  function Shown(data: seq<Entry>, f: ViewFilter, search: string): (r: seq<Entry>)
    ensures forall e :: e in r <==> e in data && Keep(e, f, search)
    ensures IsSubseq(r, data)
    ensures forall x :: multiset(r)[x] == if Keep(x, f, search) then multiset(data)[x] else 0
  {
    FilterIsSubseq(data, (e: Entry) => Keep(e, f, search));
    FilterMultiset(data, (e: Entry) => Keep(e, f, search));
    Filter(data, (e: Entry) => Keep(e, f, search))
  }

  /** The search key is empty exactly when the search is blank. */
  lemma SearchKeyEmpty(search: string)
    ensures SearchKey(search) == "" <==> IsBlank(search)
  {
    assert |Lower(Trim(search))| == |Trim(search)|;
  }

  /** "Semua" with a blank search shows every card. */
  lemma ShownAllBlank(data: seq<Entry>, search: string)
    requires IsBlank(search)
    ensures Shown(data, All, search) == data
  {
    SearchKeyEmpty(search);
    FilterKeepsAll(data, (e: Entry) => Keep(e, All, search));
  }

  /** With a blank search, "Belum Bayar" keeps exactly the unpaid cards and a status filter exactly that status. */
  lemma ShownByFilterBlank(data: seq<Entry>, f: ViewFilter, search: string, e: Entry)
    requires IsBlank(search)
    ensures f == UnpaidOnly ==> (e in Shown(data, f, search) <==> e in data && e.doc.payment == Unpaid)
    ensures f.ByStatus? ==> (e in Shown(data, f, search) <==> e in data && e.doc.status == f.status)
  {
    SearchKeyEmpty(search);
  }

  /** The countdown to a deadline, whole days and then hours, minutes and seconds. */
  datatype Countdown = Countdown(late: bool, days: int, hours: int, minutes: int, seconds: int)

  function Abs(x: int): int {
    if x < 0 then -x else x
  }

  /** `a * k` is at least `a` for a positive multiplier. */
  lemma {:induction false} MulAtLeast(a: int, k: int)
    requires a > 0 && k >= 1
    ensures a * k >= a
    decreases k
  {
    if k > 1 {
      MulAtLeast(a, k - 1);
      assert a * k == a * (k - 1) + a;
    }
  }

  /** Euclidean division is unique: `x == a * q + r` with `0 <= r < a` fixes the quotient and remainder. */
  lemma DivModUnique(x: int, a: int, q: int, r: int)
    requires a > 0 && x == a * q + r && 0 <= r < a
    ensures x / a == q && x % a == r
  {
    var q2, r2 := x / a, x % a;
    assert a * q + r == a * q2 + r2;
    assert a * (q - q2) == r2 - r;
    if q - q2 >= 1 {
      MulAtLeast(a, q - q2);
    } else if q2 - q >= 1 {
      MulAtLeast(a, q2 - q);
    }
  }

  /**
   * The countdown of a card: late when the deadline has passed; the absolute number of
   * whole seconds `|floor(diff / 1000)|` splits into days, hours below 24, minutes below 60
   * and seconds below 60.
   */
  function CountdownOf(deadline: int, now: int): (c: Countdown)
    ensures c.late <==> deadline - now < 0
    ensures c.days * 86400 + c.hours * 3600 + c.minutes * 60 + c.seconds == Abs((deadline - now) / 1000)
    ensures c.days >= 0 && 0 <= c.hours < 24 && 0 <= c.minutes < 60 && 0 <= c.seconds < 60
  {
    var diff := deadline - now;
    var absSec := Abs(diff / 1000);
    var d, rDay := absSec / 86400, absSec % 86400;
    var h, rHour := rDay / 3600, rDay % 3600;
    var m, sec := rHour / 60, rHour % 60;
    DivModUnique(absSec, 3600, 24 * d + h, rHour);
    DivModUnique(absSec, 60, 60 * (24 * d + h) + m, sec);
    Countdown(diff < 0, d, h, absSec % 3600 / 60, absSec % 60)
  }

  /** `HH:MM:SS`: eight characters, each field two digits reading back as its value. */
  function ClockText(c: Countdown): (r: string)
    requires 0 <= c.hours < 24 && 0 <= c.minutes < 60 && 0 <= c.seconds < 60
    ensures |r| == 8 && r[2] == ':' && r[5] == ':'
    ensures AllDigits(r[0..2]) && DigitsValue(r[0..2]) == c.hours
    ensures AllDigits(r[3..5]) && DigitsValue(r[3..5]) == c.minutes
    ensures AllDigits(r[6..8]) && DigitsValue(r[6..8]) == c.seconds
  {
    var h, m, s := PadTwo(c.hours), PadTwo(c.minutes), PadTwo(c.seconds);
    var r := h + ":" + m + ":" + s;
    assert r[0..2] == h && r[3..5] == m && r[6..8] == s;
    r
  }

  /** The card's countdown text: empty without a deadline, else an optional `-`, the days, `d ` and the clock. */
  function CountdownText(deadline: Option<int>, now: int): (r: string)
    ensures deadline.None? <==> r == ""
    ensures deadline.Some? ==>
      var c := CountdownOf(deadline.value, now);
      var k := if c.late then 1 else 0;
      |r| >= k + 11 && (r[0] == '-' <==> c.late) &&
      AllDigits(r[k..|r| - 10]) && DigitsValue(r[k..|r| - 10]) == c.days &&
      r[|r| - 10..|r| - 8] == "d " && r[|r| - 8..] == ClockText(c)
  {
    if deadline.None? then ""
    else
      var c := CountdownOf(deadline.value, now);
      var sign := if c.late then "-" else "";
      assert IntToString(c.days) == NatToString(c.days);
      CountdownParts(sign, NatToString(c.days), ClockText(c));
      sign + IntToString(c.days) + "d " + ClockText(c)
  }

  /** Where the sign, the day digits, `d ` and the clock sit in the countdown text. */
  lemma CountdownParts(sign: string, days: string, clock: string)
    requires sign == "" || sign == "-"
    requires |days| >= 1 && AllDigits(days) && |clock| == 8
    ensures var r := sign + days + "d " + clock;
      |r| == |sign| + |days| + 10 && (r[0] == '-' <==> sign == "-") &&
      r[|sign|..|r| - 10] == days && r[|r| - 10..|r| - 8] == "d " && r[|r| - 8..] == clock
  {
    var r := sign + days + "d " + clock;
    assert r[|sign|..|r| - 10] == days;
    assert r[|r| - 10..|r| - 8] == "d ";
    assert r[|r| - 8..] == clock;
    if sign == "" {
      assert r[0] == days[0];
      assert IsDigit(days[0]);
    }
  }

  /** The status sheet's choices; index 3 is "Batal". */
  const StatusChoices: seq<Status> := [Processing, AwaitingPickup, PickedUp]

  /**
   * `changeStatus`: cancelling or re-choosing the current status writes nothing; otherwise
   * the order's status is set, and then the card is deleted when the order is picked up
   * or gets the new status otherwise. A missing order document stops it.
   */
  function ChangeStatusWrites(db: Db, id: string, curr: Status, choice: nat): Db {
    if choice >= |StatusChoices| then db
    else
      var ns := StatusChoices[choice];
      if ns == curr then db
      else
        var r1 := SetOrderStatus(db, id, ns);
        if r1.None? then db
        else if ns == PickedUp then RemoveLaundry(r1.value, id)
        else Commit(r1.value, SetLaundryStatus(r1.value, id, ns))
  }

  /** Cancelling, re-choosing the current status, or a missing order leaves the store as it was. */
  lemma ChangeStatusNoop(db: Db, id: string, curr: Status, choice: nat)
    requires choice >= |StatusChoices| || StatusChoices[choice] == curr || id !in db.orders
    ensures ChangeStatusWrites(db, id, curr, choice) == db
  {
  }

  /** A new status for an existing order: the order carries it and the other collections stay. */
  lemma ChangeStatusOrder(db: Db, id: string, curr: Status, choice: nat)
    requires choice < |StatusChoices| && StatusChoices[choice] != curr && id in db.orders
    ensures ChangeStatusWrites(db, id, curr, choice).orders == db.orders[id := db.orders[id].(status := Some(StatusChoices[choice]))]
    ensures ChangeStatusWrites(db, id, curr, choice).customers == db.customers
    ensures ChangeStatusWrites(db, id, curr, choice).inventory == db.inventory
    ensures ChangeStatusWrites(db, id, curr, choice).expenses == db.expenses
  {
    var ns := StatusChoices[choice];
    var db1 := db.(orders := db.orders[id := db.orders[id].(status := Some(ns))]);
    assert SetOrderStatus(db, id, ns) == Some(db1);
    if ns == PickedUp {
      assert ChangeStatusWrites(db, id, curr, choice) == RemoveLaundry(db1, id);
    } else {
      assert ChangeStatusWrites(db, id, curr, choice) == Commit(db1, SetLaundryStatus(db1, id, ns));
    }
  }

  /** A pick-up removes the card; any other new status is copied onto the card, if there is one. */
  lemma ChangeStatusCard(db: Db, id: string, curr: Status, choice: nat)
    requires choice < |StatusChoices| && StatusChoices[choice] != curr && id in db.orders
    ensures StatusChoices[choice] == PickedUp ==>
      ChangeStatusWrites(db, id, curr, choice).laundry == db.laundry - {id}
    ensures StatusChoices[choice] != PickedUp && id in db.laundry ==>
      ChangeStatusWrites(db, id, curr, choice).laundry == db.laundry[id := db.laundry[id].(status := StatusChoices[choice])]
    ensures StatusChoices[choice] != PickedUp && id !in db.laundry ==>
      ChangeStatusWrites(db, id, curr, choice).laundry == db.laundry
  {
  }

  /** The payment methods the payment sheet offers. */
  predicate IsSheetPayment(p: Payment) {
    p == Cash || p == Qris || p == Transfer
  }

  /** The payment writes: the card first, then the order; a failure stops them. */
  function PaymentWrites(db: Db, id: string, m: Payment): Db {
    var r1 := SetLaundryPayment(db, id, m);
    if r1.None? then db else Commit(r1.value, SetOrderPayment(r1.value, id, m))
  }

  /**
   * Where the active card exists, the card and then the order (if it exists) carry the chosen
   * method; the other collections never change, and nothing changes without the card.
   */
  lemma PaymentWritesEffect(db: Db, id: string, m: Payment)
    ensures var db' := PaymentWrites(db, id, m);
      (id in db.laundry ==> db'.laundry == db.laundry[id := db.laundry[id].(payment := m)]) &&
      (id in db.laundry && id in db.orders ==> db'.orders == db.orders[id := db.orders[id].(payment := Some(m))]) &&
      (id in db.laundry && id !in db.orders ==> db'.orders == db.orders) &&
      (id !in db.laundry ==> db' == db) &&
      db' == db.(laundry := db'.laundry, orders := db'.orders)
  {
  }

  /** The income query of the day: the owner's orders paid by cash, QRIS or transfer created in `[start, end)`. */
  predicate CountsAsDailyIncome(o: OrderDoc, uid: string, start: int, end: int) {
    o.ownerId == Some(uid) &&
    o.payment.Some? && IsSheetPayment(o.payment.value) &&
    o.createdAt.Some? && start <= o.createdAt.value.millis < end
  }

  predicate CountsAsDailyExpense(e: ExpenseDoc, uid: string, start: int, end: int) {
    e.ownerId == uid && e.date.Some? && start <= e.date.value.millis < end
  }

  function DailyIncome(orders: seq<OrderDoc>, uid: string, start: int, end: int): int {
    SumOf(Filter(orders, (o: OrderDoc) => CountsAsDailyIncome(o, uid, start, end)), OrderTotal)
  }

  function DailyExpense(expenses: seq<ExpenseDoc>, uid: string, start: int, end: int): int {
    SumOf(Filter(expenses, (e: ExpenseDoc) => CountsAsDailyExpense(e, uid, start, end)), ExpenseAmount)
  }

  /**
   * One more order adds its total (NaN as 0) to the day's income when it is the owner's,
   * created today and paid by cash, QRIS or transfer, and adds nothing otherwise: deposit,
   * unpaid and manually entered ("paid") orders never count.
   */
  lemma DailyIncomeStep(orders: seq<OrderDoc>, o: OrderDoc, uid: string, start: int, end: int)
    ensures DailyIncome(orders + [o], uid, start, end) ==
            DailyIncome(orders, uid, start, end) + (if CountsAsDailyIncome(o, uid, start, end) then OrZero(o.total) else 0)
    ensures o.payment == Some(Deposit) || o.payment == Some(Paid) || o.payment == Some(Unpaid) ==>
            DailyIncome(orders + [o], uid, start, end) == DailyIncome(orders, uid, start, end)
  {
    SumOfFilterAppendOne(orders, o, (x: OrderDoc) => CountsAsDailyIncome(x, uid, start, end), OrderTotal);
  }

  /** The daily figures: the two query handlers set their flags and the spinner stops once both have reported. */
  class FinanceLoader {
    var income: int
    var expense: int
    var doneInc: bool
    var doneExp: bool
    var loading: bool

    predicate Valid()
      reads this
    {
      !loading <==> doneInc && doneExp
    }

    /** `balance = income - expense`. */
    function Balance(): int
      reads this
    {
      income - expense
    }

    constructor()
      ensures Valid() && loading && !doneInc && !doneExp && income == 0 && expense == 0
    {
      income, expense := 0, 0;
      doneInc, doneExp, loading := false, false, true;
    }

    method OnIncomeSnapshot(orders: seq<OrderDoc>, uid: string, start: int, end: int)
      requires Valid()
      modifies this
      ensures Valid()
      ensures income == DailyIncome(orders, uid, start, end) && expense == old(expense)
      ensures doneInc && doneExp == old(doneExp)
      ensures Balance() == DailyIncome(orders, uid, start, end) - old(expense)
    {
      income := DailyIncome(orders, uid, start, end);
      doneInc := true;
      if doneInc && doneExp {
        loading := false;
      }
    }

    method OnExpenseSnapshot(expenses: seq<ExpenseDoc>, uid: string, start: int, end: int)
      requires Valid()
      modifies this
      ensures Valid()
      ensures expense == DailyExpense(expenses, uid, start, end) && income == old(income)
      ensures doneExp && doneInc == old(doneInc)
      ensures Balance() == old(income) - DailyExpense(expenses, uid, start, end)
    {
      expense := DailyExpense(expenses, uid, start, end);
      doneExp := true;
      if doneInc && doneExp {
        loading := false;
      }
    }
  }

  /** The dashboard's own state: the list, the filter and search, and the payment sheet. */
  class HomeScreen {
    var data: seq<Entry>
    var filter: ViewFilter
    var search: string
    var payModalVisible: bool
    var activeDocId: Option<string>

    constructor()
      ensures data == [] && filter == All && search == "" && !payModalVisible && activeDocId.None?
    {
      data, filter, search := [], All, "";
      payModalVisible, activeDocId := false, None;
    }

    /** The cards on screen. */
    function ShownNow(): seq<Entry>
      reads this
    {
      Shown(data, filter, search)
    }

    /** A `laundry` snapshot of the owner's cards, sorted. */
    method OnSnapshot(docs: seq<Entry>)
      modifies this`data
      ensures data == SortedList(docs)
    {
      data := SortedList(docs);
    }

    method SetSearch(t: string)
      modifies this`search
      ensures search == t
    {
      search := t;
    }

    /** A choice in the filter sheet; "Batal" (index 5) and beyond keep the current filter. */
    method ChooseFilter(i: nat)
      modifies this`filter
      ensures i < |FilterOptions| ==> filter == FilterOptions[i]
      ensures i >= |FilterOptions| ==> filter == old(filter)
    {
      if i < |FilterOptions| {
        filter := FilterOptions[i];
      }
    }

    method ChangeStatus(store: Store, id: string, curr: Status, choice: nat)
      modifies store
      ensures store.Snapshot() == ChangeStatusWrites(old(store.Snapshot()), id, curr, choice)
    {
      if choice >= |StatusChoices| {
        return;
      }
      var ns := StatusChoices[choice];
      if ns == curr {
        return;
      }
      var ok := store.UpdateOrderStatus(id, ns);
      if !ok {
        return;
      }
      if ns == PickedUp {
        store.DeleteLaundry(id);
      } else {
        ok := store.UpdateLaundryStatus(id, ns);
      }
    }

    method OpenPaymentModal(id: string)
      modifies this`activeDocId, this`payModalVisible
      ensures activeDocId == Some(id) && payModalVisible
    {
      activeDocId := Some(id);
      payModalVisible := true;
    }

    /** Tapping outside the sheet hides it and keeps the active id. */
    method DismissPaymentModal()
      modifies this`payModalVisible
      ensures !payModalVisible
    {
      payModalVisible := false;
    }

    /**
     * `selectPaymentMethod`: without an active id (absent or empty) nothing happens;
     * otherwise the writes run, and the sheet closes and the id clears whatever their outcome.
     */
    method SelectPaymentMethod(store: Store, m: Payment)
      requires IsSheetPayment(m)
      modifies this`activeDocId, this`payModalVisible, store
      ensures old(activeDocId).None? || old(activeDocId).value == "" ==>
        store.Snapshot() == old(store.Snapshot()) && activeDocId == old(activeDocId) && payModalVisible == old(payModalVisible)
      ensures old(activeDocId).Some? && old(activeDocId).value != "" ==>
        store.Snapshot() == PaymentWrites(old(store.Snapshot()), old(activeDocId).value, m) &&
        activeDocId.None? && !payModalVisible
    {
      if activeDocId.None? || activeDocId.value == "" {
        return;
      }
      var id := activeDocId.value;
      var ok := store.UpdateLaundryPayment(id, m);
      if ok {
        ok := store.UpdateOrderPayment(id, m);
      }
      payModalVisible := false;
      activeDocId := None;
    }
  }
}
