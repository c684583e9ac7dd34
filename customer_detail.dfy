/** The customer detail screen: the customer's order history and the deposit top-up. */
module CustomerDetail {
  import opened Options
  import opened Text
  import opened JsNumber
  import opened Seqs
  import opened Records
  import opened Backend

  /** An `orders` document with its id. */
  datatype HistoryEntry = HistoryEntry(id: string, doc: OrderDoc)

  /** The history query: the customer's orders that belong to the signed-in owner. */
  predicate InHistory(e: HistoryEntry, customerId: string, uid: string) {
    e.doc.customerId == Some(customerId) && e.doc.ownerId == Some(uid)
  }

  /** The order number the comparator subtracts. */
  function Number(e: HistoryEntry): int {
    e.doc.orderNumber.GetOr(0)
  }

  /** Newest first: a larger order number sorts earlier. */
  predicate NewerOrSame(a: HistoryEntry, b: HistoryEntry) {
    Number(a) >= Number(b)
  }

  /** The history: exactly the matching orders, a permutation of them, by descending order number. */
  function History(orders: seq<HistoryEntry>, customerId: string, uid: string): (r: seq<HistoryEntry>)
    ensures forall e :: e in r <==> e in orders && InHistory(e, customerId, uid)
    ensures multiset(r) == multiset(Filter(orders, (e: HistoryEntry) => InHistory(e, customerId, uid)))
    ensures forall i, j :: 0 <= i < j < |r| ==> Number(r[i]) >= Number(r[j])
  {
    var matching := Filter(orders, (e: HistoryEntry) => InHistory(e, customerId, uid));
    assert TotalPreorder(NewerOrSame);
    var r := SortBy(matching, NewerOrSame);
    forall e ensures e in r <==> e in matching {
      assert e in r <==> e in multiset(r);
      assert e in matching <==> e in multiset(matching);
    }
    r
  }

  datatype TopUpResult = InvalidAmount | Failed | ToppedUp

  /** `parseInt(topupValue, 10)` must give a positive number. */
  predicate ValidAmount(text: string) {
    ParseIntPrefix(text).Some? && ParseIntPrefix(text).value > 0
  }

  /** `(depositBalance || 0) + amt`: a missing, zero or NaN balance counts as 0. */
  function LocalBalance(c: CustomerDoc, amt: int): int {
    OrZero(c.depositBalance.GetOr(Some(0))) + amt
  }

  /** The screen's own copy after a top-up: `(depositBalance || 0) + amt` and a member; no copy stays none. */
  function Credited(cust: Option<CustomerDoc>, amt: int): (r: Option<CustomerDoc>)
    ensures r.None? <==> cust.None?
    ensures r.Some? ==> r.value == cust.value.(depositBalance := r.value.depositBalance, isMember := Some(true))
    ensures r.Some? ==>
      var b := cust.value.depositBalance;
      r.value.depositBalance == Some(Some(if b.Some? && b.value.Some? then b.value.value + amt else amt))
  {
    if cust.None? then None
    else Some(cust.value.(depositBalance := Some(Some(LocalBalance(cust.value, amt))), isMember := Some(true)))
  }

  /**
   * A top-up raises the balance by the amount (a missing balance counting as 0) and makes the
   * customer a member; name, phone and order count stay, and so does every other customer.
   */
  lemma TopUpEffect(db: Db, id: string, amt: int)
    requires id in db.customers
    ensures CreditDeposit(db, id, amt).Some?
    ensures var c, c' := db.customers[id], CreditDeposit(db, id, amt).value.customers[id];
      c'.depositBalance == Some(Add(c.depositBalance.GetOr(Some(0)), Some(amt))) && c'.isMember == Some(true) &&
      c'.name == c.name && c'.phone == c.phone && c'.totalOrders == c.totalOrders && c'.ownerId == c.ownerId
    ensures forall k :: k in db.customers && k != id ==> CreditDeposit(db, id, amt).value.customers[k] == db.customers[k]
    ensures CreditDeposit(db, id, amt).value.customers.Keys == db.customers.Keys
    ensures CreditDeposit(db, id, amt).value.orders == db.orders
  {
  }

  /**
   * When the screen's copy was the stored customer, it is the stored customer after the
   * top-up too, unless the stored balance is NaN: the store keeps NaN while the screen
   * shows the amount alone.
   */
  lemma CreditedMatchesStore(db: Db, id: string, amt: int)
    requires id in db.customers
    ensures Credited(Some(db.customers[id]), amt) == Some(CreditDeposit(db, id, amt).value.customers[id]) <==>
      db.customers[id].depositBalance != Some(None)
  {
    var c := db.customers[id];
    if c.depositBalance == Some(None) {
      assert CreditDeposit(db, id, amt).value.customers[id].depositBalance == Some(None);
    }
  }

  class CustomerDetailScreen {
    var cust: Option<CustomerDoc>
    var history: seq<HistoryEntry>
    var loading: bool
    var modalVisible: bool
    var topupValue: string
    var updating: bool

    constructor()
      ensures cust.None? && history == [] && loading && !modalVisible && topupValue == "" && !updating
    {
      cust, history, loading := None, [], true;
      modalVisible, topupValue, updating := false, "", false;
    }

    /** The history query has returned: the sorted list is shown and the spinner stops. */
    method OnHistory(orders: seq<HistoryEntry>, customerId: string, uid: string)
      modifies this`history, this`loading
      ensures history == History(orders, customerId, uid) && !loading
    {
      history := History(orders, customerId, uid);
      loading := false;
    }

    /**
     * `handleTopUp`: an amount that does not parse to a positive integer is refused with no
     * write. Otherwise the deposit update runs; only when it succeeds is the local copy
     * credited, the input cleared and the modal closed. `updating` is down at the end.
     */
    method HandleTopUp(store: Store, id: string) returns (r: TopUpResult)
      modifies store, this`cust, this`topupValue, this`modalVisible, this`updating
      ensures r == InvalidAmount <==> !ValidAmount(old(topupValue))
      ensures r == InvalidAmount ==>
        store.Snapshot() == old(store.Snapshot()) && cust == old(cust) &&
        topupValue == old(topupValue) && modalVisible == old(modalVisible) && updating == old(updating)
      ensures r != InvalidAmount ==>
        var amt := ParseIntPrefix(old(topupValue)).value;
        store.Snapshot() == Commit(old(store.Snapshot()), CreditDeposit(old(store.Snapshot()), id, amt)) &&
        (r == ToppedUp <==> CreditDeposit(old(store.Snapshot()), id, amt).Some?) &&
        !updating
      ensures r == ToppedUp ==>
        cust == Credited(old(cust), ParseIntPrefix(old(topupValue)).value) && topupValue == "" && !modalVisible
      ensures r == Failed ==> cust == old(cust) && topupValue == old(topupValue) && modalVisible == old(modalVisible)
    {
      var amt := ParseIntPrefix(topupValue);
      if amt.None? || amt.value <= 0 {
        return InvalidAmount;
      }
      updating := true;
      var ok := store.TopUp(id, amt.value);
      if ok {
        cust := Credited(cust, amt.value);
        topupValue := "";
        modalVisible := false;
        r := ToppedUp;
      } else {
        r := Failed;
      }
      updating := false;
    }
  }
}
