/**
 * The document store behind every screen: one map per collection, from document
 * id to document. Each write the app performs is a pure function on a snapshot
 * `Db` of the whole store; `Store` holds the maps and applies those functions in
 * place. `setDoc`, `addDoc` and `deleteDoc` always succeed; `updateDoc` fails,
 * changing nothing, when the document does not exist.
 */
module Backend {
  import opened Options
  import opened Seqs
  import opened Records
  import opened JsNumber

  datatype Db = Db(
    customers: map<string, CustomerDoc>,
    inventory: map<string, InventoryDoc>,
    orders: map<string, OrderDoc>,
    laundry: map<string, DashboardDoc>,
    expenses: map<string, ExpenseDoc>,
    users: map<string, UserDoc>,
    displayNames: map<string, string>)

  const EmptyDb := Db(map[], map[], map[], map[], map[], map[], map[])

  /** The state after an update that may fail: unchanged on failure. */
  function Commit(db: Db, r: Option<Db>): Db {
    if r.Some? then r.value else db
  }

  function PutOrder(db: Db, id: string, d: OrderDoc): Db {
    db.(orders := db.orders[id := d])
  }

  function PutLaundry(db: Db, id: string, d: DashboardDoc): Db {
    db.(laundry := db.laundry[id := d])
  }

  function PutCustomer(db: Db, id: string, d: CustomerDoc): Db {
    db.(customers := db.customers[id := d])
  }

  function PutInventory(db: Db, id: string, d: InventoryDoc): Db {
    db.(inventory := db.inventory[id := d])
  }

  function PutExpense(db: Db, id: string, d: ExpenseDoc): Db {
    db.(expenses := db.expenses[id := d])
  }

  function PutUser(db: Db, id: string, d: UserDoc): Db {
    db.(users := db.users[id := d])
  }

  function PutDisplayName(db: Db, uid: string, name: string): Db {
    db.(displayNames := db.displayNames[uid := name])
  }

  function RemoveLaundry(db: Db, id: string): Db {
    db.(laundry := db.laundry - {id})
  }

  /** `updateDoc(customers/id, {totalOrders: increment(delta)})`. */
  function BumpTotalOrders(db: Db, id: string, delta: int): Option<Db> {
    if id in db.customers then
      var c := db.customers[id];
      Some(db.(customers := db.customers[id := c.(totalOrders := c.totalOrders + delta)]))
    else None
  }

  /**
   * `updateDoc(customers/id, {depositBalance: increment(delta)})`: a missing balance
   * increments from 0, and a NaN on either side leaves NaN stored.
   */
  function BumpDeposit(db: Db, id: string, delta: Num): Option<Db> {
    if id in db.customers then
      var c := db.customers[id];
      Some(db.(customers := db.customers[id := c.(depositBalance := Some(Add(c.depositBalance.GetOr(Some(0)), delta)))]))
    else None
  }

  /** `updateDoc(customers/id, {depositBalance: increment(amt), isMember: true})`. */
  function CreditDeposit(db: Db, id: string, amt: int): Option<Db> {
    if id in db.customers then
      var c := db.customers[id];
      Some(db.(customers := db.customers[id := c.(depositBalance := Some(Add(c.depositBalance.GetOr(Some(0)), Some(amt))), isMember := Some(true))]))
    else None
  }

  function SetOrderStatus(db: Db, id: string, s: Status): Option<Db> {
    if id in db.orders then Some(db.(orders := db.orders[id := db.orders[id].(status := Some(s))])) else None
  }

  function SetLaundryStatus(db: Db, id: string, s: Status): Option<Db> {
    if id in db.laundry then Some(db.(laundry := db.laundry[id := db.laundry[id].(status := s)])) else None
  }

  function SetOrderPayment(db: Db, id: string, p: Payment): Option<Db> {
    if id in db.orders then Some(db.(orders := db.orders[id := db.orders[id].(payment := Some(p))])) else None
  }

  function SetLaundryPayment(db: Db, id: string, p: Payment): Option<Db> {
    if id in db.laundry then Some(db.(laundry := db.laundry[id := db.laundry[id].(payment := p)])) else None
  }

  /** One `stock: increment(-qty)` update of an inventory document. */
  datatype Sale = Sale(id: string, qty: int)

  function SaleFor(id: string): Sale -> bool {
    (s: Sale) => s.id == id
  }

  function SaleQty(s: Sale): int {
    s.qty
  }

  /** The stock updates of `Promise.all`: each one applies to its document if that exists. */
  function ApplySales(inv: map<string, InventoryDoc>, sales: seq<Sale>): (r: map<string, InventoryDoc>)
    ensures r.Keys == inv.Keys
  {
    if sales == [] then inv
    else
      var prev := ApplySales(inv, sales[..|sales| - 1]);
      var s := sales[|sales| - 1];
      if s.id in prev then prev[s.id := prev[s.id].(stock := prev[s.id].stock - s.qty)] else prev
  }

  predicate SalesPresent(inv: map<string, InventoryDoc>, sales: seq<Sale>) {
    forall i :: 0 <= i < |sales| ==> sales[i].id in inv
  }

  /** All stock updates run; the combined promise succeeds only if every document existed. */
  function Sell(db: Db, sales: seq<Sale>): (Db, bool) {
    (db.(inventory := ApplySales(db.inventory, sales)), SalesPresent(db.inventory, sales))
  }

  /**
   * Every document loses exactly the quantities sold under its id, with no lower bound
   * on the stock, and keeps its other fields; a document with no sale is untouched.
   */
  lemma {:induction false} ApplySalesStock(inv: map<string, InventoryDoc>, sales: seq<Sale>, id: string)
    requires id in inv
    ensures ApplySales(inv, sales)[id] ==
            inv[id].(stock := inv[id].stock - SumOf(Filter(sales, SaleFor(id)), SaleQty))
  {
    if sales != [] {
      var init := sales[..|sales| - 1];
      var s := sales[|sales| - 1];
      ApplySalesStock(inv, init, id);
      var f := Filter(init, SaleFor(id));
      SoldUnder(init, s, id);
      var prev := ApplySales(inv, init);
      assert ApplySales(inv, sales) == if s.id in prev then prev[s.id := prev[s.id].(stock := prev[s.id].stock - s.qty)] else prev;
    }
  }

  lemma SoldUnder(init: seq<Sale>, s: Sale, id: string)
    ensures SumOf(Filter(init + [s], SaleFor(id)), SaleQty) ==
            SumOf(Filter(init, SaleFor(id)), SaleQty) + (if s.id == id then s.qty else 0)
  {
    var f := Filter(init, SaleFor(id));
    assert (init + [s])[..|init + [s]| - 1] == init;
    if s.id == id {
      assert (f + [s])[..|f + [s]| - 1] == f;
    } else {
      assert f + [] == f;
    }
  }

  /** The backend itself: one map per collection, updated in place by each write. */
  class Store {
    var customers: map<string, CustomerDoc>
    var inventory: map<string, InventoryDoc>
    var orders: map<string, OrderDoc>
    var laundry: map<string, DashboardDoc>
    var expenses: map<string, ExpenseDoc>
    var users: map<string, UserDoc>
    var displayNames: map<string, string>

    function Snapshot(): Db
      reads this
    {
      Db(customers, inventory, orders, laundry, expenses, users, displayNames)
    }

    constructor()
      ensures Snapshot() == EmptyDb
    {
      customers, inventory, orders, laundry := map[], map[], map[], map[];
      expenses, users, displayNames := map[], map[], map[];
    }

    /** `setDoc` / `addDoc` on `orders`. */
    method SetOrder(id: string, d: OrderDoc)
      modifies this
      ensures Snapshot() == PutOrder(old(Snapshot()), id, d)
    {
      orders := orders[id := d];
    }

    method SetLaundry(id: string, d: DashboardDoc)
      modifies this
      ensures Snapshot() == PutLaundry(old(Snapshot()), id, d)
    {
      laundry := laundry[id := d];
    }

    method AddCustomer(id: string, d: CustomerDoc)
      modifies this
      ensures Snapshot() == PutCustomer(old(Snapshot()), id, d)
    {
      customers := customers[id := d];
    }

    method AddInventory(id: string, d: InventoryDoc)
      modifies this
      ensures Snapshot() == PutInventory(old(Snapshot()), id, d)
    {
      inventory := inventory[id := d];
    }

    method AddExpense(id: string, d: ExpenseDoc)
      modifies this
      ensures Snapshot() == PutExpense(old(Snapshot()), id, d)
    {
      expenses := expenses[id := d];
    }

    method SetUser(id: string, d: UserDoc)
      modifies this
      ensures Snapshot() == PutUser(old(Snapshot()), id, d)
    {
      users := users[id := d];
    }

    /** `updateProfile(user, {displayName})` on the account just created. */
    method SetDisplayName(uid: string, name: string)
      modifies this
      ensures Snapshot() == PutDisplayName(old(Snapshot()), uid, name)
    {
      displayNames := displayNames[uid := name];
    }

    method DeleteLaundry(id: string)
      modifies this
      ensures Snapshot() == RemoveLaundry(old(Snapshot()), id)
    {
      laundry := laundry - {id};
    }

    method IncrementTotalOrders(id: string, delta: int) returns (ok: bool)
      modifies this
      ensures ok == BumpTotalOrders(old(Snapshot()), id, delta).Some?
      ensures Snapshot() == Commit(old(Snapshot()), BumpTotalOrders(old(Snapshot()), id, delta))
    {
      ok := id in customers;
      if ok {
        customers := customers[id := customers[id].(totalOrders := customers[id].totalOrders + delta)];
      }
    }

    method IncrementDeposit(id: string, delta: Num) returns (ok: bool)
      modifies this
      ensures ok == BumpDeposit(old(Snapshot()), id, delta).Some?
      ensures Snapshot() == Commit(old(Snapshot()), BumpDeposit(old(Snapshot()), id, delta))
    {
      ok := id in customers;
      if ok {
        var c := customers[id];
        customers := customers[id := c.(depositBalance := Some(Add(c.depositBalance.GetOr(Some(0)), delta)))];
      }
    }

    method TopUp(id: string, amt: int) returns (ok: bool)
      modifies this
      ensures ok == CreditDeposit(old(Snapshot()), id, amt).Some?
      ensures Snapshot() == Commit(old(Snapshot()), CreditDeposit(old(Snapshot()), id, amt))
    {
      ok := id in customers;
      if ok {
        var c := customers[id];
        customers := customers[id := c.(depositBalance := Some(Add(c.depositBalance.GetOr(Some(0)), Some(amt))), isMember := Some(true))];
      }
    }

    method UpdateOrderStatus(id: string, s: Status) returns (ok: bool)
      modifies this
      ensures ok == SetOrderStatus(old(Snapshot()), id, s).Some?
      ensures Snapshot() == Commit(old(Snapshot()), SetOrderStatus(old(Snapshot()), id, s))
    {
      ok := id in orders;
      if ok {
        orders := orders[id := orders[id].(status := Some(s))];
      }
    }

    method UpdateLaundryStatus(id: string, s: Status) returns (ok: bool)
      modifies this
      ensures ok == SetLaundryStatus(old(Snapshot()), id, s).Some?
      ensures Snapshot() == Commit(old(Snapshot()), SetLaundryStatus(old(Snapshot()), id, s))
    {
      ok := id in laundry;
      if ok {
        laundry := laundry[id := laundry[id].(status := s)];
      }
    }

    method UpdateOrderPayment(id: string, p: Payment) returns (ok: bool)
      modifies this
      ensures ok == SetOrderPayment(old(Snapshot()), id, p).Some?
      ensures Snapshot() == Commit(old(Snapshot()), SetOrderPayment(old(Snapshot()), id, p))
    {
      ok := id in orders;
      if ok {
        orders := orders[id := orders[id].(payment := Some(p))];
      }
    }

    method UpdateLaundryPayment(id: string, p: Payment) returns (ok: bool)
      modifies this
      ensures ok == SetLaundryPayment(old(Snapshot()), id, p).Some?
      ensures Snapshot() == Commit(old(Snapshot()), SetLaundryPayment(old(Snapshot()), id, p))
    {
      ok := id in laundry;
      if ok {
        laundry := laundry[id := laundry[id].(payment := p)];
      }
    }

    /** `Promise.all` of the stock updates, applied one after the other. */
    method DecrementStock(sales: seq<Sale>) returns (ok: bool)
      modifies this
      ensures (Snapshot(), ok) == Sell(old(Snapshot()), sales)
    {
      var i := 0;
      ok := true;
      while i < |sales|
        invariant 0 <= i <= |sales|
        invariant inventory == ApplySales(old(inventory), sales[..i])
        invariant ok == SalesPresent(old(inventory), sales[..i])
        invariant Snapshot() == old(Snapshot()).(inventory := inventory)
      {
        var s := sales[i];
        assert sales[..i + 1][..i] == sales[..i];
        if s.id in inventory {
          inventory := inventory[s.id := inventory[s.id].(stock := inventory[s.id].stock - s.qty)];
        } else {
          ok := false;
        }
        i := i + 1;
      }
      assert sales[..i] == sales;
    }
  }
}
