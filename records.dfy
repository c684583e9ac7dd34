/**
 * The documents the app keeps in its backend collections (`customers`, `inventory`,
 * `orders`, `laundry`, `expenses`, `users`) and the enumerations they share.
 * A field some writers leave out is an `Option`; a timestamp carries its year and
 * month alongside its milliseconds.
 */
module Records {
  import opened Options
  import opened JsNumber

  /** The `payment` strings: five chosen in the order form, `"paid"` written by manual income entries. */
  datatype Payment = Cash | Qris | Transfer | Deposit | Unpaid | Paid

  /** `"Sedang Diproses"`, `"Belum Diambil"`, `"Telah Diambil"`. */
  datatype Status = Processing | AwaitingPickup | PickedUp

  datatype Unit = Kg | Pcs

  /** `Date.getMonth()`: January is 0. */
  type Month = m: int | 0 <= m < 12

  /** A backend timestamp: its epoch milliseconds and the local calendar year and month. */
  datatype Stamp = Stamp(millis: int, year: int, month: Month)

  /** One service line of the order form; weight and price are the raw text inputs. */
  datatype ServiceLine = ServiceLine(service: string, weight: string, price: string, note: string, unit: Unit)

  /** One service line of the older order form, which has no unit. */
  datatype LegacyLine = LegacyLine(service: string, weight: string, price: string, note: string)

  datatype OrderItems = Lines(lines: seq<ServiceLine>) | LegacyLines(legacy: seq<LegacyLine>) | NoItems

  /** A customer; `depositBalance` is `None` when the field is missing and `Some(None)` when it holds NaN. */
  datatype CustomerDoc = CustomerDoc(
    name: string,
    phone: string,
    totalOrders: int,
    ownerId: string,
    isMember: Option<bool>,
    depositBalance: Option<Num>)

  datatype InventoryDoc = InventoryDoc(
    name: string,
    stock: int,
    ownerId: string,
    photoUrl: Option<string>,
    isSellable: bool,
    price: int)

  /** An `orders` document: the union of the fields written by the two order forms, the manual income entry and the status and payment updates. */
  datatype OrderDoc = OrderDoc(
    orderNumber: Option<int>,
    customerId: Option<string>,
    customerName: Option<string>,
    phone: Option<string>,
    inDate: Option<int>,
    outDate: Option<int>,
    items: OrderItems,
    total: Num,
    discount: Option<Num>,
    payment: Option<Payment>,
    status: Option<Status>,
    ownerId: Option<string>,
    createdAt: Option<Stamp>,
    note: Option<string>)

  /** A `laundry` document: one card on the dashboard of open orders. */
  datatype DashboardDoc = DashboardDoc(
    orderNumber: int,
    name: string,
    phone: string,
    items: seq<ServiceLine>,
    status: Status,
    payment: Payment,
    deadline: Option<int>,
    discount: Num,
    ownerId: Option<string>,
    createdAt: Stamp)

  /** An `expenses` document. The report export also reads `category` and `description`, which no screen writes. */
  datatype ExpenseDoc = ExpenseDoc(
    amount: Num,
    note: string,
    date: Option<Stamp>,
    ownerId: string,
    category: Option<string>,
    description: Option<string>)

  /** An order's `+total || 0`: a NaN total counts as 0. */
  function OrderTotal(o: OrderDoc): int {
    OrZero(o.total)
  }

  /** An expense's `+amount || 0`. */
  function ExpenseAmount(e: ExpenseDoc): int {
    OrZero(e.amount)
  }

  datatype UserDoc = UserDoc(uid: string, name: string, email: string, phone: string, createdAt: int)
}
