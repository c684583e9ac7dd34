# Laundry shop app: a verified model

This project models the business logic of a small laundry shop's mobile app, in Dafny. The owner records orders for customers (services priced by weight or piece, and goods sold from the inventory). Orders are paid by cash, QRIS, transfer or a prepaid deposit, or left unpaid. They then follow the status "Sedang Diproses" → "Belum Diambil" → "Telah Diambil" on a dashboard. The owner also keeps customers, inventory, manual income and expense entries, a yearly finance report with a PDF export, a Bluetooth receipt printer and sign-in.

Each screen is a module. A screen whose handlers update state is a class: its fields are the screen's state, and its methods are the handlers. The document store is the class `Backend.Store`, with one map per collection. Every store write is a pure function on a snapshot `Db`, and each handler that writes states its effect as such a function of the old snapshot. Pure computations are functions, and lemmas state the properties the app relies on.

JavaScript numbers are integers in this model, and NaN is modelled as `Num = Option<int>`, with `None` standing for NaN. `+s` and `Number(s)` are `Text.ToNumber`. `parseInt` and `parseFloat` are `Text.ParseIntPrefix`. Both read integer notation only. Timestamps are a `Stamp` carrying milliseconds plus the calendar year and month. The authentication service, the Bluetooth driver, photo upload and the clock are parameters of the methods that use them.

The model follows the code. The dashboard sort puts unpaid cards after paid ones within a status, as the comparator at `HomeScreen.tsx:212-214` does. The order form's save runs its deposit check as written, so a deposit order whose grand total is NaN is saved, and the customer's balance then holds NaN; the check the form evidently intends is defined beside it and its consequence proved (see "## Findings"). A stored deposit balance is therefore a `Num` that a field may also lack. White space, for `trim` and the number parsers, is the ECMAScript set: tab, vertical tab, form feed, the space separators, the byte order mark and the four line terminators.

## Model

| member | source | states |
|---|---|---|
| OrderForm.ServiceSubtotalIsSum | project-rekayasa-perangkat-lunak/Laundry/app/screens/LaundryFormScreen.tsx:339 | the service subtotal is a number exactly when every line's weight × price is, and then equals the sum of those products |
| OrderForm.SellQtyIsSoldQty | project-rekayasa-perangkat-lunak/Laundry/app/screens/LaundryFormScreen.tsx:341-347 | the quantity charged in the goods subtotal (`parseInt(qty \|\| "0") \|\| 0`) is the quantity later deducted from stock (`parseInt(qty) \|\| 0`) |
| OrderForm.GrandTotal | project-rekayasa-perangkat-lunak/Laundry/app/screens/LaundryFormScreen.tsx:350 | the grand total is a number exactly when the service subtotal and the discount are, and is then service subtotal + goods subtotal − discount |
| OrderForm.CeilThousand | project-rekayasa-perangkat-lunak/Laundry/app/screens/LaundryFormScreen.tsx:355 | for a non-negative value: a multiple of 1000, at least the value and less than the value + 1000 |
| OrderForm.CashDisplayTotal | project-rekayasa-perangkat-lunak/Laundry/app/screens/LaundryFormScreen.tsx:352-356 | for cash: the least multiple of 1000 not below max(0, service subtotal − discount); for any other method: that maximum unrounded; goods never enter it |
| OrderForm.RoundDiv100 | project-rekayasa-perangkat-lunak/Laundry/app/screens/LaundryFormScreen.tsx:1152 | `Math.round(p / 100)`: the nearest integer, halves rounded up |
| OrderForm.DiscountFor | project-rekayasa-perangkat-lunak/Laundry/app/screens/LaundryFormScreen.tsx:1149-1154 | nominal: the parsed input, 0 when unparsable; percent: round(service subtotal × value / 100), NaN when the subtotal is NaN |
| OrderForm.Suggestions | project-rekayasa-perangkat-lunak/Laundry/app/screens/LaundryFormScreen.tsx:336-338 | exactly the customers whose phone contains the trimmed phone input, in their original order, each as often as in the list |
| OrderForm.SuggestionsOfBlank | project-rekayasa-perangkat-lunak/Laundry/app/screens/LaundryFormScreen.tsx:336-338 | a blank phone input suggests every customer |
| OrderForm.ChoiceSettlesPrompt | project-rekayasa-perangkat-lunak/Laundry/app/screens/LaundryFormScreen.tsx:375-389 | either answer of the under-3 kg prompt ("per pcs" or "3 kg") leaves a line that no longer triggers the prompt |
| OrderForm.CommaWeightPassesDepositGuard | project-rekayasa-perangkat-lunak/Laundry/app/screens/LaundryFormScreen.tsx:406 | as written, a weight of "2,5" makes the grand total NaN and the deposit check lets the order through for any balance |
| OrderForm.DepositCoversLeavesBalance | project-rekayasa-perangkat-lunak/Laundry/app/screens/LaundryFormScreen.tsx:406 | the intended deposit check (balance covers a numeric grand total) leaves a non-negative balance and implies the written check |
| OrderForm.SaveGuard | project-rekayasa-perangkat-lunak/Laundry/app/screens/LaundryFormScreen.tsx:402-408 | the save guards in order: no customer, then no or zero order id, then, for deposit, a balance (missing as 0) below the grand total, a comparison that is false when either is NaN; none of them exactly when the save goes ahead |
| OrderForm.SoldSales | project-rekayasa-perangkat-lunak/Laundry/app/screens/LaundryFormScreen.tsx:461-463 | every sale has a positive quantity |
| OrderForm.SoldUnderItem | project-rekayasa-perangkat-lunak/Laundry/app/screens/LaundryFormScreen.tsx:461-471 | with distinct item ids, the stock deducted under an item's id is its parsed quantity when positive, else nothing |
| OrderForm.SoldSalesStep | project-rekayasa-perangkat-lunak/Laundry/app/screens/LaundryFormScreen.tsx:461-463 | one more item adds its positive quantity under its own id and nothing under any other id |
| OrderForm.SoldUnderNone | project-rekayasa-perangkat-lunak/Laundry/app/screens/LaundryFormScreen.tsx:461-471 | an id no item carries has nothing deducted under it |
| OrderForm.ChargeCustomer | project-rekayasa-perangkat-lunak/Laundry/app/screens/LaundryFormScreen.tsx:449-457 | the customer's two updates succeed exactly when the customer exists; then only that customer changes, its order count up by one and, with a debit, its balance (missing as 0) down by the debit, NaN when either is NaN; a failure changes nothing |
| OrderForm.ChargeCustomerIn | project-rekayasa-perangkat-lunak/Laundry/app/screens/LaundryFormScreen.tsx:449-457 | the store after the two customer updates, and their success, are those of the pure update |
| OrderForm.DocumentWrites | project-rekayasa-perangkat-lunak/Laundry/app/screens/LaundryFormScreen.tsx:413-446 | the order and its dashboard card are written under the order id and nothing else changes |
| OrderForm.SaveWritesOk | project-rekayasa-perangkat-lunak/Laundry/app/screens/LaundryFormScreen.tsx:409-471 | a save succeeds exactly when the customer and every sold item exist, whether or not the grand total is NaN |
| OrderForm.SaveWritesDocuments | project-rekayasa-perangkat-lunak/Laundry/app/screens/LaundryFormScreen.tsx:413-446 | whatever else happens, the order (total = unrounded grand total, NaN included) and the dashboard card are stored under the order id; expenses and users are untouched |
| OrderForm.SaveWritesCustomer | project-rekayasa-perangkat-lunak/Laundry/app/screens/LaundryFormScreen.tsx:449-457 | after a successful save only the ordering customer has changed: its order count is up by one and, for deposit only, its balance is the old one (missing as 0) minus the grand total, NaN when either is NaN |
| OrderForm.SaveWritesStock | project-rekayasa-perangkat-lunak/Laundry/app/screens/LaundryFormScreen.tsx:465-471 | after a successful save each sold item's stock is lower by its positive quantity, for every payment method and total |
| OrderForm.SaveWritesStockOthers | project-rekayasa-perangkat-lunak/Laundry/app/screens/LaundryFormScreen.tsx:461-471 | whether or not a save succeeds, the inventory keeps its ids and an item no sellable row names keeps its record |
| OrderForm.SaveWritesDepositNonNegative | project-rekayasa-perangkat-lunak/Laundry/app/screens/LaundryFormScreen.tsx:454-457 | a deposit save that passed the intended check leaves the stored balance non-negative |
| OrderForm.NaNDepositSaveStoresNaN | project-rekayasa-perangkat-lunak/Laundry/app/screens/LaundryFormScreen.tsx:406-457 | a deposit order with a NaN grand total passes the check as written; the order is stored with a NaN total and a completed save leaves the customer's balance NaN |
| OrderForm.PersistOrder | project-rekayasa-perangkat-lunak/Laundry/app/screens/LaundryFormScreen.tsx:409-471 | for every draft, NaN totals included, the store after the write sequence and its success flag are those of the save writes, stopping at the first failed update |
| OrderForm.LaundryForm.constructor | project-rekayasa-perangkat-lunak/Laundry/app/screens/LaundryFormScreen.tsx:236-265 | the initial form: step 0, no id, no customer, one empty kg line, unpaid, nominal discount "0" and amount 0 |
| OrderForm.LaundryForm.LoadCustomers | project-rekayasa-perangkat-lunak/Laundry/app/screens/LaundryFormScreen.tsx:270-289 | the customer list mirrors the snapshot, member flag defaulting to false and a missing balance to 0 (a stored NaN stays NaN) |
| OrderForm.LaundryForm.LoadSellList | project-rekayasa-perangkat-lunak/Laundry/app/screens/LaundryFormScreen.tsx:291-313 | the sell list mirrors the sellable inventory snapshot, each with quantity "0" |
| OrderForm.LaundryForm.TypePhone | project-rekayasa-perangkat-lunak/Laundry/app/screens/LaundryFormScreen.tsx:596-598 | typing sets the phone text and drops the chosen customer |
| OrderForm.LaundryForm.PickCustomer | project-rekayasa-perangkat-lunak/Laundry/app/screens/LaundryFormScreen.tsx:612-614 | choosing a suggestion selects it and fills in its phone |
| OrderForm.LaundryForm.PickDate | project-rekayasa-perangkat-lunak/Laundry/app/screens/LaundryFormScreen.tsx:395-398 | the confirmed date goes to the pick-in or pick-up date, the other is unchanged |
| OrderForm.LaundryForm.ChoosePay | project-rekayasa-perangkat-lunak/Laundry/app/screens/LaundryFormScreen.tsx:894 | the payment method becomes the one tapped |
| OrderForm.LaundryForm.EditDiscount | project-rekayasa-perangkat-lunak/Laundry/app/screens/LaundryFormScreen.tsx:1108-1132 | the discount dialog sets the discount type and the typed input |
| OrderForm.LaundryForm.AddService | project-rekayasa-perangkat-lunak/Laundry/app/screens/LaundryFormScreen.tsx:359-363 | one empty kg line is appended, the others unchanged |
| OrderForm.LaundryForm.UpdateItem | project-rekayasa-perangkat-lunak/Laundry/app/screens/LaundryFormScreen.tsx:365-373 | only the named field of the line at the index changes |
| OrderForm.LaundryForm.ChooseWeightOption | project-rekayasa-perangkat-lunak/Laundry/app/screens/LaundryFormScreen.tsx:375-389 | the chosen prompt answer edits that line, which then no longer needs the prompt |
| OrderForm.LaundryForm.SetSellQty | project-rekayasa-perangkat-lunak/Laundry/app/screens/LaundryFormScreen.tsx:790-793 | the goods quantity keeps only the digits typed; other items unchanged |
| OrderForm.LaundryForm.ConfirmDiscount | project-rekayasa-perangkat-lunak/Laundry/app/screens/LaundryFormScreen.tsx:1148-1155 | the discount amount becomes the value computed from the type, the input and the service subtotal |
| OrderForm.LaundryForm.GoToStep | project-rekayasa-perangkat-lunak/Laundry/app/screens/LaundryFormScreen.tsx:331-333 | moving to a step; reaching the review step without an id stamps one from the clock |
| OrderForm.LaundryForm.SaveOrder | project-rekayasa-perangkat-lunak/Laundry/app/screens/LaundryFormScreen.tsx:401-489 | a failing guard (the deposit check as written) writes nothing and changes nothing; otherwise the store holds the save writes, the outcome says whether they all succeeded, a success resets the form and a failure leaves it as it was |
| OrderForm.LaundryForm.Reset | project-rekayasa-perangkat-lunak/Laundry/app/screens/LaundryFormScreen.tsx:475-485 | the reset after a save: step 0, no id, customer, phone or dates, one empty line, unpaid, discount 0 and "0"; customers, goods list and discount type are kept |
| LegacyForm.OrZeroText | project-rekayasa-perangkat-lunak/Laundry/app/screens/laundry2112.tsx:101 | `s \|\| "0"` is never empty and keeps a non-empty text |
| LegacyForm.TotalIsSum | project-rekayasa-perangkat-lunak/Laundry/app/screens/laundry2112.tsx:100-103 | the total is a number exactly when every line's price × weight is, and then equals their sum |
| LegacyForm.LineAmountOfNumbers | project-rekayasa-perangkat-lunak/Laundry/app/screens/laundry2112.tsx:101 | a line with numeric price p and weight w contributes p × w; an empty price or weight contributes 0 |
| LegacyForm.Suggestions | project-rekayasa-perangkat-lunak/Laundry/app/screens/laundry2112.tsx:97 | exactly the customers whose phone contains the trimmed phone input, in their original order, each as often as in the list |
| LegacyForm.Edited | project-rekayasa-perangkat-lunak/Laundry/app/screens/laundry2112.tsx:108-112 | the edited field takes the new value, every other field keeps its old one |
| LegacyForm.SaveGuard | project-rekayasa-perangkat-lunak/Laundry/app/screens/laundry2112.tsx:129-130 | no customer, then no or zero order id; none of them exactly when the save goes ahead |
| LegacyForm.SaveWritesEffect | project-rekayasa-perangkat-lunak/Laundry/app/screens/laundry2112.tsx:132-147 | the order is written with the price × weight total and no discount, no dashboard card or stock change; the customer update succeeds exactly when the customer exists and then adds 1 to its order count |
| LegacyForm.PersistOrder | project-rekayasa-perangkat-lunak/Laundry/app/screens/laundry2112.tsx:131-147 | the store after the two writes, and the success flag, are those of the save writes |
| LegacyForm.LegacyOrderForm.constructor | project-rekayasa-perangkat-lunak/Laundry/app/screens/laundry2112.tsx:45-67 | the initial form: step 0, no id, no customer, one empty line, QRIS |
| LegacyForm.LegacyOrderForm.LoadCustomers | project-rekayasa-perangkat-lunak/Laundry/app/screens/laundry2112.tsx:70-77 | the customer list mirrors the snapshot |
| LegacyForm.LegacyOrderForm.TypePhone | project-rekayasa-perangkat-lunak/Laundry/app/screens/laundry2112.tsx:205-206 | typing sets the phone text and drops the chosen customer |
| LegacyForm.LegacyOrderForm.PickCustomer | project-rekayasa-perangkat-lunak/Laundry/app/screens/laundry2112.tsx:218-219 | choosing a suggestion selects it and fills in its phone |
| LegacyForm.LegacyOrderForm.PickDate | project-rekayasa-perangkat-lunak/Laundry/app/screens/laundry2112.tsx:117-120 | the confirmed date goes to the pick-in or pick-up date, the other is unchanged |
| LegacyForm.LegacyOrderForm.ChoosePay | project-rekayasa-perangkat-lunak/Laundry/app/screens/laundry2112.tsx:361 | the payment method becomes the one tapped |
| LegacyForm.LegacyOrderForm.AddService | project-rekayasa-perangkat-lunak/Laundry/app/screens/laundry2112.tsx:105-106 | one empty line is appended |
| LegacyForm.LegacyOrderForm.UpdateItem | project-rekayasa-perangkat-lunak/Laundry/app/screens/laundry2112.tsx:108-112 | only the named field of the line at the index changes |
| LegacyForm.LegacyOrderForm.GoToStep | project-rekayasa-perangkat-lunak/Laundry/app/screens/laundry2112.tsx:123-125 | moving to a step; reaching the review step without an id stamps one from the clock |
| LegacyForm.LegacyOrderForm.Reset | project-rekayasa-perangkat-lunak/Laundry/app/screens/laundry2112.tsx:150-157 | the reset after a save: step 0, no id, customer, phone or dates, one empty line; customers and payment kept |
| LegacyForm.LegacyOrderForm.SaveOrder | project-rekayasa-perangkat-lunak/Laundry/app/screens/laundry2112.tsx:128-161 | a failing guard changes nothing; otherwise the store holds the save writes, a success resets the form and a failure leaves it unchanged |
| Dashboard.CompareIsKeyOrder | project-rekayasa-perangkat-lunak/Laundry/app/screens/HomeScreen.tsx:210-216 | the comparator is antisymmetric and is ≤ 0 exactly when the status rank, then paid-before-unpaid, then the order number are in ascending order |
| Dashboard.KeyLeqIsTotalPreorder | project-rekayasa-perangkat-lunak/Laundry/app/screens/HomeScreen.tsx:210-216 | that key order is total and transitive, so sorting by it is well defined |
| Dashboard.SortedList | project-rekayasa-perangkat-lunak/Laundry/app/screens/HomeScreen.tsx:207-217 | the dashboard list is a permutation of the snapshot, ordered by the comparator's key |
| Dashboard.UnpaidLastWithinStatus | project-rekayasa-perangkat-lunak/Laundry/app/screens/HomeScreen.tsx:212-214 | within one status, no unpaid card comes before a paid one |
| Dashboard.Shown | project-rekayasa-perangkat-lunak/Laundry/app/screens/HomeScreen.tsx:338-352 | exactly the cards that pass the status filter and the trimmed, lower-cased search on name or order number, in list order, each as often as in the list |
| Dashboard.SearchKeyEmpty | project-rekayasa-perangkat-lunak/Laundry/app/screens/HomeScreen.tsx:345 | the search key is empty exactly when the search text is blank |
| Dashboard.ShownAllBlank | project-rekayasa-perangkat-lunak/Laundry/app/screens/HomeScreen.tsx:338-352 | with "Semua" and a blank search every card is shown, in order |
| Dashboard.ShownByFilterBlank | project-rekayasa-perangkat-lunak/Laundry/app/screens/HomeScreen.tsx:339-344 | with a blank search, "Belum Bayar" shows exactly the unpaid cards and a status filter exactly the cards of that status |
| Dashboard.CountdownOf | project-rekayasa-perangkat-lunak/Laundry/app/screens/HomeScreen.tsx:361-368 | late exactly when the deadline has passed; days·86400 + h·3600 + m·60 + s is the absolute whole-second difference, with h < 24 and m, s < 60 |
| Dashboard.ClockText | project-rekayasa-perangkat-lunak/Laundry/app/screens/HomeScreen.tsx:369-371 | eight characters HH:MM:SS whose digit fields read back as the hours, minutes and seconds |
| Dashboard.CountdownText | project-rekayasa-perangkat-lunak/Laundry/app/screens/HomeScreen.tsx:359-372 | empty exactly when there is no deadline; otherwise it starts with "-" exactly when late, then digits reading back as the days, "d ", and the clock text last |
| Dashboard.ChangeStatusNoop | project-rekayasa-perangkat-lunak/Laundry/app/screens/HomeScreen.tsx:285-290 | cancelling, choosing the current status, or an order that does not exist leaves the store unchanged |
| Dashboard.ChangeStatusOrder | project-rekayasa-perangkat-lunak/Laundry/app/screens/HomeScreen.tsx:290 | a new status is written to the order; customers, inventory and expenses untouched |
| Dashboard.ChangeStatusCard | project-rekayasa-perangkat-lunak/Laundry/app/screens/HomeScreen.tsx:291-292 | "Telah Diambil" deletes the dashboard card; another status updates the card when it exists |
| Dashboard.PaymentWritesEffect | project-rekayasa-perangkat-lunak/Laundry/app/screens/HomeScreen.tsx:307-309 | the chosen method is written to the card and then to the order if it exists, else the orders stay; with no card nothing changes; customers, inventory, expenses, users and names never change |
| Dashboard.DailyIncomeStep | project-rekayasa-perangkat-lunak/Laundry/app/screens/HomeScreen.tsx:235-256 | one more order adds its total (NaN as 0) exactly when it is the owner's, created today and paid by cash, QRIS or transfer; deposit, unpaid and "paid" orders add nothing |
| Dashboard.FinanceLoader.constructor | project-rekayasa-perangkat-lunak/Laundry/app/screens/HomeScreen.tsx:189-192 | both totals 0, loading, neither snapshot received |
| Dashboard.FinanceLoader.OnIncomeSnapshot | project-rekayasa-perangkat-lunak/Laundry/app/screens/HomeScreen.tsx:255-259 | income becomes the day's income, loading ends only once both snapshots arrived, balance = income − expense |
| Dashboard.FinanceLoader.OnExpenseSnapshot | project-rekayasa-perangkat-lunak/Laundry/app/screens/HomeScreen.tsx:260-264 | expense becomes the day's expense, loading ends only once both snapshots arrived, balance = income − expense |
| Dashboard.HomeScreen.constructor | project-rekayasa-perangkat-lunak/Laundry/app/screens/HomeScreen.tsx:180-197 | empty list, filter "Semua", empty search, no payment sheet |
| Dashboard.HomeScreen.OnSnapshot | project-rekayasa-perangkat-lunak/Laundry/app/screens/HomeScreen.tsx:207-218 | the list becomes the sorted snapshot |
| Dashboard.HomeScreen.SetSearch | project-rekayasa-perangkat-lunak/Laundry/app/screens/HomeScreen.tsx:435 | the search text becomes what was typed |
| Dashboard.HomeScreen.ChooseFilter | project-rekayasa-perangkat-lunak/Laundry/app/screens/HomeScreen.tsx:319-335 | a listed option becomes the filter; "Batal" keeps the old one |
| Dashboard.HomeScreen.ChangeStatus | project-rekayasa-perangkat-lunak/Laundry/app/screens/HomeScreen.tsx:275-298 | the store after a status choice is the status-change writes |
| Dashboard.HomeScreen.OpenPaymentModal | project-rekayasa-perangkat-lunak/Laundry/app/screens/HomeScreen.tsx:301-304 | the card becomes active and the payment sheet opens |
| Dashboard.HomeScreen.DismissPaymentModal | project-rekayasa-perangkat-lunak/Laundry/app/screens/HomeScreen.tsx:452-456 | the payment sheet closes |
| Dashboard.HomeScreen.SelectPaymentMethod | project-rekayasa-perangkat-lunak/Laundry/app/screens/HomeScreen.tsx:305-316 | with no active card nothing happens; otherwise the payment writes are applied and the sheet closes with no active card |
| Reports.IncomeStep | project-rekayasa-perangkat-lunak/Laundry/app/screens/ReportsScreen.tsx:556-562 | one more order adds its total (NaN as 0) exactly when it is not unpaid, has a creation time and falls in the period |
| Reports.ExpenseStep | project-rekayasa-perangkat-lunak/Laundry/app/screens/ReportsScreen.tsx:563-569 | one more expense adds its amount (NaN as 0) exactly when it has a date in the period |
| Reports.SumIncome | project-rekayasa-perangkat-lunak/Laundry/app/screens/ReportsScreen.tsx:556-562 | the order loop computes the period's income |
| Reports.SumExpense | project-rekayasa-perangkat-lunak/Laundry/app/screens/ReportsScreen.tsx:563-569 | the expense loop computes the period's expense |
| Reports.Filtered | project-rekayasa-perangkat-lunak/Laundry/app/screens/ReportsScreen.tsx:554-571 | the two loops compute the period's income and expense, and profit = income − expense |
| Reports.ChartData | project-rekayasa-perangkat-lunak/Laundry/app/screens/ReportsScreen.tsx:573-580 | twelve buckets, bucket m being the income of month m of the year |
| Reports.BucketStep | project-rekayasa-perangkat-lunak/Laundry/app/screens/ReportsScreen.tsx:575-580 | one order adds its total to the bucket of its month and to no other |
| Reports.ChartSumsToYear | project-rekayasa-perangkat-lunak/Laundry/app/screens/ReportsScreen.tsx:573-580 | the twelve buckets add up to the year's income as the summary boxes report it |
| Reports.TransactionGuard | project-rekayasa-perangkat-lunak/Laundry/app/screens/ReportsScreen.tsx:592-595 | a zero or non-numeric amount or a blank note is refused first, then a missing user; a save has a non-zero numeric amount |
| Reports.IncomeEntryCounts | project-rekayasa-perangkat-lunak/Laundry/app/screens/ReportsScreen.tsx:605-611 | a manual income entry raises the income of its month and of its year by its amount |
| Reports.ExpenseEntryCounts | project-rekayasa-perangkat-lunak/Laundry/app/screens/ReportsScreen.tsx:598-603 | a manual expense entry raises the expense of its month and of its year by its amount |
| Reports.ReportsScreen.constructor | project-rekayasa-perangkat-lunak/Laundry/app/screens/ReportsScreen.tsx:531-538 | current year, all months, expense dialog closed and empty |
| Reports.ReportsScreen.TypeYear | project-rekayasa-perangkat-lunak/Laundry/app/screens/ReportsScreen.tsx:632 | the year becomes the parsed input, or the current year when that is unparsable or 0 |
| Reports.ReportsScreen.SelectAllMonths | project-rekayasa-perangkat-lunak/Laundry/app/screens/ReportsScreen.tsx:642 | "Semua" clears the month |
| Reports.ReportsScreen.TapMonth | project-rekayasa-perangkat-lunak/Laundry/app/screens/ReportsScreen.tsx:650 | tapping the selected month clears it, another month selects it |
| Reports.ReportsScreen.OpenEntry | project-rekayasa-perangkat-lunak/Laundry/app/screens/ReportsScreen.tsx:676 | the dialog opens for the chosen kind of entry |
| Reports.ReportsScreen.CancelEntry | project-rekayasa-perangkat-lunak/Laundry/app/screens/ReportsScreen.tsx:749 | the dialog closes |
| Reports.ReportsScreen.SaveTransaction | project-rekayasa-perangkat-lunak/Laundry/app/screens/ReportsScreen.tsx:591-617 | a refused entry changes nothing; a save writes the income or expense record with the trimmed note, clears the fields and closes the dialog |
| PdfReport.IncomeItems | project-rekayasa-perangkat-lunak/Laundry/app/utils/pdfReport.ts:33-40 | exactly the orders with a creation time in the period and payment "paid", in order, each as often as in the list |
| PdfReport.ExpenseItems | project-rekayasa-perangkat-lunak/Laundry/app/utils/pdfReport.ts:43-50 | exactly the expenses dated in the period, in order, each as often as in the list |
| PdfReport.Totals | project-rekayasa-perangkat-lunak/Laundry/app/utils/pdfReport.ts:53-55 | profit = income − expense |
| PdfReport.TotalsAgainstScreen | project-rekayasa-perangkat-lunak/Laundry/app/utils/pdfReport.ts:53-55 | the export's expense equals the report screen's; the screen's income is the export's plus the orders paid by cash, QRIS, transfer or deposit |
| PdfReport.TextOrDash | project-rekayasa-perangkat-lunak/Laundry/app/utils/pdfReport.ts:82-83 | `value \|\| "-"`: never empty, and a non-empty value shows as itself |
| PdfReport.OrderNoText | project-rekayasa-perangkat-lunak/Laundry/app/utils/pdfReport.ts:66 | a dash exactly when the order number is missing or 0; otherwise text that reads back as the number |
| PdfReport.IncomeRows | project-rekayasa-perangkat-lunak/Laundry/app/utils/pdfReport.ts:58-71 | one row per income item, in order, numbered from 1 |
| PdfReport.ExpenseRows | project-rekayasa-perangkat-lunak/Laundry/app/utils/pdfReport.ts:74-87 | one row per expense item, in order, numbered from 1 |
| PdfReport.IncomeTable | project-rekayasa-perangkat-lunak/Laundry/app/utils/pdfReport.ts:129-131 | the placeholder row exactly when there is no income item |
| PdfReport.ExpenseTable | project-rekayasa-perangkat-lunak/Laundry/app/utils/pdfReport.ts:144-146 | the placeholder row exactly when there is no expense item |
| PdfReport.IncomeRowsSum | project-rekayasa-perangkat-lunak/Laundry/app/utils/pdfReport.ts:53-68 | the totals column of the income table adds up to the summary's income |
| PdfReport.IncomeItemsAreManual | project-rekayasa-perangkat-lunak/Laundry/app/utils/pdfReport.ts:34 | only "paid" orders are income items; cash, QRIS, transfer and deposit orders never are |
| PdfReport.ManualEntryIsIncomeItem | project-rekayasa-perangkat-lunak/Laundry/app/utils/pdfReport.ts:33-40 | a manual income entry is an income item of its month and of its year |
| CustomerList.Search | project-rekayasa-perangkat-lunak/Laundry/app/screens/customer/index.tsx:53-61 | exactly the customers whose lower-cased name contains the lower-cased search or whose phone contains the search, in order, each as often as in the list |
| CustomerList.SearchEmpty | project-rekayasa-perangkat-lunak/Laundry/app/screens/customer/index.tsx:53-61 | an empty search lists every customer |
| CustomerList.SearchIdempotent | project-rekayasa-perangkat-lunak/Laundry/app/screens/customer/index.tsx:53-61 | searching the result again changes nothing |
| CustomerList.SearchNameIgnoresCase | project-rekayasa-perangkat-lunak/Laundry/app/screens/customer/index.tsx:57 | a name match does not depend on the case of the search |
| CustomerAdd.AddGuard | project-rekayasa-perangkat-lunak/Laundry/app/screens/customer/add.tsx:15-23 | a blank name or phone is refused first, then a missing user; otherwise the customer is added |
| CustomerAdd.NewCustomer | project-rekayasa-perangkat-lunak/Laundry/app/screens/customer/add.tsx:26-34 | trimmed name and phone, the owner, 0 orders, not a member, balance 0 |
| CustomerAdd.NewCustomerShape | project-rekayasa-perangkat-lunak/Laundry/app/screens/customer/add.tsx:15-34 | an accepted customer has a non-empty name and phone and a zero balance |
| CustomerAdd.CustomerAddForm.constructor | project-rekayasa-perangkat-lunak/Laundry/app/screens/customer/add.tsx:9-11 | empty fields, not loading |
| CustomerAdd.CustomerAddForm.Save | project-rekayasa-perangkat-lunak/Laundry/app/screens/customer/add.tsx:14-41 | a refused save writes nothing; an accepted one adds exactly the new customer; loading ends |
| CustomerDetail.History | project-rekayasa-perangkat-lunak/Laundry/app/screens/customer/detail.tsx:83-93 | exactly the orders of this customer and owner, as a permutation of them, by descending order number |
| CustomerDetail.Credited | project-rekayasa-perangkat-lunak/Laundry/app/screens/customer/detail.tsx:115-122 | the shown customer becomes a member with balance old + amount, where a missing, zero or NaN balance counts as 0; its other fields stay |
| CustomerDetail.TopUpEffect | project-rekayasa-perangkat-lunak/Laundry/app/screens/customer/detail.tsx:111-114 | a top-up adds the amount to the stored balance (missing as 0, NaN staying NaN) and sets membership, leaving the customer's other fields, the other customers and the orders unchanged |
| CustomerDetail.CreditedMatchesStore | project-rekayasa-perangkat-lunak/Laundry/app/screens/customer/detail.tsx:111-122 | the customer shown after a top-up is the one stored, exactly when the stored balance was not NaN |
| CustomerDetail.CustomerDetailScreen.constructor | project-rekayasa-perangkat-lunak/Laundry/app/screens/customer/detail.tsx:50-57 | no customer, no history, loading, no dialog |
| CustomerDetail.CustomerDetailScreen.OnHistory | project-rekayasa-perangkat-lunak/Laundry/app/screens/customer/detail.tsx:88-99 | the history becomes the filtered, sorted orders and loading ends |
| CustomerDetail.CustomerDetailScreen.HandleTopUp | project-rekayasa-perangkat-lunak/Laundry/app/screens/customer/detail.tsx:104-130 | an amount that is not a positive integer is refused and nothing changes; otherwise the deposit increment is applied, and on success the shown customer is credited and the dialog cleared and closed |
| InventoryAdd.AddGuard | project-rekayasa-perangkat-lunak/Laundry/app/screens/inventory/add.tsx:44-61 | each refusal exactly when every earlier check passed and its own fails, in order: blank name or stock, stock not a non-negative integer, sellable without a numeric price, no user; accepted exactly when all pass |
| InventoryAdd.NewItem | project-rekayasa-perangkat-lunak/Laundry/app/screens/inventory/add.tsx:74-82 | trimmed name, parsed non-negative stock, the owner, the photo URL only when uploaded, the price for sellable items and 0 otherwise |
| InventoryAdd.InventoryAddForm.constructor | project-rekayasa-perangkat-lunak/Laundry/app/screens/inventory/add.tsx:22-27 | empty fields, not sellable, not loading |
| InventoryAdd.InventoryAddForm.Add | project-rekayasa-perangkat-lunak/Laundry/app/screens/inventory/add.tsx:43-91 | the result is the first failed check, else `UploadError` exactly for a failed photo, else `Accepted`; a refusal or failed upload writes nothing; an accepted item is added exactly as built; loading ends |
| Receipt.Safe | project-rekayasa-perangkat-lunak/Laundry/app/screens/setting/SamplePrint.tsx:7-8 | undefined and null print as "-", a string as itself, a number as text reading back as that number, NaN as "NaN", a boolean as "true"/"false"; "-" only for undefined, null or the string "-" |
| Receipt.ToNumNaNIsZero | project-rekayasa-perangkat-lunak/Laundry/app/screens/setting/SamplePrint.tsx:19-22 | undefined, null, NaN and unparsable text all read as 0 |
| Receipt.FormatDate | project-rekayasa-perangkat-lunak/Laundry/app/screens/setting/SamplePrint.tsx:10-17 | a falsy value prints as "-", otherwise as a date |
| Receipt.LayoutsFitRule | project-rekayasa-perangkat-lunak/Laundry/app/screens/setting/SamplePrint.tsx:34-39 | the item, header and total column widths each add up to the 32-character separator |
| Receipt.HeaderRows | project-rekayasa-perangkat-lunak/Laundry/app/screens/setting/SamplePrint.tsx:49-56 | one row per header field, in order |
| Receipt.ItemCommands | project-rekayasa-perangkat-lunak/Laundry/app/screens/setting/SamplePrint.tsx:62-76 | an item prints its row, followed by a note line exactly when the note is truthy |
| Receipt.PrintHeaderRows | project-rekayasa-perangkat-lunak/Laundry/app/screens/setting/SamplePrint.tsx:49-56 | the header loop emits the header rows |
| Receipt.PrintItemLines | project-rekayasa-perangkat-lunak/Laundry/app/screens/setting/SamplePrint.tsx:62-76 | the item loop emits the item commands of every item in order |
| Receipt.PrintReceipt | project-rekayasa-perangkat-lunak/Laundry/app/screens/setting/SamplePrint.tsx:27-102 | the commands sent are exactly the receipt: preamble, the header rows, the items, and the closing rows; none on iOS |
| Receipt.PrintOwnerReceipt | project-rekayasa-perangkat-lunak/Laundry/app/screens/setting/SamplePrint.tsx:105-108 | the owner receipt is the same command sequence as the customer receipt |
| Receipt.ItemRowsInOrder | project-rekayasa-perangkat-lunak/Laundry/app/screens/setting/SamplePrint.tsx:62-76 | the rows among the item commands are one row per item, in item order |
| Receipt.ItemCommandsRows | project-rekayasa-perangkat-lunak/Laundry/app/screens/setting/SamplePrint.tsx:63-75 | among an item's commands only its item row is a column row; the note line is not |
| Receipt.NoItemsNoLines | project-rekayasa-perangkat-lunak/Laundry/app/screens/setting/SamplePrint.tsx:62 | absent items print no item lines |
| Receipt.ReceiptHead | project-rekayasa-perangkat-lunak/Laundry/app/screens/setting/SamplePrint.tsx:36-56 | the preamble, then the five header rows in their fixed order |
| Receipt.ReceiptEnd | project-rekayasa-perangkat-lunak/Laundry/app/screens/setting/SamplePrint.tsx:78-98 | the receipt ends with total, payment and thanks, preceded by the discount row exactly when the discount is positive |
| Receipt.HeaderLabels | project-rekayasa-perangkat-lunak/Laundry/app/screens/setting/SamplePrint.tsx:42-48 | the five labels Order ID, Customer, No.Telp, Tgl Masuk, Tgl Keluar in that order |
| Printer.WithFound | project-rekayasa-perangkat-lunak/Laundry/app/screens/setting/printer.tsx:74-80 | a found device is appended exactly when no listed device has its address |
| Printer.WithFoundKeepsUnique | project-rekayasa-perangkat-lunak/Laundry/app/screens/setting/printer.tsx:74-80 | appending keeps addresses unique, lists the address afterwards and drops nothing |
| Printer.FoundAfter | project-rekayasa-perangkat-lunak/Laundry/app/screens/setting/printer.tsx:66-83 | found events from an empty list never list an address twice |
| Printer.WithPaired | project-rekayasa-perangkat-lunak/Laundry/app/screens/setting/printer.tsx:45-62 | a non-empty payload fills the paired list only when it is empty; otherwise the list is unchanged |
| Printer.WithPairedOnce | project-rekayasa-perangkat-lunak/Laundry/app/screens/setting/printer.tsx:55-60 | once filled, the paired list ignores later payloads |
| Printer.WithScan | project-rekayasa-perangkat-lunak/Laundry/app/screens/setting/printer.tsx:89-95 | a non-empty scan result replaces the found list; an empty or unparsable one keeps it |
| Printer.BoundName | project-rekayasa-perangkat-lunak/Laundry/app/screens/setting/printer.tsx:145 | `name \|\| "UNKNOWN"`: never empty |
| Printer.AtMostOneConnected | project-rekayasa-perangkat-lunak/Laundry/app/screens/setting/printer.tsx:318-327 | with unique paired addresses at most one paired row shows as connected |
| Printer.PrinterScreen.constructor | project-rekayasa-perangkat-lunak/Laundry/app/screens/setting/printer.tsx:38-43 | empty lists, nothing bound, loading |
| Printer.PrinterScreen.DeviceFound | project-rekayasa-perangkat-lunak/Laundry/app/screens/setting/printer.tsx:66-83 | the found list is updated as above, uniqueness kept; nothing else changes |
| Printer.PrinterScreen.DeviceAlreadyPaired | project-rekayasa-perangkat-lunak/Laundry/app/screens/setting/printer.tsx:45-64 | the paired list is updated as above; nothing else changes |
| Printer.PrinterScreen.ScanFinished | project-rekayasa-perangkat-lunak/Laundry/app/screens/setting/printer.tsx:85-101 | the found list is updated from a resolved scan; loading ends either way |
| Printer.PrinterScreen.Connect | project-rekayasa-perangkat-lunak/Laundry/app/screens/setting/printer.tsx:139-152 | a successful connect binds the address and the name or "UNKNOWN"; a failure leaves both; loading ends |
| Printer.PrinterScreen.Unpair | project-rekayasa-perangkat-lunak/Laundry/app/screens/setting/printer.tsx:154-167 | a successful unpair clears the bound address and name; a failure leaves both; loading ends |
| Printer.PrinterScreen.ConnectionLost | project-rekayasa-perangkat-lunak/Laundry/app/screens/setting/printer.tsx:209-213 | the bound address and name are cleared |
| Printer.PrinterScreen.BluetoothState | project-rekayasa-perangkat-lunak/Laundry/app/screens/setting/printer.tsx:190-193 | the Bluetooth flag is set and loading ends |
| Printer.PrinterScreen.ConnectedFlags | project-rekayasa-perangkat-lunak/Laundry/app/screens/setting/printer.tsx:318-327 | a paired row shows as connected exactly when its address is the bound one |
| Auth.LoginErrorMessage | project-rekayasa-perangkat-lunak/Laundry/app/auth/LoginScreen.tsx:30-49 | the four credential codes share one message; a non-service error gets the "unexpected" message; exactly the unlisted codes get the generic one |
| Auth.LoginMessagesDistinct | project-rekayasa-perangkat-lunak/Laundry/app/auth/LoginScreen.tsx:33-43 | invalid email, disabled account, no connection and wrong credentials get four different messages |
| Auth.SignupErrorMessage | project-rekayasa-perangkat-lunak/Laundry/app/auth/SignupScreen.tsx:36-52 | a non-service error gets the "unexpected" message; exactly the codes other than the four listed get the generic one |
| Auth.SignupMessagesDistinct | project-rekayasa-perangkat-lunak/Laundry/app/auth/SignupScreen.tsx:36-52 | the four listed sign-up codes get four different messages, none of them the generic or the unexpected one |
| Auth.SharedMessages | project-rekayasa-perangkat-lunak/Laundry/app/auth/SignupScreen.tsx:36-52 | sign-in and sign-up word an invalid email, a lost connection, other codes and other errors alike |
| Auth.LoginOutcome | project-rekayasa-perangkat-lunak/Laundry/app/auth/LoginScreen.tsx:51-64 | an empty email or password sends nothing; otherwise the trimmed email and the raw password are sent; the tabs open exactly when the service accepts, and an alert shows exactly otherwise |
| Auth.LoginRejected | project-rekayasa-perangkat-lunak/Laundry/app/auth/LoginScreen.tsx:56-60 | a rejected sign-in alerts the reason for its error, sent the trimmed email and the raw password, and stays on the sign-in screen |
| Auth.LoginScreen.constructor | project-rekayasa-perangkat-lunak/Laundry/app/auth/LoginScreen.tsx:26-28 | empty fields, not loading |
| Auth.LoginScreen.HandleLogin | project-rekayasa-perangkat-lunak/Laundry/app/auth/LoginScreen.tsx:51-64 | the outcome is the sign-in outcome and loading is off after any attempt |
| Auth.SignupWritesEffect | project-rekayasa-perangkat-lunak/Laundry/app/auth/SignupScreen.tsx:65-73 | after sign-up the profile under the uid holds uid, name, phone and the email as typed, the display name is set, and nothing else changes |
| Auth.SignupScreen.constructor | project-rekayasa-perangkat-lunak/Laundry/app/auth/SignupScreen.tsx:30-34 | empty fields, not loading |
| Auth.SignupScreen.HandleSignup | project-rekayasa-perangkat-lunak/Laundry/app/auth/SignupScreen.tsx:54-82 | a missing name, email or password sends and writes nothing; otherwise the trimmed email is sent, a rejection writes nothing and alerts its message, and an accepted account gets its display name and profile |
| Backend.Store.SetOrder | project-rekayasa-perangkat-lunak/Laundry/app/screens/LaundryFormScreen.tsx:413-426 | the order document is set under its id |
| Backend.Store.SetLaundry | project-rekayasa-perangkat-lunak/Laundry/app/screens/LaundryFormScreen.tsx:429-446 | the dashboard card is set under its id |
| Backend.Store.AddCustomer | project-rekayasa-perangkat-lunak/Laundry/app/screens/customer/add.tsx:26-34 | the customer document is added |
| Backend.Store.AddInventory | project-rekayasa-perangkat-lunak/Laundry/app/screens/inventory/add.tsx:74-82 | the inventory document is added |
| Backend.Store.AddExpense | project-rekayasa-perangkat-lunak/Laundry/app/screens/ReportsScreen.tsx:598-603 | the expense document is added |
| Backend.Store.SetUser | project-rekayasa-perangkat-lunak/Laundry/app/auth/SignupScreen.tsx:67-73 | the profile is set under the uid |
| Backend.Store.SetDisplayName | project-rekayasa-perangkat-lunak/Laundry/app/auth/SignupScreen.tsx:65 | the account's display name is set |
| Backend.Store.DeleteLaundry | project-rekayasa-perangkat-lunak/Laundry/app/screens/HomeScreen.tsx:291 | the dashboard card is deleted |
| Backend.Store.IncrementTotalOrders | project-rekayasa-perangkat-lunak/Laundry/app/screens/LaundryFormScreen.tsx:449-451 | the order count is incremented when the customer exists, else the update fails and nothing changes |
| Backend.Store.IncrementDeposit | project-rekayasa-perangkat-lunak/Laundry/app/screens/LaundryFormScreen.tsx:455-457 | the deposit is incremented (missing as 0, NaN in either giving NaN) when the customer exists, else nothing changes |
| Backend.Store.TopUp | project-rekayasa-perangkat-lunak/Laundry/app/screens/customer/detail.tsx:111-114 | the deposit is incremented (missing as 0, a NaN balance staying NaN) and membership set when the customer exists, else nothing changes |
| Backend.Store.UpdateOrderStatus | project-rekayasa-perangkat-lunak/Laundry/app/screens/HomeScreen.tsx:290 | the order's status is set when it exists, else nothing changes |
| Backend.Store.UpdateLaundryStatus | project-rekayasa-perangkat-lunak/Laundry/app/screens/HomeScreen.tsx:292 | the card's status is set when it exists, else nothing changes |
| Backend.Store.UpdateOrderPayment | project-rekayasa-perangkat-lunak/Laundry/app/screens/HomeScreen.tsx:309 | the order's payment is set when it exists, else nothing changes |
| Backend.Store.UpdateLaundryPayment | project-rekayasa-perangkat-lunak/Laundry/app/screens/HomeScreen.tsx:308 | the card's payment is set when it exists, else nothing changes |
| Backend.Store.DecrementStock | project-rekayasa-perangkat-lunak/Laundry/app/screens/LaundryFormScreen.tsx:465-471 | every existing sold item loses the quantities sold under its id; the combined update succeeds exactly when every sold item exists |
| Backend.ApplySales | project-rekayasa-perangkat-lunak/Laundry/app/screens/LaundryFormScreen.tsx:465-471 | the stock updates keep the set of inventory ids |
| Backend.ApplySalesStock | project-rekayasa-perangkat-lunak/Laundry/app/screens/LaundryFormScreen.tsx:465-471 | an item's stock drops by the total quantity sold under its id |

## Left out

- Decimal, hexadecimal and exponent notation in `Number`, `parseInt` and `parseFloat`: numbers are integers, so amounts such as "2.5" are not modelled; "2,5", which the app also cannot read, is.
- Locale formatting (`toLocaleString("id-ID")`, dates shown as text): receipts and PDF rows carry the amount or the date value, not its printed form.
- Unicode case folding: `toLowerCase` is modelled on ASCII letters only.
- The HTML and file output of the PDF export and of the order PDF, sharing, printing and `struk_pembayaran.tsx`: not modelled beyond the items, totals and rows they show.
- Bluetooth permissions, `isBluetoothEnabled` failures, print errors and the iOS alert: the printer driver is outside the model; a receipt is the command list that would be sent.
- `Receipt.PrintReceipt`: the driver's asynchronous calls and their failures are not modelled; the result is the full command list.
- Concurrency: snapshot listeners, awaited writes and `Promise.all` are taken one at a time in program order, with no interleaving.
- `addDoc` and `setDoc` always succeed in the model; only `updateDoc` on a missing document fails.
- `Auth.SignupScreen.HandleSignup`: `updateProfile` and `setDoc` failures after the account is created are not modelled.
- Server timestamps and `Date.now()`: the clock is a parameter; the `createdAt` of new customers and inventory items is not stored.
- `OrderForm.LaundryForm.UpdateItem`: the source mutates an element shared with the previous state array; the model replaces the line in a new sequence, so that aliasing is not captured.
- `OrderForm.LaundryForm.SetSellQty`: the quantity handler (`LaundryFormScreen.tsx:791-792`) also mutates an element shared with the previous state array; the model replaces the item in a new sequence, so that aliasing is not captured.
- `LegacyForm.LegacyOrderForm.UpdateItem`: `laundry2112.tsx:109-110` mutates the shared line object in the same way; the model replaces the line, so that aliasing is not captured.
- `OrderForm.DashboardRecord`: the dashboard card's `items` are written as formatted text lines (service, weight and unit, price, note and line total in `id-ID` format, `LaundryFormScreen.tsx:433-439`); the model stores the service lines those texts are made from.
- The service-name options loaded from `list_laundry` and the open/close state of their suggestion list: display only.
- `CustomerDetail.History`: a missing order number is read as 0; in the source the comparator then returns NaN and the order is engine-defined.
- `Reports.ChartData`: the buckets are Rupiah totals; the division by 1,000,000 for the chart scale is left out.
- Totals stored as text (`total: "15000"`) are read with `Number`, as the source does; a total stored as any other type is not modelled.
- Alerts, navigation and styles: only the alert texts of the sign-in and sign-up handlers are modelled.
- The "after a save the goods quantities are not reset" behaviour of the order form, the fact that manual "paid" income never counts on the dashboard, and the differing income rules of the dashboard (cash, QRIS, transfer), the report screen (anything but unpaid) and the PDF export (only "paid") are modelled as the code has them.
- A manual entry with a negative amount is accepted, as in the source (`!amt` only rejects 0 and NaN).

## Findings

| source | as written | input that shows it | evidently intended | confidence | as-written member | corrected member |
|---|---|---|---|---|---|---|
| project-rekayasa-perangkat-lunak/Laundry/app/screens/LaundryFormScreen.tsx:406 | the deposit check refuses an order when `balance < grandTotal`; a comparison with NaN is false | a service line with weight "2,5" makes `+it.weight` NaN, so the grand total is NaN and a deposit order is saved with any balance, writing a NaN total | refuse a deposit order unless the grand total is a number the balance covers | not executed | OrderForm.CommaWeightPassesDepositGuard | OrderForm.DepositCoversLeavesBalance |

The screen's save (`OrderForm.SaveGuard`, `OrderForm.LaundryForm.SaveOrder`) keeps the check as written, so the model's writes are the app's; `OrderForm.NaNDepositSaveStoresNaN` shows what such a save stores. The intended check is `OrderForm.DepositCovers`, and `OrderForm.SaveWritesDepositNonNegative` proves that a save it admits leaves the balance a non-negative number.
