/**
 * The Bluetooth receipt: the order, as loose JavaScript values, turned into the
 * ordered list of ESC/POS commands the printer driver receives. The driver itself
 * is not part of this model; a command is what would be sent.
 */
module Receipt {
  import opened Options
  import opened Text
  import opened JsNumber
  import opened Seqs

  /** A field of the order object as the printer code may find it. */
  datatype JsValue = Undef | Null | Str(s: string) | Number(n: Num) | Bool(b: bool)

  /** JavaScript truthiness. */
  predicate Truthy(v: JsValue) {
    match v
    case Undef => false
    case Null => false
    case Str(s) => s != ""
    case Number(n) => n.Some? && n.value != 0
    case Bool(b) => b
  }

  /** `safe`: undefined and null print as `-`, anything else as `String(v)`. */
  function Safe(v: JsValue): (r: string)
    ensures v.Undef? || v.Null? ==> r == "-"
    ensures v.Str? ==> r == v.s
    ensures r == "-" <==> v.Undef? || v.Null? || v == Str("-")
    ensures v.Number? && v.n.Some? ==> ToNumber(r) == v.n
    ensures v.Number? && v.n.None? ==> r == "NaN" && ToNumber(r).None?
    ensures v.Bool? ==> (r == "true" <==> v.b) && (r == "false" <==> !v.b)
  {
    match v
    case Undef => "-"
    case Null => "-"
    case Str(s) => s
    case Number(n) =>
      if n.None? then
        assert !IsDigit("NaN"[0]);
        assert TrimStart("NaN") == "NaN" && TrimEnd("NaN") == "NaN";
        "NaN"
      else
        ToNumberOfIntToString(n.value);
        IntToString(n.value)
    case Bool(b) => if b then "true" else "false"
  }

  /** `toNumber`: `parseFloat` of a string, `Number` of anything else, and 0 for what is not finite. */
  function ToNum(v: JsValue): int {
    match v
    case Str(s) => ParseIntPrefix(s).GetOr(0)
    case Number(n) => n.GetOr(0)
    case Bool(b) => if b then 1 else 0
    case Undef => 0
    case Null => 0
  }

  /** `toNumber` never lets NaN through: undefined, unparsable text and NaN all read as 0. */
  lemma ToNumNaNIsZero(s: string)
    ensures ToNum(Undef) == 0 && ToNum(Null) == 0 && ToNum(Number(None)) == 0
    ensures ParseIntPrefix(s).None? ==> ToNum(Str(s)) == 0
    ensures ParseIntPrefix(s).Some? ==> ToNum(Str(s)) == ParseIntPrefix(s).value
  {
  }

  /** One service line of the order object. */
  datatype PrintItem = PrintItem(weight: JsValue, unit: JsValue, service: JsValue, price: JsValue, note: JsValue)

  /** The fields of the order object the receipt reads; `items` is absent or null when `None`. */
  datatype PrintOrder = PrintOrder(
    orderNumber: JsValue, customerName: JsValue, phone: JsValue, inDate: JsValue, outDate: JsValue,
    items: Option<seq<PrintItem>>, discount: JsValue, total: JsValue, payment: JsValue)

  /** A column's content: text, a Rupiah amount after a prefix, or a locale date of a value. */
  datatype Cell = Txt(text: string) | Money(prefix: string, amount: int) | DateText(value: JsValue)

  datatype Command =
    | AlignCenter
    | PrintText(text: string, tall: bool)
    | PrintColumn(widths: seq<int>, aligns: seq<int>, cells: seq<Cell>)

  /** `formatDate`: a falsy value prints as `-`. */
  function FormatDate(v: JsValue): (c: Cell)
    ensures !Truthy(v) <==> c == Txt("-")
  {
    if Truthy(v) then DateText(v) else Txt("-")
  }

  /** The item columns; together as wide as the 32-character separator. */
  const ItemWidths: seq<int> := [3, 17, 12]
  const HeaderWidths: seq<int> := [12, 20]
  const TotalWidths: seq<int> := [20, 12]

  function Repeat(c: char, n: nat): (r: string)
    ensures |r| == n && forall i :: 0 <= i < n ==> r[i] == c
  {
    if n == 0 then [] else [c] + Repeat(c, n - 1)
  }

  const Rule: string := Repeat('=', 32) + "\r\n"

  function Width(ws: seq<int>): int {
    if ws == [] then 0 else ws[0] + Width(ws[1..])
  }

  /** Every row layout fills exactly the separator's 32 characters. */
  lemma LayoutsFitRule()
    ensures Width(ItemWidths) == 32 && Width(HeaderWidths) == 32 && Width(TotalWidths) == 32
    ensures |Rule| == 34 && Rule[..32] == Repeat('=', 32)
  {
    assert ItemWidths[1..] == [17, 12] && ItemWidths[1..][1..] == [12];
    assert HeaderWidths[1..] == [20];
    assert TotalWidths[1..] == [12];
  }

  const Preamble: seq<Command> := [
    AlignCenter,
    PrintText("\r\nIFA CELL & LAUNDRY\r\n", true),
    PrintText("Jl. BTP No.18, Tamalanrea\r\nMakassar\r\n", false),
    PrintText(Rule, false)]

  /** `headerFields`: five label/value pairs in a fixed order. */
  function HeaderFields(o: PrintOrder): seq<(string, Cell)> {
    [("Order ID:", Txt(Safe(o.orderNumber))),
     ("Customer:", Txt(Safe(o.customerName))),
     ("No.Telp:", Txt(Safe(o.phone))),
     ("Tgl Masuk:", FormatDate(o.inDate)),
     ("Tgl Keluar:", FormatDate(o.outDate))]
  }

  function HeaderRow(f: (string, Cell)): Command {
    PrintColumn(HeaderWidths, [0, 0], [Txt(f.0), f.1])
  }

  /** One label/value row per header field, in order. */
  function HeaderRows(fields: seq<(string, Cell)>): (r: seq<Command>)
    ensures |r| == |fields|
    ensures forall i :: 0 <= i < |fields| ==> r[i] == HeaderRow(fields[i])
  {
    if fields == [] then [] else HeaderRows(fields[..|fields| - 1]) + [HeaderRow(fields[|fields| - 1])]
  }

  /** `${toNumber(weight)}${unit === 'pcs' ? 'pcs' : 'kg'} ${safe(service)}`. */
  function ItemText(it: PrintItem): string {
    IntToString(ToNum(it.weight)) + (if it.unit == Str("pcs") then "pcs" else "kg") + " " + Safe(it.service)
  }

  function ItemRow(it: PrintItem): Command {
    PrintColumn(ItemWidths, [0, 0, 2], [Txt("1x"), Txt(ItemText(it)), Money("", ToNum(it.price))])
  }

  /** The note line under an item: `   cat:` and the note. */
  function NoteLine(it: PrintItem): Command {
    PrintText("   cat:" + Safe(it.note) + "\r\n", false)
  }

  /** One item: its row, then its note line when the note is truthy. */
  function ItemCommands(it: PrintItem): (r: seq<Command>)
    ensures 1 <= |r| <= 2 && r[0] == ItemRow(it)
    ensures |r| == 2 <==> Truthy(it.note)
  {
    [ItemRow(it)] + (if Truthy(it.note) then [NoteLine(it)] else [])
  }

  function ItemsCommands(items: seq<PrintItem>): seq<Command> {
    if items == [] then [] else ItemsCommands(items[..|items| - 1]) + ItemCommands(items[|items| - 1])
  }

  /** The commands of the first `j + 1` items are those of the first `j`, then item `j`'s. */
  lemma ItemsCommandsStep(items: seq<PrintItem>, j: int)
    requires 0 <= j < |items|
    ensures ItemsCommands(items[..j + 1]) == ItemsCommands(items[..j]) + ItemCommands(items[j])
  {
    assert items[..j + 1][..j] == items[..j];
  }

  function DiscountRow(o: PrintOrder): Command {
    PrintColumn(TotalWidths, [0, 2], [Txt("Diskon"), Money("- ", ToNum(o.discount))])
  }

  function TotalRow(o: PrintOrder): Command {
    PrintColumn(TotalWidths, [0, 2], [Txt("Total"), Money("", ToNum(o.total))])
  }

  /** The closing lines: the discount when positive, then total, payment and thanks. */
  function Closing(o: PrintOrder): seq<Command> {
    (if ToNum(o.discount) > 0 then [DiscountRow(o)] else []) +
    [TotalRow(o), PrintText("\nPembayaran: " + Safe(o.payment) + "\n", false), PrintText("\r\nTerima kasih!\r\n\r\n\r\n", false)]
  }

  /** The whole receipt; nothing on iOS, where the driver is not supported. */
  function ReceiptCommands(o: PrintOrder, isIOS: bool): seq<Command> {
    if isIOS then []
    else
      Preamble + HeaderRows(HeaderFields(o)) +
      [PrintText(Rule, false), PrintText("Layanan\r\n", false)] +
      ItemsCommands(o.items.GetOr([])) + [PrintText(Rule, false)] + Closing(o)
  }

  /** The first loop of `printReceipt`: one row per header field. */
  method PrintHeaderRows(fields: seq<(string, Cell)>) returns (rows: seq<Command>)
    ensures rows == HeaderRows(fields)
  {
    rows := [];
    for k := 0 to |fields|
      invariant rows == HeaderRows(fields[..k])
    {
      assert fields[..k + 1][..k] == fields[..k];
      rows := rows + [HeaderRow(fields[k])];
    }
    assert fields[..|fields|] == fields;
  }

  /** The second loop of `printReceipt`: each item's row, then its note when it has one. */
  method PrintItemLines(items: seq<PrintItem>) returns (lines: seq<Command>)
    ensures lines == ItemsCommands(items)
  {
    lines := [];
    var j := 0;
    while j < |items|
      invariant 0 <= j <= |items|
      invariant lines == ItemsCommands(items[..j])
    {
      ItemsCommandsStep(items, j);
      var these := [ItemRow(items[j])];
      if Truthy(items[j].note) {
        these := these + [NoteLine(items[j])];
      }
      lines := lines + these;
      j := j + 1;
    }
    assert items[..j] == items;
  }

  /** `printReceipt`: the commands, sent one after another. */
  method PrintReceipt(o: PrintOrder, isIOS: bool) returns (cmds: seq<Command>)
    ensures cmds == ReceiptCommands(o, isIOS)
  {
    if isIOS {
      return [];
    }
    var header := PrintHeaderRows(HeaderFields(o));
    var lines := PrintItemLines(o.items.GetOr([]));
    var closing := [];
    if ToNum(o.discount) > 0 {
      closing := [DiscountRow(o)];
    }
    closing := closing + [TotalRow(o), PrintText("\nPembayaran: " + Safe(o.payment) + "\n", false), PrintText("\r\nTerima kasih!\r\n\r\n\r\n", false)];
    cmds := Preamble + header + [PrintText(Rule, false), PrintText("Layanan\r\n", false)] + lines + [PrintText(Rule, false)] + closing;
  }

  /** `printOwnerReceipt` prints the customer's receipt again. */
  method PrintOwnerReceipt(o: PrintOrder, isIOS: bool) returns (cmds: seq<Command>)
    ensures cmds == ReceiptCommands(o, isIOS)
  {
    cmds := PrintReceipt(o, isIOS);
  }

  predicate IsRow(c: Command) {
    c.PrintColumn?
  }

  /** One item row per item, in item order. */
  function ItemRows(items: seq<PrintItem>): (r: seq<Command>)
    ensures |r| == |items|
    ensures forall i :: 0 <= i < |items| ==> r[i] == ItemRow(items[i])
  {
    if items == [] then [] else ItemRows(items[..|items| - 1]) + [ItemRow(items[|items| - 1])]
  }

  /** Of one item's commands only its row is a row; the note line is text. */
  lemma ItemCommandsRows(it: PrintItem)
    ensures Filter(ItemCommands(it), IsRow) == [ItemRow(it)]
  {
    var cs := ItemCommands(it);
    if |cs| == 2 {
      assert cs[..1] == [ItemRow(it)];
      assert Filter(cs[..1], IsRow) == [ItemRow(it)] by {
        assert cs[..1][..0] == [];
      }
      FilterAppendOne(cs[..1], cs[1], IsRow);
      assert cs == cs[..1] + [cs[1]];
    } else {
      assert cs == [] + [ItemRow(it)];
      FilterAppendOne([], ItemRow(it), IsRow);
    }
  }

  /** The rows among the item commands are exactly one row per item, in item order. */
  lemma {:induction false} ItemRowsInOrder(items: seq<PrintItem>)
    ensures Filter(ItemsCommands(items), IsRow) == ItemRows(items)
  {
    if items != [] {
      var init, it := items[..|items| - 1], items[|items| - 1];
      ItemRowsInOrder(init);
      FilterConcat(ItemsCommands(init), ItemCommands(it), IsRow);
      ItemCommandsRows(it);
    }
  }

  /** Absent or null items print no item lines at all. */
  lemma NoItemsNoLines(o: PrintOrder)
    requires o.items.None?
    ensures ReceiptCommands(o, false) ==
      Preamble + HeaderRows(HeaderFields(o)) +
      [PrintText(Rule, false), PrintText("Layanan\r\n", false), PrintText(Rule, false)] + Closing(o)
  {
  }

  /** The body between the header and the closing lines. */
  function Middle(o: PrintOrder): seq<Command> {
    [PrintText(Rule, false), PrintText("Layanan\r\n", false)] + ItemsCommands(o.items.GetOr([])) + [PrintText(Rule, false)]
  }

  lemma ReceiptSplit(o: PrintOrder)
    ensures ReceiptCommands(o, false) == (Preamble + HeaderRows(HeaderFields(o))) + (Middle(o) + Closing(o))
  {
  }

  /** A receipt off iOS opens with the preamble and then the five header rows in their fixed order. */
  lemma ReceiptHead(o: PrintOrder)
    ensures var r := ReceiptCommands(o, false);
      |r| >= 9 && r[..4] == Preamble &&
      (forall i :: 0 <= i < 5 ==> r[4 + i] == HeaderRow(HeaderFields(o)[i]))
  {
    ReceiptSplit(o);
    var head := Preamble + HeaderRows(HeaderFields(o));
    assert |head| == 9;
    assert head[..4] == Preamble;
  }

  /**
   * A receipt off iOS ends with the total, payment and thanks lines, preceded by the
   * discount row exactly when the discount is positive (otherwise by the separator).
   */
  lemma ReceiptEnd(o: PrintOrder)
    ensures var r := ReceiptCommands(o, false);
      |r| >= 15 &&
      r[|r| - 3] == TotalRow(o) &&
      r[|r| - 2] == PrintText("\nPembayaran: " + Safe(o.payment) + "\n", false) &&
      r[|r| - 1] == PrintText("\r\nTerima kasih!\r\n\r\n\r\n", false) &&
      (r[|r| - 4] == DiscountRow(o) <==> ToNum(o.discount) > 0)
  {
    ReceiptSplit(o);
    var head := Preamble + HeaderRows(HeaderFields(o));
    var tail := Middle(o) + Closing(o);
    assert |head| == 9;
    var m := Middle(o);
    var c := Closing(o);
    assert m[|m| - 1] == PrintText(Rule, false);
    assert |m| >= 3;
    if ToNum(o.discount) > 0 {
      assert tail[|tail| - 4] == DiscountRow(o);
    } else {
      assert tail[|tail| - 4] == PrintText(Rule, false);
    }
  }

  /** The header labels, in order. */
  lemma HeaderLabels(o: PrintOrder)
    ensures |HeaderFields(o)| == 5
    ensures HeaderFields(o)[0].0 == "Order ID:" && HeaderFields(o)[1].0 == "Customer:" &&
      HeaderFields(o)[2].0 == "No.Telp:" && HeaderFields(o)[3].0 == "Tgl Masuk:" && HeaderFields(o)[4].0 == "Tgl Keluar:"
    ensures HeaderFields(o)[0].1 == Txt(Safe(o.orderNumber)) && HeaderFields(o)[3].1 == FormatDate(o.inDate)
  {
  }
}
