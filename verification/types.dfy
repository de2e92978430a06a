/** The entities of the shop: inventory items, transaction kinds, line items
    and transactions, with the meaning their fields carry. Money is counted
    in integer minor units and time in integer milliseconds. */
module Types {
  import opened Wrappers

  type Id = string
  type Money = int
  type Time = int

  datatype Item = Item(
    id: Id,
    name: string,
    quantity: int,
    purchasePrice: Money,
    sellingPrice: Money,
    createdAt: Time)

  datatype TransactionType = Sale | Purchase | Expense | Adjustment

  /** The string value each kind is stored and displayed as. */
  function Label(k: TransactionType): string {
    match k
    case Sale => "Sale"
    case Purchase => "Purchase"
    case Expense => "Expense"
    case Adjustment => "Stock Adjustment"
  }

  /** The kind a stored string value denotes, if any. */
  function ParseLabel(s: string): (r: Option<TransactionType>)
    ensures r.Some? ==> Label(r.value) == s
  {
    if s == "Sale" then Some(Sale)
    else if s == "Purchase" then Some(Purchase)
    else if s == "Expense" then Some(Expense)
    else if s == "Stock Adjustment" then Some(Adjustment)
    else None
  }

  /** There are exactly four kinds, their labels are distinct, and a label
      denotes the kind it was written from. */
  lemma LabelRoundTrip(k: TransactionType)
    ensures ParseLabel(Label(k)) == Some(k)
    ensures Label(k) in {"Sale", "Purchase", "Expense", "Stock Adjustment"}
  {
  }

  /** One line of a transaction. `unitPrice` is the selling price for a
      sale, the purchase price for a purchase and 0 for an adjustment,
      whose `quantity` is a signed change. */
  datatype LineItem = LineItem(itemId: Id, itemName: string, quantity: int, unitPrice: Money)

  datatype Transaction = Transaction(
    id: Id,
    kind: TransactionType,
    timestamp: Time,
    description: string,
    amount: Money,
    cogs: Option<Money>,
    items: Option<seq<LineItem>>)

  /** A transaction before it has been given an id and a timestamp. */
  datatype Draft = Draft(
    kind: TransactionType,
    description: string,
    amount: Money,
    cogs: Option<Money>,
    items: Option<seq<LineItem>>)

  /** A cart entry as the sale form hands it to the ledger: the item as it
      was when first added to the cart, and the quantity to sell. */
  datatype SaleItem = SaleItem(item: Item, quantity: int)

  /** The identifiers and the clock reading an operation takes from its
      environment. */
  datatype Fresh = Fresh(itemId: Id, txnId: Id, now: Time)

  /** Σ unitPrice · quantity over the lines. */
  function LinesTotal(lines: seq<LineItem>): Money {
    if lines == [] then 0
    else lines[0].unitPrice * lines[0].quantity + LinesTotal(lines[1..])
  }

  /** Σ quantity over the lines that refer to item `id`. */
  function LineQuantity(lines: seq<LineItem>, id: Id): int {
    if lines == [] then 0
    else (if lines[0].itemId == id then lines[0].quantity else 0) + LineQuantity(lines[1..], id)
  }

  /** The change a transaction makes to the stock of item `id`: a sale
      takes its quantities out, a purchase or adjustment puts its (signed)
      quantities in, an expense has no lines. */
  function Delta(t: Transaction, id: Id): int {
    var q := LineQuantity(t.items.GetOr([]), id);
    if t.kind == Sale then -q else q
  }

  /** Σ Delta over a log. */
  function NetDelta(log: seq<Transaction>, id: Id): int {
    if log == [] then 0 else Delta(log[0], id) + NetDelta(log[1..], id)
  }

  /** The field semantics of a transaction: the amount is the total revenue
      of a sale and the total cost of a purchase or expense, and 0 for an
      adjustment; cogs is present only on sales; an expense has no lines, a
      purchase and an adjustment exactly one. */
  function WellFormed(t: Transaction): (r: bool)
    ensures r ==> t.amount >= 0
    ensures r ==> (t.cogs.Some? <==> t.kind == Sale)
    ensures r ==> (t.items.None? <==> t.kind == Expense)
  {
    match t.kind
    case Sale =>
      && t.cogs.Some? && t.items.Some?
      && t.amount == LinesTotal(t.items.value)
      && t.amount >= 0 && t.cogs.value >= 0
    case Purchase =>
      && t.cogs.None? && t.items.Some? && |t.items.value| == 1
      && t.amount == LinesTotal(t.items.value)
      && t.amount >= 0 && t.items.value[0].quantity > 0
    case Expense =>
      t.cogs.None? && t.items.None? && t.amount > 0
    case Adjustment =>
      && t.cogs.None? && t.amount == 0
      && t.items.Some? && |t.items.value| == 1
      && t.items.value[0].unitPrice == 0 && t.items.value[0].quantity != 0
  }

  predicate HasId(items: seq<Item>, id: Id) {
    exists k :: 0 <= k < |items| && items[k].id == id
  }

  predicate DistinctIds(items: seq<Item>) {
    forall i, j :: 0 <= i < j < |items| ==> items[i].id != items[j].id
  }

  /** Two item records that agree on everything but the stock level. */
  predicate SameButQuantity(a: Item, b: Item) {
    a.(quantity := 0) == b.(quantity := 0)
  }
}
