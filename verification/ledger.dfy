/** The ledger operations of the application: each records one transaction
    at the head of the log and changes the inventory accordingly. They do
    no validation of their own; the forms in front of them do. */
module Ledger {
  import opened Wrappers
  import opened Types
  import Text

  /** The two collections the application keeps: the inventory and the
      transaction log, newest first. */
  datatype State = State(items: seq<Item>, log: seq<Transaction>)

  /** Prepends the draft, completed with a fresh id and timestamp, to the
      log; the previous log is kept intact as the tail. */
  function AddTransaction(log: seq<Transaction>, d: Draft, id: Id, now: Time): (r: seq<Transaction>)
    ensures |r| == |log| + 1 && r[1..] == log
    ensures r[0].id == id && r[0].timestamp == now
    ensures r[0].kind == d.kind && r[0].description == d.description && r[0].amount == d.amount
    ensures r[0].cogs == d.cogs && r[0].items == d.items
  {
    [Transaction(id, d.kind, now, d.description, d.amount, d.cogs, d.items)] + log
  }

  // ---------------------------------------------------------------- sale

  /** Σ sellingPrice · quantity over the sale. */
  function Revenue(sale: seq<SaleItem>): Money {
    if sale == [] then 0
    else sale[0].item.sellingPrice * sale[0].quantity + Revenue(sale[1..])
  }

  /** Σ purchasePrice · quantity over the sale. */
  function CostOfSale(sale: seq<SaleItem>): Money {
    if sale == [] then 0
    else sale[0].item.purchasePrice * sale[0].quantity + CostOfSale(sale[1..])
  }

  /** Σ quantity over the entries of the sale for item `id`. */
  function Sold(sale: seq<SaleItem>, id: Id): int {
    if sale == [] then 0
    else (if sale[0].item.id == id then sale[0].quantity else 0) + Sold(sale[1..], id)
  }

  /** The line items of a sale: one per entry, priced at the selling
      price the item had when it entered the cart. */
  function SaleLines(sale: seq<SaleItem>): (r: seq<LineItem>)
    ensures |r| == |sale|
    ensures forall k :: 0 <= k < |sale| ==>
      r[k] == LineItem(sale[k].item.id, sale[k].item.name, sale[k].quantity, sale[k].item.sellingPrice)
  {
    if sale == [] then []
    else [LineItem(sale[0].item.id, sale[0].item.name, sale[0].quantity, sale[0].item.sellingPrice)]
         + SaleLines(sale[1..])
  }

  /** The recorded amount equals the total of the recorded lines. */
  lemma {:induction false} SaleLinesTotal(sale: seq<SaleItem>)
    ensures LinesTotal(SaleLines(sale)) == Revenue(sale)
  {
    if sale != [] {
      assert SaleLines(sale)[1..] == SaleLines(sale[1..]);
      SaleLinesTotal(sale[1..]);
    }
  }

  /** The recorded lines take out of each item exactly what the sale sold. */
  lemma {:induction false} SaleLinesQuantity(sale: seq<SaleItem>, id: Id)
    ensures LineQuantity(SaleLines(sale), id) == Sold(sale, id)
  {
    if sale != [] {
      assert SaleLines(sale)[1..] == SaleLines(sale[1..]);
      SaleLinesQuantity(sale[1..], id);
    }
  }

  /** With non-negative prices and quantities, revenue and cost of a sale
      are non-negative. */
  lemma {:induction false} SaleTotalsNonNegative(sale: seq<SaleItem>)
    requires forall k :: 0 <= k < |sale| ==>
      sale[k].quantity >= 0 && sale[k].item.sellingPrice >= 0 && sale[k].item.purchasePrice >= 0
    ensures Revenue(sale) >= 0 && CostOfSale(sale) >= 0
  {
    if sale != [] {
      SaleTotalsNonNegative(sale[1..]);
    }
  }

  /** `Array.prototype.findIndex` by id: the first position holding item
      `id`, or -1 when there is none. */
  function FindIndex(items: seq<Item>, id: Id): (r: int)
    ensures -1 <= r < |items|
    ensures r == -1 <==> !HasId(items, id)
    ensures r >= 0 ==> items[r].id == id && forall j :: 0 <= j < r ==> items[j].id != id
  {
    if items == [] then -1
    else if items[0].id == id then 0
    else
      var r := FindIndex(items[1..], id);
      if r == -1 then
        assert forall k :: 1 <= k < |items| ==> items[k] == items[1..][k - 1];
        -1
      else
        assert items[r + 1] == items[1..][r];
        r + 1
  }

  /** Whether some entry of the sale is for item `id`. */
  predicate InSale(sale: seq<SaleItem>, id: Id) {
    exists e :: 0 <= e < |sale| && sale[e].item.id == id
  }

  /** Takes `q` out of the first item with id `id`; nothing happens when
      there is none. */
  function DecrementFirst(items: seq<Item>, id: Id, q: int): (r: seq<Item>)
    ensures |r| == |items|
    ensures forall k :: 0 <= k < |items| ==> SameButQuantity(r[k], items[k])
    ensures forall k :: 0 <= k < |items| && k != FindIndex(items, id) ==> r[k] == items[k]
    ensures FindIndex(items, id) >= 0 ==>
      r[FindIndex(items, id)].quantity == items[FindIndex(items, id)].quantity - q
  {
    var i := FindIndex(items, id);
    if i > -1 then items[i := items[i].(quantity := items[i].quantity - q)] else items
  }

  /** A sale with no entry for an item sells none of it. */
  lemma {:induction false} SoldAbsent(sale: seq<SaleItem>, id: Id)
    requires !InSale(sale, id)
    ensures Sold(sale, id) == 0
  {
    if sale != [] {
      assert sale[0].item.id != id;
      assert !InSale(sale[1..], id) by {
        forall e | 0 <= e < |sale[1..]| ensures sale[1..][e].item.id != id {
          assert sale[1..][e] == sale[e + 1];
        }
      }
      SoldAbsent(sale[1..], id);
    }
  }

  /** What a sale takes out of the item at position `k`: all that was sold
      of its id when `k` is the first position with that id, and nothing
      from a later item that repeats the id. */
  function Taken(items: seq<Item>, sale: seq<SaleItem>, k: int): int
    requires 0 <= k < |items|
  {
    if FindIndex(items, items[k].id) == k then Sold(sale, items[k].id) else 0
  }

  /** `findIndex` looks at nothing but the ids. */
  lemma FindIndexByIds(a: seq<Item>, b: seq<Item>, id: Id)
    requires |a| == |b| && forall k :: 0 <= k < |a| ==> a[k].id == b[k].id
    ensures FindIndex(a, id) == FindIndex(b, id)
  {
    if HasId(a, id) {
      var k :| 0 <= k < |a| && a[k].id == id;
      assert b[k].id == id;
    }
    if HasId(b, id) {
      var k :| 0 <= k < |b| && b[k].id == id;
      assert a[k].id == id;
    }
  }

  /** One step of a sale: decrementing for the first entry and then taking
      out what the rest of the sale takes is taking out what the whole sale
      takes. */
  lemma DecrementThenRest(items: seq<Item>, sale: seq<SaleItem>, r: seq<Item>)
    requires sale != [] && |r| == |items|
    requires var next := DecrementFirst(items, sale[0].item.id, sale[0].quantity);
      forall k :: 0 <= k < |items| ==> r[k].quantity == next[k].quantity - Taken(next, sale[1..], k)
    ensures forall k :: 0 <= k < |items| ==> r[k].quantity == items[k].quantity - Taken(items, sale, k)
  {
    var id0 := sale[0].item.id;
    var next := DecrementFirst(items, id0, sale[0].quantity);
    forall k | 0 <= k < |items| ensures r[k].quantity == items[k].quantity - Taken(items, sale, k) {
      var id := items[k].id;
      assert SameButQuantity(next[k], items[k]);
      assert next[k].(quantity := 0).id == items[k].(quantity := 0).id;
      forall j | 0 <= j < |items| ensures next[j].id == items[j].id {
        assert next[j].(quantity := 0).id == items[j].(quantity := 0).id;
      }
      FindIndexByIds(next, items, id);
      assert Taken(next, sale[1..], k) == if FindIndex(items, id) == k then Sold(sale[1..], id) else 0;
      assert k == FindIndex(items, id0) <==> FindIndex(items, id) == k && id0 == id;
    }
  }

  /** The inventory after a sale: each entry in turn takes its quantity out
      of the first item with its id; entries whose id is not found are
      skipped. */
  function ApplySale(items: seq<Item>, sale: seq<SaleItem>): (r: seq<Item>)
    decreases |sale|
    ensures |r| == |items|
    ensures forall k :: 0 <= k < |items| ==> SameButQuantity(r[k], items[k])
    ensures forall k :: 0 <= k < |items| ==> r[k].quantity == items[k].quantity - Taken(items, sale, k)
  {
    if sale == [] then items
    else
      var next := DecrementFirst(items, sale[0].item.id, sale[0].quantity);
      var r := ApplySale(next, sale[1..]);
      DecrementThenRest(items, sale, r);
      r
  }

  /** Items no entry of the sale names come through a sale unchanged. */
  lemma ApplySaleUntouched(items: seq<Item>, sale: seq<SaleItem>)
    ensures forall k :: 0 <= k < |items| && !InSale(sale, items[k].id) ==> ApplySale(items, sale)[k] == items[k]
  {
    var r := ApplySale(items, sale);
    forall k | 0 <= k < |items| && !InSale(sale, items[k].id) ensures r[k] == items[k] {
      SoldAbsent(sale, items[k].id);
      assert r[k].(quantity := 0) == items[k].(quantity := 0);
      assert r[k] == r[k].(quantity := 0).(quantity := r[k].quantity);
    }
  }

  /** With distinct item ids, every item loses exactly what was sold of it. */
  lemma ApplySaleDistinct(items: seq<Item>, sale: seq<SaleItem>)
    requires DistinctIds(items)
    ensures forall k :: 0 <= k < |items| ==>
      ApplySale(items, sale)[k].quantity == items[k].quantity - Sold(sale, items[k].id)
  {
    forall k | 0 <= k < |items| ensures FindIndex(items, items[k].id) == k {
      assert HasId(items, items[k].id);
    }
  }

  /** "Sale of N item types", N written in decimal. */
  function SaleDescription(sale: seq<SaleItem>): (r: string)
    ensures |r| >= 20
    ensures r[..8] == "Sale of " && r[|r| - 11..] == " item types"
    ensures Text.DigitsValue(r[8..|r| - 11]) == |sale|
    ensures forall k :: 8 <= k < |r| - 11 ==> '0' <= r[k] <= '9'
    ensures |r| > 20 ==> r[8] != '0'
  {
    var n := Text.NatToString(|sale|);
    var r := "Sale of " + n + " item types";
    assert r[8..|r| - 11] == n;
    r
  }

  /** Records a sale: revenue Σ sellingPrice · quantity, cogs
      Σ purchasePrice · quantity, one line per entry priced at the selling
      price, and each item's stock reduced by what the sale takes out of it:
      with distinct ids, by what was sold of it. */
  function NewSale(shop: State, sale: seq<SaleItem>, f: Fresh): (r: State)
    ensures |r.log| == |shop.log| + 1 && r.log[1..] == shop.log
    ensures r.log[0].id == f.txnId && r.log[0].timestamp == f.now && r.log[0].kind == Sale
    ensures r.log[0].amount == Revenue(sale) && r.log[0].cogs == Some(CostOfSale(sale))
    ensures r.log[0].items.Some? && r.log[0].amount == LinesTotal(r.log[0].items.value)
    ensures r.log[0].description == SaleDescription(sale)
    ensures r.log[0].items == Some(SaleLines(sale))
    ensures forall id :: Delta(r.log[0], id) == -Sold(sale, id)
    ensures |r.items| == |shop.items|
    ensures forall k :: 0 <= k < |shop.items| ==> SameButQuantity(r.items[k], shop.items[k])
    ensures forall k :: 0 <= k < |shop.items| ==>
      r.items[k].quantity == shop.items[k].quantity - Taken(shop.items, sale, k)
    ensures DistinctIds(shop.items) ==> forall k :: 0 <= k < |shop.items| ==>
      r.items[k].quantity == shop.items[k].quantity - Sold(sale, shop.items[k].id)
  {
    assert DistinctIds(shop.items) ==> forall k :: 0 <= k < |shop.items| ==>
      ApplySale(shop.items, sale)[k].quantity == shop.items[k].quantity - Sold(sale, shop.items[k].id) by {
      if DistinctIds(shop.items) {
        ApplySaleDistinct(shop.items, sale);
      }
    }
    SaleLinesTotal(sale);
    forall id ensures LineQuantity(SaleLines(sale), id) == Sold(sale, id) {
      SaleLinesQuantity(sale, id);
    }
    var d := Draft(Sale, SaleDescription(sale), Revenue(sale), Some(CostOfSale(sale)), Some(SaleLines(sale)));
    State(ApplySale(shop.items, sale), AddTransaction(shop.log, d, f.txnId, f.now))
  }

  // ------------------------------------------------------------ purchase

  /** What the purchase form hands over. `id` is absent for a new item and
      the selected item's id on a restock. */
  datatype PurchaseData = PurchaseData(
    id: Option<Id>,
    name: string,
    quantity: int,
    purchasePrice: Money,
    sellingPrice: Money,
    isNew: bool)

  /** `id || generated`: the given id unless it is absent or empty. */
  function PurchaseItemId(id: Option<Id>, generated: Id): (r: Id)
    ensures id.Some? && id.value != "" ==> r == id.value
    ensures id.None? || id.value == "" ==> r == generated
  {
    if id.Some? && id.value != "" then id.value else generated
  }

  /** The inventory after a restock: the items carrying the given id gain
      `quantity` and take the new purchase price; everything else stays. */
  function Restock(items: seq<Item>, id: Option<Id>, quantity: int, purchasePrice: Money): (r: seq<Item>)
    ensures |r| == |items|
    ensures forall k :: 0 <= k < |items| ==>
      if Some(items[k].id) == id
      then r[k] == items[k].(quantity := items[k].quantity + quantity, purchasePrice := purchasePrice)
      else r[k] == items[k]
  {
    seq(|items|, k requires 0 <= k < |items| =>
      if Some(items[k].id) == id
      then items[k].(quantity := items[k].quantity + quantity, purchasePrice := purchasePrice)
      else items[k])
  }

  /** Records a purchase: a new item is appended with the given fields, or
      the selected item is restocked keeping its selling price; either way
      one purchase costing purchasePrice · quantity is logged with a single
      line. */
  function NewPurchase(shop: State, d: PurchaseData, f: Fresh): (r: State)
    ensures |r.log| == |shop.log| + 1 && r.log[1..] == shop.log
    ensures r.log[0].id == f.txnId && r.log[0].timestamp == f.now && r.log[0].kind == Purchase
    ensures r.log[0].amount == d.purchasePrice * d.quantity && r.log[0].cogs.None?
    ensures r.log[0].description == "Purchased " + d.name
    ensures r.log[0].items ==
      Some([LineItem(PurchaseItemId(d.id, f.itemId), d.name, d.quantity, d.purchasePrice)])
    ensures d.isNew ==>
      r.items == shop.items + [Item(PurchaseItemId(d.id, f.itemId), d.name, d.quantity, d.purchasePrice, d.sellingPrice, f.now)]
    ensures !d.isNew ==> |r.items| == |shop.items| && forall k :: 0 <= k < |shop.items| ==>
      && SameButQuantity(r.items[k], shop.items[k].(purchasePrice := r.items[k].purchasePrice))
      && r.items[k].sellingPrice == shop.items[k].sellingPrice
      && (Some(shop.items[k].id) == d.id ==>
            r.items[k].quantity == shop.items[k].quantity + d.quantity
            && r.items[k].purchasePrice == d.purchasePrice)
      && (Some(shop.items[k].id) != d.id ==> r.items[k] == shop.items[k])
  {
    var amount := d.purchasePrice * d.quantity;
    var itemId := PurchaseItemId(d.id, f.itemId);
    var items :=
      if d.isNew then shop.items + [Item(itemId, d.name, d.quantity, d.purchasePrice, d.sellingPrice, f.now)]
      else Restock(shop.items, d.id, d.quantity, d.purchasePrice);
    var draft := Draft(Purchase, "Purchased " + d.name, amount, None,
                       Some([LineItem(itemId, d.name, d.quantity, d.purchasePrice)]));
    State(items, AddTransaction(shop.log, draft, f.txnId, f.now))
  }

  // ------------------------------------------------------------- expense

  /** Records an expense: the inventory is untouched and the logged record
      carries the amount, no cogs and no lines. */
  function NewExpense(shop: State, description: string, amount: Money, f: Fresh): (r: State)
    ensures r.items == shop.items
    ensures |r.log| == |shop.log| + 1 && r.log[1..] == shop.log
    ensures r.log[0] == Transaction(f.txnId, Expense, f.now, description, amount, None, None)
    ensures forall id :: Delta(r.log[0], id) == 0
  {
    State(shop.items, AddTransaction(shop.log, Draft(Expense, description, amount, None, None), f.txnId, f.now))
  }

  // ---------------------------------------------------------- adjustment

  /** The signed change as shown in the description: "+3", "-2". */
  function ChangeText(change: int): (r: string)
    ensures |r| > 0
    ensures change > 0 ==> r[0] == '+'
    ensures change < 0 ==> r[0] == '-'
    ensures change == 0 ==> r == "0"
    ensures change > 0 ==> Text.DigitsValue(r[1..]) == change
    ensures change < 0 ==> Text.DigitsValue(r[1..]) == -change
    ensures forall k :: 1 <= k < |r| ==> '0' <= r[k] <= '9'
    ensures |r| > 2 ==> r[1] != '0'
  {
    if change > 0 then
      var r := "+" + Text.IntToString(change);
      assert r[1..] == Text.IntToString(change);
      r
    else Text.IntToString(change)
  }

  /** Records a stock adjustment: an amount-0 record with the single line
      {quantity: change, unitPrice: 0}, and `change` added to the items
      with the adjusted item's id and to no other item. */
  function AdjustStock(shop: State, item: Item, change: int, reason: string, f: Fresh): (r: State)
    ensures |r.log| == |shop.log| + 1 && r.log[1..] == shop.log
    ensures r.log[0].id == f.txnId && r.log[0].timestamp == f.now && r.log[0].kind == Adjustment
    ensures r.log[0].amount == 0 && r.log[0].cogs.None?
    ensures r.log[0].items == Some([LineItem(item.id, item.name, change, 0)])
    ensures r.log[0].description == "Adjusted " + item.name + " by " + ChangeText(change) + ". Reason: " + reason
    ensures |r.items| == |shop.items|
    ensures forall k :: 0 <= k < |shop.items| ==>
      if shop.items[k].id == item.id
      then r.items[k] == shop.items[k].(quantity := shop.items[k].quantity + change)
      else r.items[k] == shop.items[k]
  {
    var description := "Adjusted " + item.name + " by " + ChangeText(change) + ". Reason: " + reason;
    var draft := Draft(Adjustment, description, 0, None, Some([LineItem(item.id, item.name, change, 0)]));
    var items := seq(|shop.items|, k requires 0 <= k < |shop.items| =>
      if shop.items[k].id == item.id
      then shop.items[k].(quantity := shop.items[k].quantity + change)
      else shop.items[k]);
    State(items, AddTransaction(shop.log, draft, f.txnId, f.now))
  }

  /** The ledger on its own does not protect the stock level: an
      adjustment larger than the stock drives it below zero. */
  lemma AdjustStockUnguarded(f: Fresh)
    ensures var item := Item("item-1", "Widget", 1, 2, 5, 0);
            AdjustStock(State([item], []), item, -5, "damaged", f).items[0].quantity == -4
  {
  }
}
