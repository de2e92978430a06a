/** The shop as a whole: each user action passes its form's checks and then
    the ledger operation behind it. The ledger does no checking of its own,
    so the guarantee that stock never goes negative, and that every item's
    stock is what the transaction log says it is, rests on the forms. This
    module states that guarantee and proves it. */
module Shop {
  import opened Wrappers
  import opened Types
  import Ledger
  import SaleCart
  import AdjustGate
  import PurchaseForm
  import ExpenseGate

  /** A form confirmed with the inputs it holds at that moment. */
  datatype Command =
    | ConfirmSale(cart: SaleCart.Cart)
    | SubmitPurchase(form: PurchaseForm.Form)
    | SubmitExpense(description: string, amount: Option<Money>)
    | SubmitAdjust(item: Item, change: Option<int>, reason: string)

  /** Whether the form lets the command through to the ledger. */
  predicate Accepted(cmd: Command) {
    match cmd
    case ConfirmSale(cart) => SaleCart.Confirm(cart).Some?
    case SubmitPurchase(form) => PurchaseForm.Submit(form).Some?
    case SubmitExpense(description, amount) => ExpenseGate.Submit(description, amount).Some?
    case SubmitAdjust(item, change, reason) => AdjustGate.HandleAdjust(item, change, reason).Adjust?
  }

  /** One user action: the form's checks, then the ledger operation with
      the arguments the form passes on. A refused command changes nothing;
      an accepted one adds exactly one transaction. */
  function Step(shop: Ledger.State, cmd: Command, f: Fresh): (r: Ledger.State)
    ensures !Accepted(cmd) ==> r == shop
    ensures Accepted(cmd) ==> |r.log| == |shop.log| + 1 && r.log[1..] == shop.log
  {
    match cmd
    case ConfirmSale(cart) =>
      (match SaleCart.Confirm(cart)
       case Some(c) => Ledger.NewSale(shop, c, f)
       case None => shop)
    case SubmitPurchase(form) =>
      (match PurchaseForm.Submit(form)
       case Some(d) => Ledger.NewPurchase(shop, d, f)
       case None => shop)
    case SubmitExpense(description, amount) =>
      (match ExpenseGate.Submit(description, amount)
       case Some(p) => Ledger.NewExpense(shop, p.description, p.amount, f)
       case None => shop)
    case SubmitAdjust(item, change, reason) =>
      (match AdjustGate.HandleAdjust(item, change, reason)
       case Adjust(it, c, why) => Ledger.AdjustStock(shop, it, c, why, f)
       case _ => shop)
  }

  /** Every line of every transaction names an item of the inventory. */
  predicate RefsKnown(shop: Ledger.State) {
    forall i, j :: 0 <= i < |shop.log| && shop.log[i].items.Some? && 0 <= j < |shop.log[i].items.value| ==>
      HasId(shop.items, shop.log[i].items.value[j].itemId)
  }

  /** No negative stock level and no negative price. */
  predicate Stocked(items: seq<Item>) {
    forall k :: 0 <= k < |items| ==>
      items[k].quantity >= 0 && items[k].purchasePrice >= 0 && items[k].sellingPrice >= 0
  }

  predicate LogWellFormed(log: seq<Transaction>) {
    forall i :: 0 <= i < |log| ==> WellFormed(log[i])
  }

  /** Every item's stock is the net change the log records for it. */
  predicate StockMatchesLog(shop: Ledger.State) {
    forall k :: 0 <= k < |shop.items| ==> shop.items[k].quantity == NetDelta(shop.log, shop.items[k].id)
  }

  /** The integrity of the shop: distinct item ids, no negative stock, no
      negative price, well-formed transactions that name known items, and
      every item's stock equal to the net change the log records for it. */
  predicate Inv(shop: Ledger.State) {
    && DistinctIds(shop.items)
    && Stocked(shop.items)
    && LogWellFormed(shop.log)
    && RefsKnown(shop)
    && StockMatchesLog(shop)
  }

  /** What the user interface guarantees about a command: the cart was
      built by the cart operations against the current inventory, the
      purchase form is as its prefill leaves it and a new item gets an id
      no item has, and the adjustment form was opened on an inventory item. */
  predicate Admissible(shop: Ledger.State, cmd: Command, f: Fresh) {
    match cmd
    case ConfirmSale(cart) => SaleCart.CartInv(cart, shop.items)
    case SubmitPurchase(form) => PurchaseForm.Settled(form, shop.items) && !HasId(shop.items, f.itemId)
    case SubmitExpense(_, _) => true
    case SubmitAdjust(item, _, _) => item in shop.items
  }

  lemma EmptyShopInv()
    ensures Inv(Ledger.State([], []))
  {
  }

  /** The central result: every admissible action keeps the shop intact. */
  lemma StepKeepsInv(shop: Ledger.State, cmd: Command, f: Fresh)
    requires Inv(shop) && Admissible(shop, cmd, f)
    ensures Inv(Step(shop, cmd, f))
  {
    if Accepted(cmd) {
      match cmd
      case ConfirmSale(cart) => SaleKeepsInv(shop, cart, f);
      case SubmitPurchase(form) =>
        var d := PurchaseForm.Submit(form).value;
        if form.isNew {
          NewPurchaseKeepsInv(shop, d, f);
        } else {
          PurchaseForm.SettledRestockNamesItem(form, shop.items);
          RestockKeepsInv(shop, d, f);
        }
      case SubmitExpense(description, amount) =>
        var p := ExpenseGate.Submit(description, amount).value;
        ExpenseKeepsInv(shop, p.description, p.amount, f);
      case SubmitAdjust(item, change, reason) =>
        var o := AdjustGate.HandleAdjust(item, change, reason);
        AdjustKeepsInv(shop, o.item, o.change, o.reason, f);
    }
  }

  /** A run of actions, each admissible in the state the previous ones left. */
  function Run(shop: Ledger.State, cmds: seq<Command>, fs: seq<Fresh>): Ledger.State
    requires |fs| == |cmds|
    decreases |cmds|
  {
    if cmds == [] then shop else Run(Step(shop, cmds[0], fs[0]), cmds[1..], fs[1..])
  }

  predicate AdmissibleRun(shop: Ledger.State, cmds: seq<Command>, fs: seq<Fresh>)
    requires |fs| == |cmds|
    decreases |cmds|
  {
    cmds == [] || (Admissible(shop, cmds[0], fs[0]) && AdmissibleRun(Step(shop, cmds[0], fs[0]), cmds[1..], fs[1..]))
  }

  /** Starting from the empty shop, no admissible run of actions ever
      drives a stock level below zero, and every stock level is the net of
      the quantities the log records for the item. */
  lemma {:induction false} RunKeepsInv(shop: Ledger.State, cmds: seq<Command>, fs: seq<Fresh>)
    requires |fs| == |cmds| && Inv(shop) && AdmissibleRun(shop, cmds, fs)
    ensures Inv(Run(shop, cmds, fs))
    ensures forall k :: 0 <= k < |Run(shop, cmds, fs).items| ==> Run(shop, cmds, fs).items[k].quantity >= 0
    decreases |cmds|
  {
    if cmds != [] {
      StepKeepsInv(shop, cmds[0], fs[0]);
      RunKeepsInv(Step(shop, cmds[0], fs[0]), cmds[1..], fs[1..]);
    }
  }

  // ------------------------------------------------------------ helpers

  lemma {:induction false} LineQuantityAbsent(lines: seq<LineItem>, id: Id)
    requires forall j :: 0 <= j < |lines| ==> lines[j].itemId != id
    ensures LineQuantity(lines, id) == 0
  {
    if lines != [] {
      LineQuantityAbsent(lines[1..], id);
    }
  }

  /** An id no line of the log names has a net change of zero. */
  lemma {:induction false} NetDeltaUnreferenced(log: seq<Transaction>, id: Id)
    requires forall i, j :: 0 <= i < |log| && log[i].items.Some? && 0 <= j < |log[i].items.value| ==>
      log[i].items.value[j].itemId != id
    ensures NetDelta(log, id) == 0
  {
    if log != [] {
      LineQuantityAbsent(log[0].items.GetOr([]), id);
      NetDeltaUnreferenced(log[1..], id);
    }
  }

  /** With well-formed transactions naming only known items, an unknown id
      has a net change of zero. */
  lemma UnknownIdNetZero(shop: Ledger.State, id: Id)
    requires RefsKnown(shop) && !HasId(shop.items, id)
    ensures NetDelta(shop.log, id) == 0
  {
    NetDeltaUnreferenced(shop.log, id);
  }

  /** A cart built against the inventory never sells more of an item than
      the item has. */
  lemma {:induction false} SoldWithinStock(cart: SaleCart.Cart, items: seq<Item>, k: int)
    requires SaleCart.CartInv(cart, items) && DistinctIds(items) && 0 <= k < |items|
    requires items[k].quantity >= 0
    ensures Ledger.Sold(cart, items[k].id) <= items[k].quantity
    ensures Ledger.Sold(cart, items[k].id) >= 0
  {
    if cart != [] {
      assert SaleCart.CartInv(cart[1..], items) by {
        forall i, j | 0 <= i < j < |cart[1..]| ensures cart[1..][i].item.id != cart[1..][j].item.id {
          assert cart[1..][i] == cart[i + 1] && cart[1..][j] == cart[j + 1];
        }
      }
      SoldWithinStock(cart[1..], items, k);
      if cart[0].item.id == items[k].id {
        var m :| 0 <= m < |items| && items[m] == cart[0].item;
        assert m == k;
        assert !Ledger.InSale(cart[1..], items[k].id) by {
          forall e | 0 <= e < |cart[1..]| ensures cart[1..][e].item.id != items[k].id {
            assert cart[1..][e] == cart[e + 1];
          }
        }
        Ledger.SoldAbsent(cart[1..], items[k].id);
      }
    }
  }

  // ------------------------------------------ one record put in front

  lemma PrependWellFormed(log: seq<Transaction>, r: seq<Transaction>)
    requires LogWellFormed(log) && |r| == |log| + 1 && r[1..] == log && WellFormed(r[0])
    ensures LogWellFormed(r)
  {
    forall i | 1 <= i < |r| ensures WellFormed(r[i]) {
      assert r[i] == log[i - 1];
    }
  }

  /** A record naming only items of the new inventory, put in front of a
      log whose items the new inventory still has, keeps every reference
      known. */
  lemma PrependRefsKnown(shop: Ledger.State, r: Ledger.State)
    requires RefsKnown(shop) && |r.log| == |shop.log| + 1 && r.log[1..] == shop.log
    requires forall id :: HasId(shop.items, id) ==> HasId(r.items, id)
    requires r.log[0].items.Some? ==>
      forall j :: 0 <= j < |r.log[0].items.value| ==> HasId(r.items, r.log[0].items.value[j].itemId)
    ensures RefsKnown(r)
  {
    forall i, j | 0 <= i < |r.log| && r.log[i].items.Some? && 0 <= j < |r.log[i].items.value|
      ensures HasId(r.items, r.log[i].items.value[j].itemId)
    {
      if i > 0 {
        assert r.log[i] == shop.log[i - 1];
      }
    }
  }

  /** When every item's stock moved by what the new record says it moved,
      stock still matches the log. */
  lemma PrependStock(shop: Ledger.State, r: Ledger.State)
    requires |r.log| == |shop.log| + 1 && r.log[1..] == shop.log
    requires forall k :: 0 <= k < |r.items| ==>
      r.items[k].quantity == Delta(r.log[0], r.items[k].id) + NetDelta(shop.log, r.items[k].id)
    ensures StockMatchesLog(r)
  {
  }

  /** Two inventories that differ only in stock levels have the same ids. */
  lemma SameButQuantities(a: seq<Item>, b: seq<Item>)
    requires |a| == |b| && forall k :: 0 <= k < |a| ==> SameButQuantity(a[k], b[k])
    ensures forall k :: 0 <= k < |a| ==>
      a[k].id == b[k].id && a[k].purchasePrice == b[k].purchasePrice && a[k].sellingPrice == b[k].sellingPrice
    ensures DistinctIds(a) <==> DistinctIds(b)
    ensures forall id :: HasId(b, id) ==> HasId(a, id)
  {
    forall k | 0 <= k < |a|
      ensures a[k].id == b[k].id && a[k].purchasePrice == b[k].purchasePrice && a[k].sellingPrice == b[k].sellingPrice
    {
      assert a[k].(quantity := 0) == b[k].(quantity := 0);
    }
  }

  // ---------------------------------------------------------- per action

  lemma SaleKeepsInv(shop: Ledger.State, cart: SaleCart.Cart, f: Fresh)
    requires Inv(shop) && SaleCart.CartInv(cart, shop.items)
    ensures Inv(Ledger.NewSale(shop, cart, f))
  {
    var r := Ledger.NewSale(shop, cart, f);
    assert DistinctIds(r.items) by {
      SameButQuantities(r.items, shop.items);
    }
    assert LogWellFormed(r.log) by {
      SaleRecordWellFormed(shop, cart, f);
      PrependWellFormed(shop.log, r.log);
    }
    SaleStockNonNegative(shop, cart, f);
    SaleRefsKnown(shop, cart, f);
    SaleStock(shop, cart, f);
  }

  /** After a sale every item's stock is what it was less what was sold
      of it, which is what the sale record says it lost. */
  lemma SaleStock(shop: Ledger.State, cart: SaleCart.Cart, f: Fresh)
    requires DistinctIds(shop.items) && StockMatchesLog(shop)
    ensures StockMatchesLog(Ledger.NewSale(shop, cart, f))
  {
    var r := Ledger.NewSale(shop, cart, f);
    SameButQuantities(r.items, shop.items);
    PrependStock(shop, r);
  }

  lemma SaleRecordWellFormed(shop: Ledger.State, cart: SaleCart.Cart, f: Fresh)
    requires Stocked(shop.items) && SaleCart.CartInv(cart, shop.items)
    ensures WellFormed(Ledger.NewSale(shop, cart, f).log[0])
  {
    forall k | 0 <= k < |cart|
      ensures cart[k].quantity >= 0 && cart[k].item.sellingPrice >= 0 && cart[k].item.purchasePrice >= 0
    {
      var m :| 0 <= m < |shop.items| && shop.items[m] == cart[k].item;
    }
    Ledger.SaleTotalsNonNegative(cart);
  }

  lemma SaleStockNonNegative(shop: Ledger.State, cart: SaleCart.Cart, f: Fresh)
    requires DistinctIds(shop.items) && Stocked(shop.items) && SaleCart.CartInv(cart, shop.items)
    ensures Stocked(Ledger.NewSale(shop, cart, f).items)
  {
    var r := Ledger.NewSale(shop, cart, f);
    SameButQuantities(r.items, shop.items);
    forall k | 0 <= k < |shop.items| ensures r.items[k].quantity >= 0 {
      SoldWithinStock(cart, shop.items, k);
    }
  }

  lemma SaleRefsKnown(shop: Ledger.State, cart: SaleCart.Cart, f: Fresh)
    requires RefsKnown(shop) && SaleCart.CartInv(cart, shop.items)
    ensures RefsKnown(Ledger.NewSale(shop, cart, f))
  {
    var r := Ledger.NewSale(shop, cart, f);
    assert forall id :: HasId(shop.items, id) ==> HasId(r.items, id) by {
      SameButQuantities(r.items, shop.items);
    }
    assert forall j :: 0 <= j < |r.log[0].items.value| ==> HasId(shop.items, r.log[0].items.value[j].itemId) by {
      assert r.log[0].items.value == Ledger.SaleLines(cart);
      CartLinesKnown(cart, shop.items);
    }
    PrependRefsKnown(shop, r);
  }

  /** The lines of a sale from a valid cart name inventory items only. */
  lemma CartLinesKnown(cart: SaleCart.Cart, items: seq<Item>)
    requires SaleCart.CartInv(cart, items)
    ensures forall j :: 0 <= j < |cart| ==> HasId(items, Ledger.SaleLines(cart)[j].itemId)
  {
    forall j | 0 <= j < |cart| ensures HasId(items, Ledger.SaleLines(cart)[j].itemId) {
      var m :| 0 <= m < |items| && items[m] == cart[j].item;
      assert items[m].id == Ledger.SaleLines(cart)[j].itemId;
    }
  }

  lemma NewPurchaseKeepsInv(shop: Ledger.State, d: Ledger.PurchaseData, f: Fresh)
    requires Inv(shop) && d.isNew && d.id.None? && !HasId(shop.items, f.itemId)
    requires d.quantity > 0 && d.purchasePrice >= 0 && d.sellingPrice >= 0
    ensures Inv(Ledger.NewPurchase(shop, d, f))
  {
    var r := Ledger.NewPurchase(shop, d, f);
    var n := |shop.items|;
    assert r.items[n].id == f.itemId;
    assert forall k :: 0 <= k < n ==> r.items[k] == shop.items[k];
    assert forall id :: HasId(shop.items, id) ==> HasId(r.items, id);
    assert HasId(r.items, f.itemId);
    assert LinesTotal(r.log[0].items.value) == d.purchasePrice * d.quantity;
    PrependWellFormed(shop.log, r.log);
    PrependRefsKnown(shop, r);
    NewItemStock(shop, d, f);
  }

  /** After a new-item purchase the new item's stock is its purchased
      quantity, which is all the log records for its fresh id. */
  lemma NewItemStock(shop: Ledger.State, d: Ledger.PurchaseData, f: Fresh)
    requires StockMatchesLog(shop) && RefsKnown(shop) && d.isNew && d.id.None? && !HasId(shop.items, f.itemId)
    ensures StockMatchesLog(Ledger.NewPurchase(shop, d, f))
  {
    var r := Ledger.NewPurchase(shop, d, f);
    UnknownIdNetZero(shop, f.itemId);
    forall k | 0 <= k < |r.items|
      ensures r.items[k].quantity == Delta(r.log[0], r.items[k].id) + NetDelta(shop.log, r.items[k].id)
    {
      assert LineQuantity(r.log[0].items.value, r.items[k].id)
          == (if r.items[k].id == f.itemId then d.quantity else 0);
      if k < |shop.items| {
        assert r.items[k] == shop.items[k];
        assert HasId(shop.items, shop.items[k].id);
      }
    }
    PrependStock(shop, r);
  }

  lemma RestockKeepsInv(shop: Ledger.State, d: Ledger.PurchaseData, f: Fresh)
    requires Inv(shop) && !d.isNew && d.id.Some? && d.id.value != "" && HasId(shop.items, d.id.value)
    requires d.quantity > 0 && d.purchasePrice >= 0
    ensures Inv(Ledger.NewPurchase(shop, d, f))
  {
    var r := Ledger.NewPurchase(shop, d, f);
    assert forall k :: 0 <= k < |shop.items| ==> r.items[k].id == shop.items[k].id;
    assert forall x :: HasId(shop.items, x) ==> HasId(r.items, x);
    assert LinesTotal(r.log[0].items.value) == d.purchasePrice * d.quantity;
    PrependWellFormed(shop.log, r.log);
    PrependRefsKnown(shop, r);
    RestockStock(shop, d, f);
  }

  lemma RestockStock(shop: Ledger.State, d: Ledger.PurchaseData, f: Fresh)
    requires StockMatchesLog(shop) && !d.isNew && d.id.Some? && d.id.value != ""
    ensures StockMatchesLog(Ledger.NewPurchase(shop, d, f))
  {
    var r := Ledger.NewPurchase(shop, d, f);
    forall k | 0 <= k < |r.items|
      ensures r.items[k].quantity == Delta(r.log[0], r.items[k].id) + NetDelta(shop.log, r.items[k].id)
    {
      assert r.items[k].id == shop.items[k].id;
      assert LineQuantity(r.log[0].items.value, r.items[k].id)
          == (if r.items[k].id == d.id.value then d.quantity else 0);
    }
    PrependStock(shop, r);
  }

  lemma ExpenseKeepsInv(shop: Ledger.State, description: string, amount: Money, f: Fresh)
    requires Inv(shop) && amount > 0
    ensures Inv(Ledger.NewExpense(shop, description, amount, f))
  {
    var r := Ledger.NewExpense(shop, description, amount, f);
    PrependWellFormed(shop.log, r.log);
    PrependRefsKnown(shop, r);
    PrependStock(shop, r);
  }

  lemma AdjustKeepsInv(shop: Ledger.State, item: Item, change: int, reason: string, f: Fresh)
    requires Inv(shop) && item in shop.items && change != 0 && item.quantity + change >= 0
    ensures Inv(Ledger.AdjustStock(shop, item, change, reason, f))
  {
    var r := Ledger.AdjustStock(shop, item, change, reason, f);
    var m :| 0 <= m < |shop.items| && shop.items[m] == item;
    assert forall k :: 0 <= k < |shop.items| && shop.items[k].id == item.id ==> k == m;
    AdjustOnlyStock(shop, item, change, reason, f);
    SameButQuantities(r.items, shop.items);
    assert LogWellFormed(r.log) by {
      PrependWellFormed(shop.log, r.log);
    }
    assert RefsKnown(r) by {
      assert HasId(r.items, item.id) by { assert r.items[m].id == item.id; }
      PrependRefsKnown(shop, r);
    }
    AdjustStockMatches(shop, item, change, reason, f);
  }

  /** An adjustment changes nothing about any item but its stock level. */
  lemma AdjustOnlyStock(shop: Ledger.State, item: Item, change: int, reason: string, f: Fresh)
    ensures var r := Ledger.AdjustStock(shop, item, change, reason, f);
      forall k :: 0 <= k < |shop.items| ==> SameButQuantity(r.items[k], shop.items[k])
  {
    var r := Ledger.AdjustStock(shop, item, change, reason, f);
    forall k | 0 <= k < |shop.items| ensures SameButQuantity(r.items[k], shop.items[k]) {
      assert r.items[k].(quantity := 0) == shop.items[k].(quantity := 0);
    }
  }

  /** After an adjustment the adjusted item's stock moved by the change the
      record carries, and every other stock stayed where it was. */
  lemma AdjustStockMatches(shop: Ledger.State, item: Item, change: int, reason: string, f: Fresh)
    requires StockMatchesLog(shop)
    ensures StockMatchesLog(Ledger.AdjustStock(shop, item, change, reason, f))
  {
    var r := Ledger.AdjustStock(shop, item, change, reason, f);
    forall k | 0 <= k < |r.items|
      ensures r.items[k].quantity == Delta(r.log[0], r.items[k].id) + NetDelta(shop.log, r.items[k].id)
    {
      assert r.items[k].id == shop.items[k].id;
      assert LineQuantity(r.log[0].items.value, r.items[k].id)
          == (if r.items[k].id == item.id then change else 0);
    }
    PrependStock(shop, r);
  }
}
