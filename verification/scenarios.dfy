/** Worked examples of whole user actions, from the form to the ledger. */
module Scenarios {
  import opened Wrappers
  import opened Types
  import Text
  import Ledger
  import SaleCart
  import PurchaseForm
  import AdjustGate
  import Shop

  function Widget(id: Id, quantity: int, t: Time): Item {
    Item(id, "Widget", quantity, 2, 5, t)
  }

  /** Buying ten new widgets at 2, to sell at 5, into an empty shop creates
      the item and logs one purchase of 20. */
  lemma NewItemPurchase(f: Fresh)
    ensures var form := PurchaseForm.Form(true, "", "Widget", Some(10), Some(2), Some(5));
            var r := Shop.Step(Ledger.State([], []), Shop.SubmitPurchase(form), f);
            && r.items == [Widget(f.itemId, 10, f.now)]
            && |r.log| == 1 && r.log[0].kind == Purchase && r.log[0].amount == 20
  {
    assert !Text.IsSpace('W') && !Text.IsSpace('t');
    assert Text.TrimStart("Widget") == "Widget";
    assert Text.TrimEnd("Widget") == "Widget";
  }

  /** Selling three of ten widgets leaves seven and logs revenue 15 and
      cogs 6; the cart reached three by one add and two increments. */
  lemma SaleOfThree(f: Fresh, t: Time)
    ensures var w := Widget("item-1", 10, t);
            var cart := SaleCart.ChangeQuantity(SaleCart.ChangeQuantity(SaleCart.AddItem([], w), w.id, 1), w.id, 1);
            var r := Shop.Step(Ledger.State([w], []), Shop.ConfirmSale(cart), f);
            && cart == [SaleItem(w, 3)]
            && r.items == [Widget("item-1", 7, t)]
            && r.log[0].kind == Sale && r.log[0].amount == 15 && r.log[0].cogs == Some(6)
  {
    var w := Widget("item-1", 10, t);
    var c1 := SaleCart.AddItem([], w);
    assert c1 == [SaleItem(w, 1)];
    assert SaleCart.FindEntry(c1, w.id) == 0;
    var c2 := SaleCart.ChangeQuantity(c1, w.id, 1);
    assert c2 == [SaleItem(w, 2)];
    assert SaleCart.FindEntry(c2, w.id) == 0;
    var cart := SaleCart.ChangeQuantity(c2, w.id, 1);
    assert cart == [SaleItem(w, 3)];
    assert cart[1..] == [];
    assert Ledger.Revenue(cart) == 5 * 3 + Ledger.Revenue([]);
    assert Ledger.CostOfSale(cart) == 2 * 3 + Ledger.CostOfSale([]);
    assert Ledger.Sold(cart, w.id) == 3;
    assert DistinctIds([w]);
  }

  /** Asking for more widgets than are in stock does not fail: the cart
      clamps the quantity to the seven on hand. */
  lemma OverSellClamped(t: Time)
    ensures var w := Widget("item-1", 7, t);
            SaleCart.ChangeQuantity([SaleItem(w, 1)], w.id, 19) == [SaleItem(w, 7)]
  {
    var w := Widget("item-1", 7, t);
    assert SaleCart.FindEntry([SaleItem(w, 1)], w.id) == 0;
  }

  /** Writing off all seven damaged widgets leaves none and logs an
      adjustment of amount 0 whose line holds the change -7. */
  lemma WriteOff(f: Fresh, t: Time)
    ensures var w := Widget("item-1", 7, t);
            var r := Shop.Step(Ledger.State([w], []), Shop.SubmitAdjust(w, Some(-7), "damaged"), f);
            && r.items == [Widget("item-1", 0, t)]
            && r.log[0].kind == Adjustment && r.log[0].amount == 0
            && r.log[0].items == Some([LineItem("item-1", "Widget", -7, 0)])
  {
    assert !Text.IsSpace('d');
    assert Text.TrimStart("damaged") == "damaged";
    assert Text.TrimEnd("damaged") == "damaged";
    var w := Widget("item-1", 7, t);
    assert AdjustGate.HandleAdjust(w, Some(-7), "damaged") == AdjustGate.Adjust(w, -7, "damaged");
    var r := Ledger.AdjustStock(Ledger.State([w], []), w, -7, "damaged", f);
    assert r.items[0] == w.(quantity := 0);
  }

  /** Writing off eight of seven widgets is refused and changes nothing. */
  lemma WriteOffTooMany(f: Fresh, t: Time)
    ensures var w := Widget("item-1", 7, t);
            var shop := Ledger.State([w], []);
            Shop.Step(shop, Shop.SubmitAdjust(w, Some(-8), "damaged"), f) == shop
  {
    assert !Text.IsSpace('d');
    assert Text.TrimStart("damaged") == "damaged";
    assert Text.TrimEnd("damaged") == "damaged";
  }
}
