/** The cart of the sale form: the item search, the cart operations with
    their clamps to the stock on hand, the running total and the confirm
    gate in front of the ledger's sale operation. */
module SaleCart {
  import opened Wrappers
  import opened Types
  import opened Seqs
  import Text
  import Ledger

  type Cart = seq<SaleItem>

  /** `Math.min`. */
  function Min(a: int, b: int): (r: int)
    ensures r <= a && r <= b && (r == a || r == b)
  {
    if a <= b then a else b
  }

  /** The items in stock whose name contains the query, ignoring case as
      `lower` (JavaScript's `toLowerCase`) does; nothing for an empty query. */
  function SearchResults(inventory: seq<Item>, query: string, lower: string -> string): (r: seq<Item>)
    ensures query == [] ==> r == []
    ensures query != [] ==> forall it :: it in r <==>
      it in inventory && it.quantity > 0 && Text.Includes(lower(it.name), lower(query))
    ensures query != [] ==> forall it ::
      multiset(r)[it] == if it.quantity > 0 && Text.Includes(lower(it.name), lower(query)) then multiset(inventory)[it] else 0
    ensures IsSubsequence(r, inventory)
  {
    if query == [] then [] else Matching(inventory, lower(query), lower)
  }

  /** The filter behind `SearchResults`, with the query already lower-cased;
      each kept item occurs as often as in the inventory. */
  function Matching(inventory: seq<Item>, q: string, lower: string -> string): (r: seq<Item>)
    ensures forall it :: it in r <==> it in inventory && it.quantity > 0 && Text.Includes(lower(it.name), q)
    ensures forall it ::
      multiset(r)[it] == if it.quantity > 0 && Text.Includes(lower(it.name), q) then multiset(inventory)[it] else 0
    ensures IsSubsequence(r, inventory)
  {
    if inventory == [] then []
    else
      var rest := Matching(inventory[1..], q, lower);
      assert inventory == [inventory[0]] + inventory[1..];
      assert forall it :: it in inventory <==> it == inventory[0] || it in inventory[1..];
      if inventory[0].quantity > 0 && Text.Includes(lower(inventory[0].name), q) then
        assert ([inventory[0]] + rest)[1..] == rest;
        [inventory[0]] + rest
      else rest
  }

  /** Whether the cart has an entry for item `id`. */
  predicate HasEntry(cart: Cart, id: Id) {
    exists k :: 0 <= k < |cart| && cart[k].item.id == id
  }

  /** `cart.find` by id, as a position: the first entry for `id`, or -1. */
  function FindEntry(cart: Cart, id: Id): (r: int)
    ensures -1 <= r < |cart|
    ensures r == -1 <==> !HasEntry(cart, id)
    ensures r >= 0 ==> cart[r].item.id == id && forall j :: 0 <= j < r ==> cart[j].item.id != id
  {
    if cart == [] then -1
    else if cart[0].item.id == id then 0
    else
      var r := FindEntry(cart[1..], id);
      if r == -1 then
        assert forall k :: 1 <= k < |cart| ==> cart[k] == cart[1..][k - 1];
        -1
      else
        assert cart[r + 1] == cart[1..][r];
        r + 1
  }

  /** Every entry for `id` gets quantity `q`; the others are kept. */
  function SetQuantity(cart: Cart, id: Id, q: int): (r: Cart)
    ensures |r| == |cart|
    ensures forall k :: 0 <= k < |cart| ==>
      if cart[k].item.id == id then r[k] == cart[k].(quantity := q) else r[k] == cart[k]
  {
    seq(|cart|, k requires 0 <= k < |cart| =>
      if cart[k].item.id == id then cart[k].(quantity := q) else cart[k])
  }

  /** The entries not for `id`, in order. */
  function RemoveItem(cart: Cart, id: Id): (r: Cart)
    ensures forall e :: e in r <==> e in cart && e.item.id != id
    ensures IsSubsequence(r, cart)
    ensures !HasEntry(r, id)
    ensures !HasEntry(cart, id) ==> r == cart
  {
    if cart == [] then []
    else
      var rest := RemoveItem(cart[1..], id);
      assert forall e :: e in cart <==> e == cart[0] || e in cart[1..];
      if cart[0].item.id != id then
        assert ([cart[0]] + rest)[1..] == rest;
        assert forall k :: 1 <= k < |[cart[0]] + rest| ==> ([cart[0]] + rest)[k] == rest[k - 1];
        assert !HasEntry(cart[1..], id) ==> !HasEntry(cart, id) ==> cart == [cart[0]] + cart[1..];
        [cart[0]] + rest
      else rest
  }

  /** Removal keeps every entry for another item as often as it occurs in
      the cart, and no entry for `id`. */
  lemma {:induction false} RemoveItemCount(cart: Cart, id: Id)
    ensures forall e :: multiset(RemoveItem(cart, id))[e] == if e.item.id != id then multiset(cart)[e] else 0
  {
    if cart != [] {
      RemoveItemCount(cart[1..], id);
      assert cart == [cart[0]] + cart[1..];
    }
  }

  /** Adding an item already in the cart raises its quantity by one, but
      never beyond the stock of the item being added; adding a new item
      appends it with quantity 1. */
  function AddItem(cart: Cart, itemToAdd: Item): (r: Cart)
    ensures !HasEntry(cart, itemToAdd.id) ==> r == cart + [SaleItem(itemToAdd, 1)]
    ensures HasEntry(cart, itemToAdd.id) ==>
      var q := Min(cart[FindEntry(cart, itemToAdd.id)].quantity + 1, itemToAdd.quantity);
      |r| == |cart| && forall k :: 0 <= k < |cart| ==>
        if cart[k].item.id == itemToAdd.id then r[k] == cart[k].(quantity := q) else r[k] == cart[k]
  {
    var i := FindEntry(cart, itemToAdd.id);
    if i >= 0 then
      SetQuantity(cart, itemToAdd.id, Min(cart[i].quantity + 1, itemToAdd.quantity))
    else cart + [SaleItem(itemToAdd, 1)]
  }

  /** Moving the quantity of the entry for `id` by `change`: a result at or
      below zero removes the entry; otherwise it is clamped to the entry
      item's stock. An id not in the cart changes nothing. */
  function ChangeQuantity(cart: Cart, id: Id, change: int): (r: Cart)
    ensures !HasEntry(cart, id) ==> r == cart
    ensures HasEntry(cart, id) ==>
      var e := cart[FindEntry(cart, id)];
      if e.quantity + change <= 0 then r == RemoveItem(cart, id)
      else
        |r| == |cart| && forall k :: 0 <= k < |cart| ==>
          if cart[k].item.id == id
          then r[k] == cart[k].(quantity := Min(e.quantity + change, e.item.quantity))
          else r[k] == cart[k]
  {
    var i := FindEntry(cart, id);
    if i < 0 then cart
    else
      var newQuantity := cart[i].quantity + change;
      if newQuantity <= 0 then RemoveItem(cart, id)
      else SetQuantity(cart, id, Min(newQuantity, cart[i].item.quantity))
  }

  /** The running total, accumulated left to right as `reduce` does. */
  function Total(cart: Cart): (r: Money)
    ensures r == Ledger.Revenue(cart)
  {
    TotalFromShift(0, cart);
    TotalFrom(0, cart)
  }

  function TotalFrom(acc: Money, cart: Cart): Money
    decreases |cart|
  {
    if cart == [] then acc
    else TotalFrom(acc + cart[0].item.sellingPrice * cart[0].quantity, cart[1..])
  }

  lemma {:induction false} TotalFromShift(acc: Money, cart: Cart)
    ensures TotalFrom(acc, cart) == acc + Ledger.Revenue(cart)
    decreases |cart|
  {
    if cart != [] {
      TotalFromShift(acc + cart[0].item.sellingPrice * cart[0].quantity, cart[1..]);
    }
  }

  /** The total the form shows is the amount the sale records. */
  lemma TotalIsRecordedAmount(cart: Cart, shop: Ledger.State, f: Fresh)
    ensures Total(cart) == Ledger.NewSale(shop, cart, f).log[0].amount
  {
    TotalFromShift(0, cart);
  }

  /** The sale is handed to the ledger only when the cart is not empty. */
  function Confirm(cart: Cart): (r: Option<Cart>)
    ensures r.Some? <==> |cart| > 0
    ensures r.Some? ==> r.value == cart
  {
    if |cart| > 0 then Some(cart) else None
  }

  /** What the cart operations keep true: one entry per item id, each entry
      an item of the inventory, each quantity between 1 and that item's
      stock. */
  predicate CartInv(cart: Cart, inventory: seq<Item>) {
    && (forall i, j :: 0 <= i < j < |cart| ==> cart[i].item.id != cart[j].item.id)
    && (forall k :: 0 <= k < |cart| ==>
          cart[k].item in inventory && 1 <= cart[k].quantity <= cart[k].item.quantity)
  }

  lemma EmptyCartInv(inventory: seq<Item>)
    ensures CartInv([], inventory)
  {
  }

  /** Every search result is an inventory item in stock, so it may be added. */
  lemma SearchResultAddable(inventory: seq<Item>, query: string, lower: string -> string, it: Item)
    requires it in SearchResults(inventory, query, lower)
    ensures it in inventory && it.quantity > 0
  {
  }

  lemma AddItemKeepsInv(cart: Cart, inventory: seq<Item>, itemToAdd: Item)
    requires CartInv(cart, inventory) && DistinctIds(inventory)
    requires itemToAdd in inventory && itemToAdd.quantity > 0
    ensures CartInv(AddItem(cart, itemToAdd), inventory)
  {
    var r := AddItem(cart, itemToAdd);
    var i := FindEntry(cart, itemToAdd.id);
    if i >= 0 {
      var a :| 0 <= a < |inventory| && inventory[a] == cart[i].item;
      var b :| 0 <= b < |inventory| && inventory[b] == itemToAdd;
      assert a == b;
      assert forall k :: 0 <= k < |cart| && cart[k].item.id == itemToAdd.id ==> k == i;
    }
  }

  lemma ChangeQuantityKeepsInv(cart: Cart, inventory: seq<Item>, id: Id, change: int)
    requires CartInv(cart, inventory)
    ensures CartInv(ChangeQuantity(cart, id, change), inventory)
  {
    var i := FindEntry(cart, id);
    if i >= 0 && cart[i].quantity + change <= 0 {
      RemoveItemKeepsInv(cart, inventory, id);
    } else if i >= 0 {
      assert forall k :: 0 <= k < |cart| && cart[k].item.id == id ==> k == i;
    }
  }

  lemma RemoveItemKeepsInv(cart: Cart, inventory: seq<Item>, id: Id)
    requires CartInv(cart, inventory)
    ensures CartInv(RemoveItem(cart, id), inventory)
  {
    SubsequenceKeepsInv(RemoveItem(cart, id), cart, inventory);
  }

  lemma {:induction false} SubsequenceKeepsInv(a: Cart, cart: Cart, inventory: seq<Item>)
    requires CartInv(cart, inventory) && IsSubsequence(a, cart)
    ensures CartInv(a, inventory)
    decreases |cart|
  {
    if a != [] && cart != [] {
      assert CartInv(cart[1..], inventory);
      if a[0] == cart[0] && IsSubsequence(a[1..], cart[1..]) {
        SubsequenceKeepsInv(a[1..], cart[1..], inventory);
        SubsequenceMembers(a[1..], cart[1..]);
        forall j | 0 < j < |a| ensures a[0].item.id != a[j].item.id {
          assert a[j] == a[1..][j - 1] && a[1..][j - 1] in a[1..];
          var m :| 0 <= m < |cart[1..]| && cart[1..][m] == a[j];
          assert cart[m + 1] == a[j];
        }
      } else {
        SubsequenceKeepsInv(a, cart[1..], inventory);
      }
    }
  }
}
