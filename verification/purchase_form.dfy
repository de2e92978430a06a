/** The purchase form: the prefill that follows the mode and the selected
    item, and the validation and payload of its submit. */
module PurchaseForm {
  import opened Wrappers
  import opened Types
  import Text
  import Ledger

  /** The state of the form. The numeric fields hold what `parseInt`
      (quantity) and `parseFloat` (prices) give for their text; None stands
      for NaN, which is what an empty field gives. */
  datatype Form = Form(
    isNew: bool,
    selectedId: Id,
    name: string,
    quantity: Option<int>,
    purchasePrice: Option<Money>,
    sellingPrice: Option<Money>)

  /** The effect run when the mode, the selection or the inventory changes:
      on a restock of a found item, name and both prices are copied from the
      first item with that id;
      on a restock of an id not found nothing changes; otherwise (new item,
      or nothing selected) name and prices are cleared. The quantity is
      never touched. */
  function Prefill(form: Form, inventory: seq<Item>): (r: Form)
    ensures r.isNew == form.isNew && r.selectedId == form.selectedId && r.quantity == form.quantity
    ensures form.isNew || form.selectedId == "" ==>
      r.name == "" && r.purchasePrice.None? && r.sellingPrice.None?
    ensures !form.isNew && form.selectedId != "" && !HasId(inventory, form.selectedId) ==> r == form
    ensures !form.isNew && form.selectedId != "" && HasId(inventory, form.selectedId) ==>
      var k := Ledger.FindIndex(inventory, form.selectedId);
      && 0 <= k && inventory[k].id == form.selectedId
      && (forall j :: 0 <= j < k ==> inventory[j].id != form.selectedId)
      && r.name == inventory[k].name
      && r.purchasePrice == Some(inventory[k].purchasePrice)
      && r.sellingPrice == Some(inventory[k].sellingPrice)
  {
    if !form.isNew && form.selectedId != "" then
      var i := Ledger.FindIndex(inventory, form.selectedId);
      if i > -1 then
        var it := inventory[i];
        form.(name := it.name, purchasePrice := Some(it.purchasePrice), sellingPrice := Some(it.sellingPrice))
      else form
    else form.(name := "", purchasePrice := None, sellingPrice := None)
  }

  /** The submit: the payload is handed over only when the name is not
      blank, the quantity is a positive integer and both prices are
      non-negative numbers. The name is passed untrimmed. */
  function Submit(form: Form): (r: Option<Ledger.PurchaseData>)
    ensures r.Some? <==>
      && Text.Trim(form.name) != []
      && form.quantity.Some? && form.quantity.value > 0
      && form.purchasePrice.Some? && form.purchasePrice.value >= 0
      && form.sellingPrice.Some? && form.sellingPrice.value >= 0
    ensures r.Some? ==>
      && r.value.id == (if form.isNew then None else Some(form.selectedId))
      && r.value.name == form.name && r.value.isNew == form.isNew
      && Some(r.value.quantity) == form.quantity
      && Some(r.value.purchasePrice) == form.purchasePrice
      && Some(r.value.sellingPrice) == form.sellingPrice
  {
    if && Text.Trim(form.name) != []
       && form.quantity.Some? && form.quantity.value > 0
       && form.purchasePrice.Some? && form.purchasePrice.value >= 0
       && form.sellingPrice.Some? && form.sellingPrice.value >= 0
    then
      Some(Ledger.PurchaseData(
        if form.isNew then None else Some(form.selectedId),
        form.name,
        form.quantity.value,
        form.purchasePrice.value,
        form.sellingPrice.value,
        form.isNew))
    else None
  }

  /** A form as the prefill leaves it: in restock mode the name cannot be
      typed, so with nothing selected it is the empty name the prefill
      set, and otherwise the selected id is one the item list offered.
      Editing the quantity or the prices keeps a form settled. */
  predicate Settled(form: Form, inventory: seq<Item>) {
    || form.isNew
    || (form.selectedId == "" && form.name == "")
    || (form.selectedId != "" && HasId(inventory, form.selectedId))
  }

  /** Choosing a mode and an item from the list settles the form. */
  lemma PrefillSettles(form: Form, inventory: seq<Item>)
    requires form.selectedId == "" || HasId(inventory, form.selectedId)
    ensures Settled(Prefill(form, inventory), inventory)
  {
  }

  /** From a settled form, a restock is only ever submitted for an item of
      the inventory, so its purchase never falls back to a generated id. */
  lemma SettledRestockNamesItem(form: Form, inventory: seq<Item>)
    requires Settled(form, inventory) && !form.isNew && Submit(form).Some?
    ensures HasId(inventory, form.selectedId) && form.selectedId != ""
    ensures Submit(form).value.id == Some(form.selectedId)
  {
    assert Text.Trim("") == [];
  }
}
