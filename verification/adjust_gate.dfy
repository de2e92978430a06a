/** The stock-adjustment form: it parses the change, requires a reason,
    and refuses a change that would take the stock below zero before the
    ledger is ever asked to adjust. */
module AdjustGate {
  import opened Wrappers
  import opened Types
  import Text
  import Ledger

  /** What pressing "adjust" leads to: nothing, the negative-stock alert,
      or a call of the ledger's adjustment with these arguments. */
  datatype Outcome = NoAction | Rejected | Adjust(item: Item, change: int, reason: string)

  /** `parsedChange` is what `parseInt(change, 10)` gave; None stands for NaN. */
  function HandleAdjust(item: Item, parsedChange: Option<int>, reason: string): (r: Outcome)
    ensures r.NoAction? <==> parsedChange.None? || parsedChange.value == 0 || Text.Trim(reason) == []
    ensures r.Rejected? <==>
      parsedChange.Some? && parsedChange.value != 0 && Text.Trim(reason) != []
      && item.quantity + parsedChange.value < 0
    ensures r.Adjust? ==>
      && parsedChange.Some? && r.item == item && r.change == parsedChange.value
      && r.change != 0 && r.reason == Text.Trim(reason) && r.reason != []
      && item.quantity + r.change >= 0
  {
    if parsedChange.Some? && parsedChange.value != 0 && Text.Trim(reason) != [] then
      if item.quantity + parsedChange.value < 0 then Rejected
      else Adjust(item, parsedChange.value, Text.Trim(reason))
    else NoAction
  }

  /** An adjustment that got through the form leaves every item's stock
      non-negative, provided the form was opened on an item of the
      inventory and item ids are distinct. */
  lemma GuardedAdjustKeepsStock(shop: Ledger.State, item: Item, parsedChange: Option<int>, reason: string, f: Fresh)
    requires item in shop.items && DistinctIds(shop.items)
    requires forall k :: 0 <= k < |shop.items| ==> shop.items[k].quantity >= 0
    requires HandleAdjust(item, parsedChange, reason).Adjust?
    ensures var o := HandleAdjust(item, parsedChange, reason);
            var r := Ledger.AdjustStock(shop, o.item, o.change, o.reason, f);
            forall k :: 0 <= k < |r.items| ==> r.items[k].quantity >= 0
  {
    var o := HandleAdjust(item, parsedChange, reason);
    var r := Ledger.AdjustStock(shop, o.item, o.change, o.reason, f);
    forall k | 0 <= k < |r.items| ensures r.items[k].quantity >= 0 {
      if shop.items[k].id == item.id {
        var m :| 0 <= m < |shop.items| && shop.items[m] == item;
        assert m == k;
      }
    }
  }
}
