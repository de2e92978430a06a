# Shop ledger model

A Dafny model of the bookkeeping core of a single-user small-shop
inventory application. The shop keeps two collections: inventory items and
a transaction log, newest first. Four ledger operations change them:
sale, purchase (new item or restock), expense and stock adjustment. Each
operation adds one transaction at the head of the log. A reporting step
filters the log by an inclusive date range and aggregates revenue, cost of
goods sold, operating expenses, purchases, outflows and gross and net
profit.

The ledger operations in `App.tsx` validate nothing. The forms in front of
them do: the sale cart, the stock-adjustment form, the purchase form and
the expense form. The guarantee that stock never goes negative therefore
spans several files. Module `Shop` states it and proves it. Every user
action is the form's check followed by the ledger operation. Every
admissible action keeps this invariant:

- item ids are distinct;
- stock and prices are non-negative;
- every transaction is well formed;
- every line names a known item;
- every item's stock equals the net change the log records for it.

Modules, following the source layout:

- `Types` (types.ts): items, the four transaction kinds, line items,
  transactions, and the field meanings as `WellFormed`.
- `Report` (App.tsx, filter and summary): the date filter and the
  financial summary.
- `Ledger` (App.tsx, handlers): `addTransaction` and the four operations.
- `SaleCart` (NewSaleModal.tsx): search, cart operations, total, confirm.
- `AdjustGate`, `PurchaseForm`, `ExpenseGate`: the accept/reject logic of
  the three other forms.
- `Shop`: a form check followed by its ledger operation, and the
  cross-file invariant.
- `Scenarios`: worked examples of whole actions.
- `Wrappers`, `Seqs`, `Text`: Option, subsequence, `trim`/`includes` and
  integer rendering.

Modelling choices:

- Money is an integer count of minor units. Time is integer milliseconds.
- What `parseInt`/`parseFloat` return is an input. `None` stands for NaN.
- `toLowerCase` is a function parameter.
- The end-of-day bound is computed for a fixed local offset from UTC.
- Fresh ids and the clock reading come in as a `Fresh` parameter.

## Model

| member | source | states |
|---|---|---|
| Types.LabelRoundTrip | types.ts:10-15 | there are exactly four transaction kinds with distinct stored labels, and each label parses back to its kind |
| Types.ParseLabel | types.ts:10-15 | a stored label that parses denotes the kind whose label it is |
| Types.WellFormed | types.ts:17-31 | a well-formed record has a non-negative amount, carries cogs exactly when it is a sale and has no line list exactly when it is an expense |
| Text.TrimStart | components/AdjustStockModal.tsx:17 | only leading white space is cut, and the result does not start with white space |
| Text.TrimEnd | components/AdjustStockModal.tsx:17 | only trailing white space is cut, and the result does not end with white space |
| Text.Trim | components/AdjustStockModal.tsx:17 | trim yields a string no longer than its input that neither starts nor ends with white space |
| Text.TrimIsSlice | components/AdjustStockModal.tsx:17 | trim yields a contiguous slice of its input, with only white space cut away before and after it |
| Text.AllSpaceTrimsAway | components/NewExpenseModal.tsx:15 | a string of white space only loses everything to trimming |
| Text.BlankIffAllSpace | components/NewExpenseModal.tsx:15 | a string is blank after trimming exactly when it is all white space |
| Text.TrimIdempotent | components/AdjustStockModal.tsx:22 | a trimmed reason or description is unchanged by trimming again |
| Text.IncludesIffOccurs | components/NewSaleModal.tsx:32 | includes holds exactly when the query occurs at some position of the name |
| Text.NatToString | App.tsx:127 | the decimal rendering of a count is a non-empty digit string without a leading zero whose digits, read left to right, denote the count |
| Text.IntToString | App.tsx:180 | the rendering of an integer starts with a minus sign exactly when it is negative, and after the sign come digits without a leading zero that denote its magnitude |
| Report.EndOfDay | App.tsx:76-79 | the end bound is the last millisecond of the end date's local day, no earlier than the date and less than a day after it |
| Report.Filter | App.tsx:71-84 | the filtered log is an order-preserving subsequence of the log holding exactly the transactions at or after start and at or before end of day |
| Report.FilterCount | App.tsx:71-84 | the filter keeps every copy of a transaction inside the range and drops every copy of one outside it |
| Report.FilterUnbounded | App.tsx:74-80 | with no start and no end the filter keeps the whole log |
| Report.FilterIdempotent | App.tsx:71-84 | filtering an already filtered log with the same bounds changes nothing |
| Report.EndBoundary | App.tsx:76-80 | a transaction at 23:59:59.999 of the end day passes, one a millisecond later does not, one at the end date itself passes |
| Report.OfKind | App.tsx:88 | the kind filter is an order-preserving subsequence keeping every copy of each transaction of that kind and no other |
| Report.SumOfKind | App.tsx:87-98 | filter-then-reduce over a kind equals the one-pass sum of amounts of that kind over the list |
| Report.CogsOfSales | App.tsx:90-92 | summing cogs over sales, a missing cogs as 0, equals the one-pass sum of the sales' cogs |
| Report.FinancialSummary | App.tsx:86-105 | revenue is the sum of sale amounts, cogs the sum of sale cogs, operating expenses the sum of expense amounts, outflows expenses plus purchases, gross profit revenue minus cogs, net profit gross profit minus expenses |
| Report.FilterTotal | App.tsx:71-98 | summing a figure over the filtered log equals summing it over the log's transactions inside the range |
| Report.SummaryFor | App.tsx:71-105 | each figure the dashboard shows is summed over the transactions inside the date range only, profits are derived from them, and with no range set it is the summary of the whole log |
| Report.TotalAppend | App.tsx:87-98 | every figure over two lists is the sum of the figure over each |
| Report.SummaryOrderIndependent | App.tsx:87-104 | any rearrangement of the transactions yields the same summary |
| Report.TotalPermutation | App.tsx:87-98 | every figure is the same for any rearrangement of the transactions |
| Report.AdjustmentInvisible | App.tsx:87-98 | a stock adjustment changes no figure of the summary |
| Report.SummarySigns | App.tsx:87-100 | over well-formed transactions revenue, cogs, operating expenses and outflows are non-negative |
| Report.TotalNonNegative | App.tsx:87-98 | over well-formed transactions no figure summed from them is negative |
| Report.WorkedSummary | App.tsx:100-104 | a sale of 100 with cogs 40, a purchase of 30 and an expense of 10 give revenue 100, cogs 40, outflows 40, gross profit 60, net profit 50, expenses 10 |
| Ledger.AddTransaction | App.tsx:117-119 | exactly one record with the fresh id and timestamp and the draft's fields is put in front of the unchanged previous log |
| Ledger.SaleLines | App.tsx:130-135 | one line per cart entry, with the entry's item id, name and quantity and the selling price as unit price |
| Ledger.SaleLinesTotal | App.tsx:122-135 | the sale's recorded amount equals the total of its recorded lines |
| Ledger.SaleLinesQuantity | App.tsx:130-145 | the lines of a sale record, per item, exactly the quantity the sale takes out of it |
| Ledger.SaleTotalsNonNegative | App.tsx:122-123 | with non-negative prices and quantities, revenue and cogs of a sale are non-negative |
| Ledger.FindIndex | App.tsx:141 | findIndex yields -1 exactly when no item has the id, and otherwise the first position with it |
| Ledger.DecrementFirst | App.tsx:141-144 | only the first item with the id loses the quantity, nothing else about any item changes, and a missing id changes nothing |
| Ledger.SoldAbsent | App.tsx:140-145 | a sale with no entry for an item sells none of it |
| Ledger.FindIndexByIds | App.tsx:141 | findIndex gives the same position in two inventories with the same ids in the same order |
| Ledger.DecrementThenRest | App.tsx:140-145 | decrementing for the first entry and then for the rest of the sale takes out of each item what the whole sale takes |
| Ledger.ApplySale | App.tsx:138-147 | only stock levels change, and the item at each position loses what was sold of its id when it is the first item with that id and nothing otherwise |
| Ledger.ApplySaleUntouched | App.tsx:138-147 | an item that no entry of the sale names comes through the sale unchanged |
| Ledger.ApplySaleDistinct | App.tsx:138-147 | with distinct item ids every item loses exactly the quantity sold of it |
| Ledger.SaleDescription | App.tsx:127 | the sale is described as "Sale of N item types" where N is the number of cart entries written as decimal digits without a leading zero |
| Ledger.NewSale | App.tsx:121-147 | a sale logs revenue, cogs and one line per entry priced at selling price, its recorded stock change is minus the quantity sold, the first item with each id loses what was sold of it and later duplicates nothing, and with distinct ids each item's stock drops by what was sold of it, and the record is described as "Sale of N item types" |
| Ledger.PurchaseItemId | App.tsx:155 | the purchase's item id is the given id unless that is absent or empty, then the generated one |
| Ledger.Restock | App.tsx:161 | items with the given id gain the quantity and take the new purchase price; all others are unchanged |
| Ledger.NewPurchase | App.tsx:152-169 | a new item is appended with the given fields, or a restock adds quantity and overwrites only the purchase price; one purchase of price times quantity with a single line is logged, described as "Purchased" and the name |
| Ledger.NewExpense | App.tsx:174-177 | an expense leaves the inventory unchanged and logs a record with the amount, no cogs and no lines |
| Ledger.ChangeText | App.tsx:180 | a positive change is shown as a plus sign and its digits, a negative one as a minus sign and the digits of its magnitude, zero as "0", with no leading zero after the sign |
| Ledger.AdjustStock | App.tsx:179-190 | an adjustment logs amount 0 with the single line of quantity change and unit price 0, and adds the change to the items with the adjusted id only; the record is described as "Adjusted <name> by <signed change>. Reason: <reason>" |
| Ledger.AdjustStockUnguarded | App.tsx:188 | the ledger alone lets an adjustment drive stock below zero |
| SaleCart.Min | components/NewSaleModal.tsx:40 | the minimum is one of its arguments and no larger than either |
| SaleCart.SearchResults | components/NewSaleModal.tsx:26-34 | an empty query finds nothing; otherwise exactly the in-stock items whose lower-cased name contains the lower-cased query, each as often as in the inventory and in inventory order |
| SaleCart.Matching | components/NewSaleModal.tsx:30-33 | the kept items are exactly the in-stock items whose lower-cased name contains the query, each as often as in the inventory, in order |
| SaleCart.FindEntry | components/NewSaleModal.tsx:38 | find yields -1 exactly when no entry has the id, and otherwise the first entry with it |
| SaleCart.SetQuantity | components/NewSaleModal.tsx:41-43 | entries with the id get the new quantity and all others are kept |
| SaleCart.RemoveItem | components/NewSaleModal.tsx:70-72 | remove keeps, in order, exactly the entries for other items |
| SaleCart.RemoveItemCount | components/NewSaleModal.tsx:70-72 | remove keeps every entry for another item as many times as the cart has it, and none for the removed id |
| SaleCart.AddItem | components/NewSaleModal.tsx:36-47 | a new item is appended with quantity 1; an item already in the cart goes to min(quantity + 1, stock) and the other entries are kept |
| SaleCart.ChangeQuantity | components/NewSaleModal.tsx:52-68 | an unknown id changes nothing; a result at or below zero removes the entry; otherwise it is clamped to the item's stock and the other entries are kept |
| SaleCart.Total | components/NewSaleModal.tsx:74-76 | the running total of the cart is the sum over its entries of selling price times quantity |
| SaleCart.TotalFromShift | components/NewSaleModal.tsx:74-76 | the left-to-right running total from any start value is that value plus the sale's revenue |
| SaleCart.TotalIsRecordedAmount | components/NewSaleModal.tsx:74-76 | the total the form shows is the amount the sale records |
| SaleCart.Confirm | components/NewSaleModal.tsx:78-82 | the cart is passed on exactly when it is not empty |
| SaleCart.SearchResultAddable | components/NewSaleModal.tsx:30-33 | every search result is an inventory item with stock |
| SaleCart.EmptyCartInv | components/NewSaleModal.tsx:18 | the cart the form opens with, the empty one, satisfies the cart invariant |
| SaleCart.AddItemKeepsInv | components/NewSaleModal.tsx:36-47 | adding a searchable item keeps entry ids distinct and every quantity between 1 and the item's stock |
| SaleCart.ChangeQuantityKeepsInv | components/NewSaleModal.tsx:52-68 | changing a quantity keeps entry ids distinct and every quantity between 1 and the item's stock |
| SaleCart.RemoveItemKeepsInv | components/NewSaleModal.tsx:70-72 | removing an item keeps the cart invariant |
| SaleCart.SubsequenceKeepsInv | components/NewSaleModal.tsx:60 | any order-preserving selection of a valid cart is a valid cart |
| AdjustGate.HandleAdjust | components/AdjustStockModal.tsx:15-24 | nothing happens for a missing or zero change or a blank reason; a change that would take the stock below zero is refused; otherwise the adjustment is called with the item, the change and the trimmed reason |
| AdjustGate.GuardedAdjustKeepsStock | components/AdjustStockModal.tsx:18-22 | an adjustment that passed the form leaves every stock level non-negative |
| PurchaseForm.Prefill | components/NewPurchaseModal.tsx:19-32 | a restock copies name and both prices from the first inventory item with the selected id; an unknown selection changes nothing; a new item or no selection clears name and prices; quantity is kept |
| PurchaseForm.Submit | components/NewPurchaseModal.tsx:34-49 | the payload is sent exactly when the trimmed name is non-empty, the quantity positive and both prices non-negative; its id is absent for a new item and the selection on restock; the untrimmed name and the numbers pass unchanged |
| PurchaseForm.PrefillSettles | components/NewPurchaseModal.tsx:19-32 | choosing a mode and a listed item leaves the form settled |
| PurchaseForm.SettledRestockNamesItem | components/NewPurchaseModal.tsx:39-41 | a restock that gets through a settled form names an existing, non-empty item id |
| ExpenseGate.Submit | components/NewExpenseModal.tsx:13-18 | the expense is sent exactly when the trimmed description is non-empty and the amount positive; the trimmed description and the amount are passed on |
| ExpenseGate.SubmittedExpenseWellFormed | components/NewExpenseModal.tsx:14-16 | every expense recorded through the form has a positive amount, no cogs and no lines |
| Shop.Step | App.tsx:320-323 | a refused action changes nothing; an accepted one adds exactly one transaction and keeps the old log as its tail |
| Shop.StepKeepsInv | App.tsx:121-190 | each admissible action keeps ids distinct, stock and prices non-negative, transactions well formed and naming known items, and stock equal to the log's net change |
| Shop.RunKeepsInv | App.tsx:121-190 | any admissible run of actions keeps the invariant, so no stock level ever goes negative |
| Shop.EmptyShopInv | App.tsx:32-47 | the empty shop the application starts from satisfies the invariant |
| Shop.LineQuantityAbsent | types.ts:17-22 | lines that never name an item record no change for it |
| Shop.NetDeltaUnreferenced | types.ts:24-32 | a log that never names an item records no net change for it |
| Shop.UnknownIdNetZero | App.tsx:155-159 | in an intact shop, an id no item has carries no recorded stock change |
| Shop.SoldWithinStock | components/NewSaleModal.tsx:40-65 | a cart built against the inventory never sells more of an item than its stock |
| Shop.SaleKeepsInv | App.tsx:121-147 | a confirmed sale keeps the shop invariant |
| Shop.SaleRecordWellFormed | App.tsx:125-136 | a confirmed sale's record is well formed with non-negative amount and cogs |
| Shop.SaleStockNonNegative | App.tsx:138-147 | a confirmed sale leaves every stock level non-negative |
| Shop.SaleRefsKnown | App.tsx:130-135 | a confirmed sale's lines name only known items |
| Shop.CartLinesKnown | App.tsx:130-135 | the lines of a sale from a cart built against the inventory name only inventory items |
| Shop.SaleStock | App.tsx:138-147 | after a sale every item's stock still equals the net change the log records for it |
| Shop.NewPurchaseKeepsInv | App.tsx:157-159 | a new-item purchase with a fresh id keeps the shop invariant |
| Shop.NewItemStock | App.tsx:157-159 | after a new-item purchase the new item's stock is its purchased quantity, all the log records for its fresh id |
| Shop.RestockKeepsInv | App.tsx:160-162 | a restock of a known item keeps the shop invariant |
| Shop.RestockStock | App.tsx:160-162 | after a restock every item's stock still equals the net change the log records for it |
| Shop.ExpenseKeepsInv | App.tsx:174-177 | an expense with a positive amount keeps the shop invariant |
| Shop.AdjustKeepsInv | App.tsx:179-190 | an adjustment that leaves the adjusted item non-negative keeps the shop invariant |
| Shop.AdjustOnlyStock | App.tsx:188 | an adjustment changes nothing about any item but its stock level |
| Shop.AdjustStockMatches | App.tsx:179-190 | after an adjustment every item's stock still equals the net change the log records for it |
| Scenarios.NewItemPurchase | App.tsx:152-169 | buying ten new widgets at 2 into an empty shop creates the item and logs one purchase of 20 |
| Scenarios.SaleOfThree | App.tsx:121-147 | selling three of ten widgets at 5 with cost 2 leaves seven and logs revenue 15 and cogs 6 |
| Scenarios.OverSellClamped | components/NewSaleModal.tsx:63 | asking for more than the stock clamps the cart quantity to the stock instead of failing |
| Scenarios.WriteOff | App.tsx:179-190 | writing off all seven widgets leaves none and logs amount 0 with a line of -7 |
| Scenarios.WriteOffTooMany | components/AdjustStockModal.tsx:18-21 | writing off more than the stock is refused and changes nothing |

## Left out

- Loading and saving through `localStorage`, with JSON date revival (App.tsx:20-69). This is browser I/O. The save/load round trip is not modelled.
- PDF report generation (App.tsx:192-265). It goes through a foreign library. `formatCurrency` and `formatDate` are not part of this model.
- Rendering, modal open/close state and the other components: header, dashboard, lists, filter controls, export dialog. They are presentation only. The unused `LedgerView` and `AddItemForm` and the `LedgerEntry` type they use are also left out. So is the server stub `app.py`.
- Disabled buttons (`canSubmit`, and the sale form's "+" at full stock). Every submit handler re-checks its inputs, and the cart clamps, so the disabled state adds nothing to the model.
- Floating-point money. Amounts are exact integers in minor units, so rounding is not modelled.
- Floating-point stock. Quantities and stock changes are JavaScript numbers in the source. The model takes them as exact, unbounded integers. The updates `quantity -= si.quantity` (App.tsx:143), `item.quantity + quantity` (App.tsx:161) and `i.quantity + change` (App.tsx:188) are exact only below 2^53.
- Text.IntToString: matches `${n}` only for |n| < 10^21. From 10^21 on, JavaScript writes numbers in exponent notation ("1e+21"). So `Ledger.ChangeText` and `Ledger.SaleDescription` match the source only below that bound.
- Number parsing. `parseInt`/`parseFloat` results are inputs, with None for NaN. The prefill assumes `parseFloat(String(x))` gives back `x`.
- Case folding. `toLowerCase` is an arbitrary function parameter.
- Daylight saving. `Report.EndOfDay` uses a fixed offset from UTC. `setHours` follows the local calendar, which can shift across a daylight-saving change.
- Id generation from `Date.now()`. Ids and timestamps are parameters. One clock reading serves as both a new item's creation time and its purchase's timestamp. `Shop.Admissible` assumes a new item's id is not in use. The source does not guarantee this.
- The sale handler mutates shared item objects in place (App.tsx:143). The model is functional. Aliasing effects, including a repeated run of the state updater, are not modelled.
- Shop.StepKeepsInv: holds only under `Shop.Admissible`. That predicate assumes four things. The cart was built against the current inventory. The purchase form is in the state its prefill leaves. The adjustment form was opened on an inventory item. The id generated for a new item is not already in use; the interface does not guarantee this one (see the line on id generation).

Where the code does less than a shop ledger might be expected to, the model follows the code:

- No start-of-day start bound: the start date is compared as given. Unlike the end date, it is not normalised to a boundary of its day.
- An error on over-selling: a sale asking for more than the stock is not rejected when it is committed. The cart clamps the quantity to the stock instead (`Scenarios.OverSellClamped`).
- The ledger operations validate nothing (`Ledger.AdjustStockUnguarded`). All checks live in the forms.
- A restock with an absent or empty id falls back to a generated id and changes no item. It does not fail. `PurchaseForm.SettledRestockNamesItem` shows the form never sends one.
