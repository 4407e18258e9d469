# Auto-parts shop dashboard: the in-memory computations

This Dafny project models the three pieces of logic in the shop dashboard that
compute something themselves, rather than calling the hosted database:

- **Bill editor** (`src/pages/BillingEdit.tsx`, module `BillingEdit`). The class
  `BillEditor` holds the editing page's state. That state is the header text
  fields plus the list of line items (`seq<BillItem>`). Each UI handler is a
  method: load, set GSM, set quantity, set price, delete row, add item, and the
  three header setters. `Save` computes what "Save Changes" sends: the header
  with `total_amount` recomputed as Σ quantity × price (`SaveTotal`), and the
  replacement `bill_items` rows (`ItemsToInsert`).
- **Inventory summary** (`src/components/Dashboard.tsx`, module `Dashboard`).
  This module holds the part count, the inventory value Σ (cost or 0) × stock,
  and the total profit Σ (sell − cost) × stock. It also holds the low-stock list
  (`stock < minimum_stock`) and the red "critical" highlight of its rows.
- **Profit ledger** (`src/pages/ProfitDashboard.tsx`, module `ProfitDashboard`).
  The parts are filtered by category and GSM, where a blank filter lets
  everything through. They are then projected to ledger rows and totalled on four
  summary cards. The result is charted as a single data point.

Two helper modules hold the list operations the pages use: `Folds` (JavaScript's
`reduce` adding terms from 0, over exact reals) and `Filters` (`filter` and an
order-preserving subsequence predicate). `Wrappers` has `Option`, plus the
JavaScript `x || 0` and `s || default` defaults applied to nullable columns.

`BillingEdit.EditScenario` is a worked example. It loads a bill with items
2 × 100 and 1 × 50, changes the first quantity to 3, and checks that row's total
becomes 300 at once. The header total of 350 appears only in what a save sends.

Money is `real`, so sums are exact. Stock, minimum stock and quantities are `int`.
Nullable columns are `Option`.

Three behaviours of the code worth noting:

- Save computes the header total from quantity × price, not from the rows' stored
  totals. `StaleTotalIsNotSaved` shows the two can differ for a row loaded with a
  stale total.
- `status || "Paid"` also turns an empty status string into "Paid", not only a
  null one.
- The low-stock count is the length of the filtered list. Duplicate rows are
  counted each time.

## Model

| member | source | states |
|---|---|---|
| Wrappers.OrZero | src/components/Dashboard.tsx:61 | a null number reads as 0; a present one as itself |
| Wrappers.OrDefault | src/pages/BillingEdit.tsx:65-66 | a null or empty string gives the default; any other string is kept |
| Folds.Reduce | src/components/Dashboard.tsx:60-63 | `reduce` adding terms onto a start value returns the start value for no elements; `Folds.ReduceFrom` shows the start value is only added on, and `Folds.ReduceNonDecreasing` that non-negative terms never lower it |
| Filters.Filter | src/components/Dashboard.tsx:73 | the result is no longer than the input; it holds only input elements that pass, and every passing input element |
| Dashboard.Summarize | src/components/Dashboard.tsx:58-74 | the cards show the part count, `InventoryValue`, `TotalProfit` and the `LowStockParts` list of the same snapshot; the low-stock count is that list's length, equals the number of parts with stock below minimum, and is at most the part count |
| Dashboard.InventoryValue | src/components/Dashboard.tsx:60-63 | the inventory value is 0 for no parts and is never negative while no cost and no stock is negative; `InventoryValueIsSum` gives the term-by-term sum |
| Dashboard.TotalProfit | src/components/Dashboard.tsx:66-71 | total profit is 0 for no parts and always equals Σ sell × stock minus the inventory value; `TotalProfitIsSum` gives the term-by-term sum |
| Dashboard.InventoryValueIsSum | src/components/Dashboard.tsx:60-63 | the inventory value is 0 for no parts, otherwise (cost or 0) × stock of the first part plus the value of the rest |
| Dashboard.TotalProfitIsSum | src/components/Dashboard.tsx:66-71 | total profit is 0 for no parts, otherwise (sell or 0 − cost or 0) × stock of the first part plus the profit of the rest |
| Dashboard.LowStockParts | src/components/Dashboard.tsx:73 | the low-stock list holds every part with stock < minimum, only such parts (a part at its minimum is excluded), in their original order; its length is the number of such parts, duplicates included |
| Dashboard.IsCritical | src/components/Dashboard.tsx:167 | stock ≤ minimum / 2 on reals iff 2 × stock ≤ minimum on integers |
| Dashboard.LowStockTable | src/components/Dashboard.tsx:163-170 | one dialog row per low-stock part, in order; a row is highlighted iff 2 × stock ≤ minimum |
| Dashboard.CriticalRowsAreLowStock | src/components/Dashboard.tsx:163-170 | every highlighted or plain dialog row is a snapshot part below its minimum, and it is highlighted exactly when 2 × stock ≤ minimum |
| Dashboard.OnePartExample | src/components/Dashboard.tsx:58-74 | cost 10, sell 15, stock 5, minimum 10 gives inventory value 50, profit 25, one low-stock part |
| ProfitDashboard.Matches | src/pages/ProfitDashboard.tsx:65-69 | a part passes iff (category filter blank or equal to its category) and (GSM filter blank or equal to its GSM); a null category fails a non-blank filter |
| ProfitDashboard.FilteredParts | src/pages/ProfitDashboard.tsx:64-70 | the filtered list holds every snapshot part passing both filters and nothing else, as an order-preserving subsequence of the snapshot, and in the same number: its length is the count of passing snapshot parts, so a duplicated passing part appears as often as in the snapshot |
| ProfitDashboard.BlankFiltersKeepAll | src/pages/ProfitDashboard.tsx:64-70 | with both filters blank the filtered list is the whole snapshot |
| ProfitDashboard.RefilterChangesNothing | src/pages/ProfitDashboard.tsx:64-70 | filtering the filtered list again with the same filters changes nothing |
| ProfitDashboard.UnknownCategoryEmptiesLedger | src/pages/ProfitDashboard.tsx:64-93 | a non-blank category that no part carries gives an empty ledger |
| ProfitDashboard.ToLedgerRow | src/pages/ProfitDashboard.tsx:76-91 | a row keeps the part's id, GSM, category and stock; cost = cost_price or 0, price = price or 0, profit per piece = price − cost, total profit = profit per piece × stock; its cost × stock, price × stock and total profit are the inventory dashboard's per-part terms |
| ProfitDashboard.Ledger | src/pages/ProfitDashboard.tsx:75-93 | one ledger row per filtered part, in the same order |
| ProfitDashboard.SummarizeLedger | src/pages/ProfitDashboard.tsx:98-103 | all four totals are 0 for an empty ledger; over rows whose profit per piece is price − cost and whose total profit is that × stock, total profit = net profit − total cost |
| ProfitDashboard.LedgerMatchesDashboard | src/pages/ProfitDashboard.tsx:98-101 | for the same parts, total cost = inventory value, total profit = the dashboard's total profit, net profit = Σ sell × stock |
| ProfitDashboard.ProfitPerPieceWhenUnitStock | src/pages/ProfitDashboard.tsx:103 | when every part has stock 1, the per-piece sum equals the total profit |
| ProfitDashboard.ProfitPerPieceIsUnweighted | src/pages/ProfitDashboard.tsx:103 | one part with profit 5 per piece and stock 2 shows 5 per piece against a total profit of 10 |
| ProfitDashboard.ChartData | src/pages/ProfitDashboard.tsx:108-115 | exactly one chart point, labelled "Inventory", whose profit, expense and net are the summary totals |
| ProfitDashboard.UnfilteredMatchesDashboard | src/pages/ProfitDashboard.tsx:98-115 | with no filters, total cost and the chart's expense equal the dashboard's inventory value; total profit and the chart's profit equal the dashboard's total profit |
| BillingEdit.ItemsToInsert | src/pages/BillingEdit.tsx:125-131 | one inserted row per item, in order, tagged with the bill id, with the item's GSM, quantity, price and total |
| BillingEdit.SaveTotal | src/pages/BillingEdit.tsx:104-107 | the header total is 0 for no items; while every row's total is quantity × price it equals the sum of the rows' stored totals; `TwoItemExample`, `SaveTotalAfterRemove` and `SaveTotalAfterAppend` give its values |
| BillingEdit.RemoveAt | src/pages/BillingEdit.tsx:280 | removing an in-range position leaves the rows before and after it in order; an out-of-range position changes nothing |
| BillingEdit.InsertedTotal | src/pages/BillingEdit.tsx:125-131 | the inserted rows' totals sum to the items' stored totals |
| BillingEdit.SavedTotalsAgree | src/pages/BillingEdit.tsx:104-131 | if every row's total is quantity × price, the inserted rows' totals sum to the header total the save writes |
| BillingEdit.StaleTotalIsNotSaved | src/pages/BillingEdit.tsx:104-131 | a row stored with total 0 for 2 × 100 saves header total 200 but inserted totals summing to 0 |
| BillingEdit.TwoItemExample | src/pages/BillingEdit.tsx:104-107 | items 2 × 100 and 1 × 50 save a header total of 250 |
| BillingEdit.SaveTotalAfterRemove | src/pages/BillingEdit.tsx:279-281 | deleting a row lowers the save total by that row's quantity × price |
| BillingEdit.SaveTotalAfterAppend | src/pages/BillingEdit.tsx:307-317 | appending the blank row leaves the save total unchanged |
| BillingEdit.BillEditor.constructor | src/pages/BillingEdit.tsx:40-44 | the page starts with empty name and payment mode, status "Paid", no items, loading |
| BillingEdit.BillEditor.Load | src/pages/BillingEdit.tsx:50-91 | a missing bill changes nothing; a found bill sets the name and sets payment mode (null or "" → "") and status (null or "" → "Paid"); an item query error keeps the old items, null item data gives none; loading ends |
| BillingEdit.BillEditor.SetCustomerName | src/pages/BillingEdit.tsx:163 | the customer name becomes the typed text; nothing else changes |
| BillingEdit.BillEditor.SetPaymentMode | src/pages/BillingEdit.tsx:174 | the payment mode becomes the selected value; nothing else changes |
| BillingEdit.BillEditor.SetStatus | src/pages/BillingEdit.tsx:189 | the status becomes the selected value; nothing else changes |
| BillingEdit.BillEditor.SetGsm | src/pages/BillingEdit.tsx:226-229 | only row i's GSM changes; its quantity, price and total, the other rows, the length and the save total are unchanged; consistency is preserved |
| BillingEdit.BillEditor.SetQuantity | src/pages/BillingEdit.tsx:242-247 | row i gets the new quantity and total = new quantity × its price; other rows and the length are unchanged; consistency is preserved; the save total moves by the row's change |
| BillingEdit.BillEditor.SetPrice | src/pages/BillingEdit.tsx:260-265 | row i gets the new price and total = its quantity × new price; other rows and the length are unchanged; consistency is preserved; the save total moves by the row's change |
| BillingEdit.BillEditor.DeleteRow | src/pages/BillingEdit.tsx:279-281 | exactly row i is removed, the rest keep their order, the length drops by one, consistency is preserved |
| BillingEdit.BillEditor.AddItem | src/pages/BillingEdit.tsx:307-317 | the blank row (GSM "", quantity 1, price 0, total 0) is appended; existing rows, consistency and the save total are unchanged |
| BillingEdit.BillEditor.Save | src/pages/BillingEdit.tsx:101-131 | the header sent carries the current name, payment mode, status and Σ quantity × price; the rows are the items mapped one-for-one; if every row is consistent, the rows' totals sum to the header total |

## Left out

- Database calls are not modelled. This covers the bill, item and parts fetches, the header update, the item delete and the item insert. Only the values computed before they are sent are modelled. `Load` receives the two query results as parameters. The non-atomic update → delete → insert sequence, and its unchecked delete result, are not modelled.
- Toasts, console logging, navigation after save and the `loading` render branch are presentation.
- Numbers are exact reals, not JavaScript doubles. NaN and `toFixed(2)` formatting are not modelled.
- The handlers receive already-parsed values. Parsing of typed text with `Number(...)` is not modelled. Quantity is an `int`, although a typed value can be fractional. The inputs' `min` attributes are not enforced, so any quantity or price is accepted.
- `String(item.gsm_number)` is the identity on the modelled `string` GSM. A null GSM turning into `"null"` is not modelled.
- BillingEdit.BillEditor.SetGsm, SetQuantity and SetPrice: the source copies the array shallowly and mutates a shared row object. The model updates the sequence element as a value, so React state aliasing and re-render timing are not captured.
- BillingEdit.BillEditor.Load: a thrown error other than the item query's own error (for example a network failure during the first query) is not modelled.
- The parts' manufacturer, unit and location columns are not modelled. No computation reads them.
- The chart point's `label` key is called `name` here, because `label` is a Dafny keyword.
- The authentication service, route gate, logout, routing table, client configuration and bill list page are not modelled. They are library wrappers, browser storage and presentation.
- Chart rendering, dialogs, the filter selects' option lists and the ledger's empty-state row are not modelled. They are rendering only.
