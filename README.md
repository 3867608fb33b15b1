# Bakery point of sale: a verified model

This project models the logic of a bakery's point-of-sale front end in Dafny. It covers five parts.

- **Central store.** This is the cart, the inventory records, the order ledger and the sales clock. The operations are adding, removing and re-quantifying cart lines, overriding a stock figure, and placing an order. Placing an order freezes the cart into an order snapshot, draws stock-managed products down, prepends the order to the ledger and empties the cart.
- **Point-of-sale screen.** This covers:
  - the time-of-day gates: alcohol from 17:00, eat-in until 20:30;
  - the forced switch from eat-in to takeaway;
  - the checks made when a product tile is tapped;
  - the search and category filter;
  - the exact-cash checkout.
- **Inventory page.** Each catalog product is merged with its stock record. The page raises a low-stock flag and suggests a reorder quantity. A factory restock request moves from PENDING to DELIVERED or CANCELLED; delivery writes the live stock plus the requested quantity back into the store.
- **History page.** The daily summary groups the ledger by calendar day, newest first, with eat-in and takeaway takings. The product analysis totals pieces and sales per product, highest sales first.
- **Dashboard.** It shows today's takings and order count, the average ticket and the low-stock alert list. It also shows a 24-bucket hourly histogram, the eat-in / takeaway split, and the five best sellers.

Modules, one per part of the program:

| module | file | models |
|---|---|---|
| `Catalog` | catalog.dfy | record shapes: product, stock record, order, order line, cart line; the clock reading; `isStockManaged`; the `find` lookups |
| `CartLines` | cart.dfy | the cart updates behind `addToCart`, `updateCartQuantity` and `removeFromCart`, and the cart totals |
| `StoreContext` | store.dfy | the order snapshot, the stock draw-down, `updateInventory`, and the class `Store` holding the store state |
| `PointOfSale` | pos.dfy | the gates, the tile checks, the filter, and the class `PosScreen` |
| `InventoryPage` | inventory.dfy | merged rows, the low-stock flag, the suggested quantity, the request lifecycle, and the class `RestockScreen` |
| `Ledger` | ledger.dfy | sums and groupings shared by the reports, the conservation lemma for grouped sums, and the descending sort |
| `HistoryReport` | history.dfy | the daily summary and the product analysis with their loops over a map |
| `DashboardReport` | dashboard.dfy | today's figures, the alert list, the hourly histogram, the type split and the top five |

Modelling conventions:

- **Time.** A clock reading is `Instant(day, hour, minute)`, with hour in 0..23 and minute in 0..59. `day` is an abstract ordered key for the calendar day. It stands for both `toLocaleDateString` (History) and `toDateString` (Dashboard). Wall-clock reads (`new Date()`) become parameters.
- **Collections.** Mutable lists (cart, inventory, orders, requests) are `seq` fields of a class that its methods reassign. The report loops keep a `map` plus the sequence of its keys in insertion order, which is what `Array.from(map.values())` returns. The hourly histogram is an `array` of 24 buckets.
- **Sort.** Each report's `sort` is an insertion sort with the same comparator. It is proved sorted and a permutation of its input.
- **Numbers.** Money and quantities are unbounded integers (whole yen, whole pieces).

## Model

| member | source | states |
|---|---|---|
| Catalog.IsStockManaged | src/store/StoreContext.tsx:62-66 | a product is stock-managed exactly when it is neither a drink nor alcohol; a missing product is handled by its callers (`ManagedInCatalog`, `ClickCheck`), whose contracts and `DeductAllEffect` state its effect |
| Catalog.FindProduct | src/store/StoreContext.tsx:101 | `products.find`: a found product is in the list with that id; none is found exactly when no product has that id |
| Catalog.RecordIndex | src/store/StoreContext.tsx:156 | `findIndex`: the index is the first record with that id; none exactly when no record has it |
| Catalog.FindRecord | src/store/StoreContext.tsx:74 | `inventory.find`: a found record is in the list and has that id; none exactly when no record has it |
| CartLines.FindLine | src/store/StoreContext.tsx:70 | `prev.find` on the cart: a found line is in the cart with that id; none exactly when the id is not in the cart |
| CartLines.AddLine | src/store/StoreContext.tsx:68-88 | adding a product leaves the cart's id set as the old set plus that id; either no line is added or exactly the line (product, 1) is appended |
| CartLines.AddAppendsNewLine | src/store/StoreContext.tsx:70-86 | a product not in the cart gets one new line of quantity 1 at the end; every earlier line stays as it was |
| CartLines.AddToExistingLine | src/store/StoreContext.tsx:71-84 | a product already in the cart is blocked (cart unchanged) exactly when it is stock-managed, has a record, and its line already holds at least the record's quantity; otherwise only its line grows by 1 |
| CartLines.AddKeepsWellFormed | src/store/StoreContext.tsx:68-88 | adding keeps line ids pairwise distinct and quantities positive |
| CartLines.UpdateQuantityLines | src/store/StoreContext.tsx:94-116 | the quantity update never adds or removes a line, keeps every line's product, and leaves lines with other ids untouched |
| CartLines.UpdateQuantityOutcome | src/store/StoreContext.tsx:96-113 | for the matching line: unchanged when quantity+delta <= 0, unchanged when the new quantity exceeds a stock-managed catalog product's record, and otherwise set to quantity+delta |
| CartLines.UpdateQuantityWithinStock | src/store/StoreContext.tsx:101-110 | an accepted change for a stock-managed catalog product with a record never goes above that record's quantity |
| CartLines.UpdateQuantityKeepsWellFormed | src/store/StoreContext.tsx:94-116 | the quantity update keeps ids distinct and quantities positive |
| CartLines.RemoveLines | src/store/StoreContext.tsx:90-92 | removing an id takes exactly that id out of the cart's id set and keeps only lines already in the cart |
| CartLines.RemoveDeletesLine | src/store/StoreContext.tsx:90-92 | in a cart with distinct ids, removing line k yields the cart with just line k cut out, the rest in order |
| CartLines.RemoveAbsent | src/store/StoreContext.tsx:91 | removing an id that is not in the cart changes nothing |
| CartLines.RemoveIdempotent | src/store/StoreContext.tsx:91 | removing the same id twice is the same as removing it once |
| CartLines.RemoveKeepsWellFormed | src/store/StoreContext.tsx:90-92 | removal keeps ids distinct and quantities positive |
| CartLines.Total | src/pages/POS.tsx:78 | the cart's Σ price × quantity; `TotalsOfConcat` and `TotalsNonNegative` state its properties |
| CartLines.ItemCount | src/pages/POS.tsx:79 | the cart's Σ quantity; `TotalsOfConcat` and `TotalsNonNegative` state its properties |
| CartLines.TotalsOfConcat | src/pages/POS.tsx:78-79 | the total amount and the item count of a concatenation are the sums of the parts' totals and counts |
| CartLines.TotalsNonNegative | src/pages/POS.tsx:78-79 | both totals are non-negative for non-negative prices and quantities, and 0 for the empty cart |
| StoreContext.OrderItems | src/store/StoreContext.tsx:140-145 | the order lines mirror the cart lines one for one and in order: id, name, quantity, and unit price = price |
| StoreContext.ItemsTotal | src/store/StoreContext.tsx:129 | the Σ unit price × quantity of order lines; `ItemsTotalOfCart` equates it with the cart's total |
| StoreContext.ItemsTotalOfCart | src/store/StoreContext.tsx:129 | the Σ unit price × quantity of the snapshot lines equals the cart's Σ price × quantity |
| StoreContext.BuildOrder | src/store/StoreContext.tsx:129-146 | the new order carries the snapshot lines, total = Σ price × quantity, change = received − total (possibly negative), and the given time, type and amount received |
| StoreContext.DeductLine | src/store/StoreContext.tsx:151-163 | one cart line's draw-down keeps the inventory's length, ids, thresholds and timestamps |
| StoreContext.DeductAll | src/store/StoreContext.tsx:149-166 | the whole draw-down keeps the inventory's length, ids, thresholds and timestamps |
| StoreContext.DeductAllEffect | src/store/StoreContext.tsx:149-166 | record j loses the cart's quantity of its product exactly when that product is in the catalog, is stock-managed and j is its first record; otherwise it is unchanged; there is no check that enough stock is left |
| StoreContext.CartQuantityOfLine | src/store/StoreContext.tsx:151-162 | in a cart with distinct ids, the quantity drawn down for a line's product is that line's quantity |
| StoreContext.DeductStock | src/store/StoreContext.tsx:149-166 | the in-place loop over a copy of the inventory leaves exactly the draw-down `DeductAll` describes |
| StoreContext.DeductLineInPlace | src/store/StoreContext.tsx:152-164 | one pass of the loop changes the copied array exactly as one `DeductLine` step does: only the first record of a stock-managed catalog product is decremented |
| StoreContext.SetStock | src/store/StoreContext.tsx:120-124 | `updateInventory` keeps the inventory's length, ids and thresholds, gives every record of the id the new quantity and time stamp, and leaves every record of another id untouched |
| StoreContext.SetStockLookup | src/store/StoreContext.tsx:120-124 | with no record for the id nothing changes; otherwise that id's record now holds the new quantity (any integer) and the new timestamp; lookups of any other id are unchanged |
| StoreContext.Store.constructor | src/store/StoreContext.tsx:25-32 | the store starts with the given catalog and inventory, no orders, an empty cart, the clock at the given time and simulation off |
| StoreContext.Store.SetSimulationTime | src/store/StoreContext.tsx:47-50 | simulation mode is on and the clock reads the chosen time |
| StoreContext.Store.ResetSimulation | src/store/StoreContext.tsx:52-55 | simulation mode is off and the clock reads the wall-clock time |
| StoreContext.Store.AddToCart | src/store/StoreContext.tsx:68-88 | the cart becomes the add-line result against the current inventory; the cart stays well formed |
| StoreContext.Store.RemoveFromCart | src/store/StoreContext.tsx:90-92 | the cart becomes the removal result and stays well formed |
| StoreContext.Store.UpdateCartQuantity | src/store/StoreContext.tsx:94-116 | the cart becomes the quantity-update result against catalog and inventory and stays well formed |
| StoreContext.Store.ClearCart | src/store/StoreContext.tsx:118 | the cart is empty |
| StoreContext.Store.UpdateInventory | src/store/StoreContext.tsx:120-124 | the inventory becomes the override described by `SetStock`; nothing else changes |
| StoreContext.Store.PlaceOrder | src/store/StoreContext.tsx:126-171 | succeeds exactly when the cart is non-empty. On an empty cart nothing changes. Otherwise the order snapshot is prepended to the ledger, the inventory is drawn down and the cart emptied |
| PointOfSale.IsAlcoholAllowed | src/pages/POS.tsx:48 | alcohol is sold from 17:00; `GatesAreThresholds` and `GateBoundaries` state the threshold and its edge |
| PointOfSale.IsEatInAllowed | src/pages/POS.tsx:49 | eat-in is taken before 20:30; `GatesAreThresholds` and `GateBoundaries` state the threshold and its edge |
| PointOfSale.GatesAreThresholds | src/pages/POS.tsx:45-49 | the alcohol gate is open iff the minute of day is at least 17:00; the eat-in gate is open iff it is before 20:30 |
| PointOfSale.GateBoundaries | src/pages/POS.tsx:48-49 | alcohol is closed at 16:59 and open at 17:00; eat-in is open at 20:29 and closed at 20:30 and at 23:59 |
| PointOfSale.AutoSwitch | src/pages/POS.tsx:52-56 | after the effect eat-in is only kept while the gate is open; takeaway is never changed; with the gate open nothing changes |
| PointOfSale.ClickCheck | src/pages/POS.tsx:82-99 | a tap is refused for alcohol exactly when the product is alcoholic and the gate is closed; a tap that reaches the cart for a stock-managed product saw a record with positive stock; drinks and alcohol are never refused for stock |
| PointOfSale.TileStock | src/pages/POS.tsx:177 | a tile's stock is its product's first record's quantity, or 0 without a record; `TileAgreesWithClick` relates it to the click check |
| PointOfSale.TileOutOfStock | src/pages/POS.tsx:178-180 | a tile is sold out when its product is stock-managed and its stock is at most 0; `TileAgreesWithClick` relates it to the click check |
| PointOfSale.TileRestricted | src/pages/POS.tsx:181 | a tile is restricted when its product is alcoholic and the alcohol gate is closed; `TileAgreesWithClick` relates it to the click check |
| PointOfSale.TileAgreesWithClick | src/pages/POS.tsx:177-186 | a tile is active (neither sold out nor restricted) exactly when the click handler passes the product on to the cart |
| PointOfSale.ClickRespectsStock | src/pages/POS.tsx:89-98 | a tap that changes the cart never takes a stock-managed product's line above its recorded stock |
| PointOfSale.LowerCase | src/pages/POS.tsx:64 | lower-casing keeps the length of the string |
| PointOfSale.FilterProducts | src/pages/POS.tsx:62-72 | a product is listed exactly when it is in the catalog, its lower-cased name contains the lower-cased query, and its category matches or the category is "all" |
| PointOfSale.FilteredProducts | src/pages/POS.tsx:59-73 | an empty grid until the catalog is loaded, then `FilterProducts` over the loaded list; `EmptyQueryShowsAll` and `FilterOfConcat` state what it lists |
| PointOfSale.FilterOfConcat | src/pages/POS.tsx:62-72 | filtering distributes over concatenation, so listed products keep their catalog order |
| PointOfSale.EmptyQueryShowsAll | src/pages/POS.tsx:63-69 | the empty query under "all" lists the whole catalog |
| PointOfSale.PosScreen.constructor | src/pages/POS.tsx:33-36 | nothing fetched yet, empty query, category "all", order type takeaway |
| PointOfSale.PosScreen.LoadCatalog | src/pages/POS.tsx:15 | the fetched product list replaces the grid's catalog |
| PointOfSale.PosScreen.SetSearch | src/pages/POS.tsx:34-35 | query and category take the entered values |
| PointOfSale.PosScreen.SelectEatIn | src/pages/POS.tsx:227-228 | the order type becomes eat-in only while the gate is open, and otherwise stays |
| PointOfSale.PosScreen.SelectTakeaway | src/pages/POS.tsx:235 | the order type becomes takeaway |
| PointOfSale.PosScreen.ApplyEatInGate | src/pages/POS.tsx:52-56 | the order type becomes the auto-switch result, so eat-in never survives a closed gate |
| PointOfSale.PosScreen.HandleProductClick | src/pages/POS.tsx:82-99 | the outcome is the click check; the cart grows by the add-line rule exactly when the outcome is "sent to cart" and is unchanged otherwise |
| PointOfSale.PosScreen.Checkout | src/pages/POS.tsx:101-115 | commits exactly when the cart is non-empty. A committed order is prepended with the cart total as the amount received, so its change is 0, and it has the screen's order type; the cart is emptied and the inventory drawn down by `DeductAll`. With an empty cart, cart, inventory and ledger stay as they were |
| InventoryPage.MergeRow | pages/Inventory.tsx:64-71 | one product's row: stock, threshold and time stamp from its first record, or 0, 0 and none; `MergedData` states it per row |
| InventoryPage.MergedData | pages/Inventory.tsx:63-73 | one row per product in catalog order; stock, threshold and timestamp come from the product's first record, or 0, 0 and none without one |
| InventoryPage.IsLow | pages/Inventory.tsx:198-201 | the red flag on a merged row: stock-managed and stock at or under threshold; `IsLowOfRecord` restates it against the store's records |
| InventoryPage.IsLowOfRecord | pages/Inventory.tsx:198-201 | the red flag holds iff the product is stock-managed and either has no record or its record is at or under its threshold |
| InventoryPage.RecommendedQty | pages/Inventory.tsx:97-99 | the suggestion is at least 1 and at least 2 × threshold − stock, and equals one of the two; so the fallback of 10 is never used |
| InventoryPage.RecommendedRestoresStock | pages/Inventory.tsx:93-99 | delivering the suggestion brings the stock to at least twice the threshold and always raises it |
| InventoryPage.QuantityToRequest | pages/Inventory.tsx:109 | the requested quantity is at least 1; a finite quantity of at least 1 is kept, anything else becomes 1 |
| InventoryPage.ParsedQty | pages/Inventory.tsx:436 | the quantity field never holds NaN or 0 after an edit; any other parsed number is kept |
| InventoryPage.TrimStart | pages/Inventory.tsx:118 | the result is a suffix that starts with a non-space, and everything cut off is space |
| InventoryPage.TrimEnd | pages/Inventory.tsx:118 | the result is a prefix that ends with a non-space, and everything cut off is space |
| InventoryPage.NoteOf | pages/Inventory.tsx:118 | the stored note is absent exactly when the entered note is all space; otherwise it is a slice `note[i..j]` of the entered text, everything cut before i and after j is space, and it neither starts nor ends with space |
| InventoryPage.SetStatus | pages/Inventory.tsx:128-132 | the status update keeps the list's length, sets the status of the requests with that id and leaves the others unchanged |
| InventoryPage.StatusChangeIsLocal | pages/Inventory.tsx:128-152 | with distinct request ids, updating request j's status changes request j only and keeps ids distinct |
| InventoryPage.TerminalIsFinal | pages/Inventory.tsx:373-389 | acting on a pending request never touches a delivered or cancelled one |
| InventoryPage.LiveStock | pages/Inventory.tsx:143-144 | the live stock is the product's record quantity when the product is in the catalog and has one, and 0 otherwise |
| InventoryPage.DeliveryEffect | pages/Inventory.tsx:142-153 | on delivery, the record of a catalog product ends at its live quantity plus the requested quantity, and without a record nothing changes (other products are covered by `SetStockLookup`) |
| InventoryPage.RestockScreen.constructor | pages/Inventory.tsx:34-55 | no edit in progress, no requests, form closed with quantity 10, empty note and the default arrival time |
| InventoryPage.RestockScreen.StartEdit | pages/Inventory.tsx:76-79 | the edited id and the edit value are the chosen row's id and stock |
| InventoryPage.RestockScreen.SaveEdit | pages/Inventory.tsx:82-85 | the store's inventory is overridden with the edit value and the edit closes |
| InventoryPage.RestockScreen.OpenRequestModal | pages/Inventory.tsx:90-103 | the form opens on that product with the suggested quantity, an empty note and the default arrival time |
| InventoryPage.RestockScreen.PressRequestButton | pages/Inventory.tsx:258-260 | the button opens the form only for a low row; otherwise nothing changes |
| InventoryPage.RestockScreen.EnterRequestQty | pages/Inventory.tsx:436 | the quantity field takes the parsed value, with NaN and 0 replaced by 1 |
| InventoryPage.RestockScreen.EnterRequestEta | pages/Inventory.tsx:449 | the arrival field takes the entered value |
| InventoryPage.RestockScreen.EnterRequestNote | pages/Inventory.tsx:458 | the note field takes the entered text |
| InventoryPage.RestockScreen.CreateFactoryRequest | pages/Inventory.tsx:106-125 | without a target, or with an arrival that is not a date, nothing changes. Otherwise one PENDING request (quantity as above, trimmed note) is prepended, the existing requests stay, and the form closes |
| InventoryPage.NewRequest | pages/Inventory.tsx:109-120 | the new request is PENDING and carries the target's id and name, the given timestamps and the trimmed note `NoteOf`; its quantity is the entered one when that is a finite number at least 1, and 1 otherwise |
| InventoryPage.RestockScreen.CancelFactoryRequest | pages/Inventory.tsx:128-132 | the requests with that id become CANCELLED; nothing else changes |
| InventoryPage.RestockScreen.MarkDeliveredAndApplyStock | pages/Inventory.tsx:142-153 | the store's inventory is overridden with live stock + requested quantity, ignoring the stock captured when the form opened; the request becomes DELIVERED |
| InventoryPage.RestockScreen.PressDeliver | pages/Inventory.tsx:373-381 | delivery is offered only for a pending request: on one it writes live stock + requested quantity to the store and marks the request DELIVERED; on any other it does nothing |
| InventoryPage.RestockScreen.PressCancel | pages/Inventory.tsx:382-389 | cancellation is offered only for a pending request; pressing it on any other does nothing |
| Ledger.WhereMembers | pages/Dashboard.tsx:10 | the filtered list holds exactly the records with the key: every kept record is from the list and has the key, and every record with the key is kept |
| Ledger.SumOfSplit | pages/History.tsx:24-25 | splitting each record's weight into two parts splits the sum the same way |
| Ledger.PartitionSum | pages/History.tsx:15-26 | summing group by group over a duplicate-free list of keys covering every record gives the grand total |
| Ledger.SortDescending | pages/History.tsx:44 | the sorted list is ordered by the comparator's key, largest first, and is a permutation of the input |
| HistoryReport.GroupForStep | pages/History.tsx:17-25 | one more order changes its own day's row by adding its amount, one to the count, and itself at the end of the list; other days' rows are unchanged |
| HistoryReport.GroupSplit | pages/History.tsx:21-25 | in each day's row eat-in + takeaway = total, the row's orders all fall on that day, and count = number of orders |
| HistoryReport.DailySummary | pages/History.tsx:12-29 | the loop over the map gives one row per day that has orders and no others. Each row is that day's total, split, count and orders in ledger order. The rows are strictly newest first |
| HistoryReport.AddOrder | pages/History.tsx:15-26 | one pass over an order keeps the map equal to every day's group over the orders seen, and the key order equal to the order in which days were first met |
| HistoryReport.SummaryConserves | pages/History.tsx:15-26 | the row totals add up to the ledger's total and the row counts add up to the number of orders |
| HistoryReport.OrderInOneGroup | pages/History.tsx:15-26 | every order is in the row for its own day and in no other row |
| HistoryReport.StatForStep | pages/History.tsx:36-41 | one more line changes only its product's row: a first line seeds the name and then adds, a later line adds quantity and unit price × quantity |
| HistoryReport.AddLines | pages/History.tsx:35-42 | the inner loop over one order's lines keeps the map equal to every product's sums over all lines seen |
| HistoryReport.AddStatLine | pages/History.tsx:36-41 | one pass over a line keeps the map equal to every product's sums over the lines seen |
| HistoryReport.ProductAnalysis | pages/History.tsx:32-45 | one row per product sold, with ids distinct; each row has that product's Σ quantity, Σ unit price × quantity and first-seen name; the rows are sorted by sales, highest first |
| HistoryReport.AnalysisConserves | pages/History.tsx:33-44 | the rows' sales add up to the sum of all line subtotals and their quantities to the sum of all line quantities |
| HistoryReport.NameFromFirstLine | pages/History.tsx:36-37 | a product's row name is the name on its first order line |
| DashboardReport.TodaysOrders | pages/Dashboard.tsx:10 | the orders whose calendar day is today, in ledger order; its members are stated by `TodaysOrdersMembers` |
| DashboardReport.DailySales | pages/Dashboard.tsx:12 | the sum of today's order totals; `AgreesWithHistory` ties it to the history row for today and `HourlyConserves` and `TypeData` to the chart data |
| DashboardReport.OrderCount | pages/Dashboard.tsx:13 | the number of today's orders; `AgreesWithHistory` ties it to the history row for today and bounds it by the ledger's size |
| DashboardReport.AgreesWithHistory | pages/Dashboard.tsx:10-13 | today's takings and count are those of the history row for today, and the count is at most the ledger's size |
| DashboardReport.TodaysOrdersMembers | pages/Dashboard.tsx:10 | today's list holds exactly the ledger's orders placed today |
| DashboardReport.AverageTicket | pages/Dashboard.tsx:110 | with orders, the ticket is floor(takings / count), i.e. the r with r × count <= takings < (r + 1) × count; without orders it is 0 |
| DashboardReport.LowStockItems | pages/Dashboard.tsx:15-22 | a record is on the alert list exactly when it is at or under its threshold and is not a catalog drink or alcohol; records without a catalog product are kept; the list is no longer than the inventory |
| DashboardReport.LowStockOfConcat | pages/Dashboard.tsx:15-22 | the filter works record by record: the list for two concatenated inventories is the two lists concatenated, so each record on alert appears once and in inventory order |
| DashboardReport.LowStockCount | pages/Dashboard.tsx:121 | the card's count is at most the number of records; it is 0 exactly when no record is on alert, and the number of records exactly when every record is |
| DashboardReport.AlertListLength | pages/Dashboard.tsx:15-22 | the alert list is empty exactly when no record is on alert, and as long as the inventory exactly when every record is |
| DashboardReport.AlertAgreesWithInventoryPage | pages/Dashboard.tsx:15-22 | for a catalog product with a record, the dashboard alert and the inventory page's red flag agree |
| DashboardReport.HourlyData | pages/Dashboard.tsx:25-36 | exactly 24 buckets; bucket h is labelled h and holds the takings of today's orders placed in hour h |
| DashboardReport.AddToHour | pages/Dashboard.tsx:29-34 | one pass over an order keeps every bucket equal to the takings of its hour over the orders seen. The instant's hour has type 0..23 here, so the source's range guard (pages/Dashboard.tsx:31) always passes |
| DashboardReport.HourlyConserves | pages/Dashboard.tsx:27-35 | the 24 buckets add up to today's takings |
| DashboardReport.TypeData | pages/Dashboard.tsx:38-49 | eat-in is today's eat-in takings, takeaway is the rest, and together they are today's takings |
| DashboardReport.DisplayName | pages/Dashboard.tsx:64-67 | the catalog name when the product is found with a non-empty name; "Unknown" when it is not found or its name is empty |
| DashboardReport.SoldQuantities | pages/Dashboard.tsx:55-60 | after the loop over today's orders the map holds, for every product sold today and no other, its pieces over all of today's lines; the key order has each such product once |
| DashboardReport.AddQuantities | pages/Dashboard.tsx:55-60 | the inner loop keeps the map equal to every product's pieces over all lines seen |
| DashboardReport.AddQuantity | pages/Dashboard.tsx:56-58 | one pass over a line keeps the map equal to every product's pieces over the lines seen, and records a new product at the end of the key order |
| DashboardReport.PopularProducts | pages/Dashboard.tsx:52-73 | at most five entries with distinct ids, each a product sold today with its name and total pieces, sorted by count, highest first. A sold product is left out only when five are listed, each with at least its count |
| DashboardReport.TopFromRanking | pages/Dashboard.tsx:62-72 | cutting the sorted entries to five gives a correct top list |
| DashboardReport.CutLeavesLesser | pages/Dashboard.tsx:71-72 | an entry cut from a sorted list leaves five before it, none with a smaller count |

## Left out

- The clock tick (`setInterval`), the 800 ms checkout delay and the `isProcessing` flag are left out. They are timers and scheduling. Time changes only through `SetSimulationTime`, `ResetSimulation` and the clock parameters of the operations.
- Fetching products and categories over HTTP is left out. `LoadCatalog` receives the list. The store's own `products` and `inventory` both start empty in the source (src/store/StoreContext.tsx:25-26). Neither is ever loaded there: `inventory` is only rewritten by `updateInventory`'s `map` and by `placeOrder`. As written, every stock-managed tile therefore shows as sold out, and only drinks and alcohol can be sold. Here both are constructor parameters, so the empty start and a loaded store are both covered.
- Alerts, modals, charts, icons and all rendering are left out. An alert becomes a refused outcome or an unchanged state.
- Date and locale formatting is not modelled (`toISOString`, `toLocaleDateString`, `toDateString`, the `slice(0, 16)` arrival format, the `H:00` bucket labels). An order's day and hour are fields of `Instant`, and the arrival field is already parsed.
- The default arrival time (wall clock plus five minutes) is a parameter, because `addMinutes` reads the wall clock.
- Order and request ids (`ORD-…`, `FR-…` from `Date.now()`) are parameters. The source does not promise they are unique. The lifecycle lemmas assume distinct request ids, and PressDeliver and PressCancel state their effect on the whole list without that assumption.
- Unicode case mapping and white-space classes are out of scope. `toLowerCase` is a character map and `trim` a space predicate, both given by the caller.
- JavaScript number width is not modelled: money and quantities are unbounded integers. So there is no float rounding in totals, and `Math.floor` on a negative average is Dafny's floor division. The quantity field's NaN and Infinity are modelled explicitly.
- Sort stability is not stated. Ties in the reports' sorts may appear in any order the comparator allows, and only sortedness and permutation are proved.
- `updateInventory` stamps `last_updated` with the wall clock, not the simulated clock. The model takes that time as a parameter of `UpdateInventory`, `SaveEdit` and `MarkDeliveredAndApplyStock`.
- No stock record is created on delivery. A request delivered for a product without a record is marked DELIVERED and the inventory stays as it was, because the source's `map` finds nothing to update. The model reproduces this.
- The History page's row expansion, its tab switch and printing, and the Dashboard's chart colours are presentation only.
