# Smart Grocery inventory — a verified Dafny model

Smart Grocery is a small grocery-inventory system. Its core logic exists in three
copies, one per language:

- **Browser front end** (`script-api-fixed.js`). It holds the module-level
  `inventory`, `cart` and `API_AVAILABLE` state. When the back end cannot be reached,
  it works offline on a copy of twenty sample products. It keeps a cart, computes a
  bill (subtotal, then a discount, then GST) and completes purchases by taking the
  cart's units off stock.
- **C++ classes** (`SmartGrocery_API.cpp`). `Item` has guarded setters and `+`/`-`
  stock operators. `Perishable` and `NonPerishable` are its subclasses. `Inventory`
  owns the item list and a `nextId` counter. `escapeJson` and `itemToJson` write
  items out as JSON.
- **Flask server** (`api_server.py`). Its handlers validate, create, update, delete
  and search items in a module-level list. It also generates bills that check and
  decrement stock line by line.

The model keeps the three copies apart, because they really behave differently:

- The browser's category search is exact; the server's ignores case.
- Offline, the browser's update of an absent id falls through to the remote branch.
- `addToCart` compares only the new request with the stock.
- `completePurchase` decrements without checking stock.
- The server's bill keeps the decrements of the lines before a failing line.
- The browser's new id is `max(ids, 0) + 1`; the server's is `max(ids) + 1`, or 1
  for an empty list.

Modules:

- `Common`: `Option`, order-preserving `Filter`, `Count`, `MaxOr`, `IndexOf`,
  `Distinct`, and the lemmas about them.
- `Text`: ASCII lowercasing and substring search.
- `Billing`: the discount-then-tax arithmetic that the front end and the server share.
- `Catalog`: the twenty sample products.
- `WebModel` (values and pure rules of the front end) and `WebStore` (the front end's
  state as a `Store` class).
- `CoreInventory` (the C++ `Item` and `Inventory` classes) and `CoreJson`
  (`escapeJson`, `itemToJson`).
- `ApiServer`: the Flask handlers as methods of a `Server` class over a list of item
  records, plus pure functions for the read-only handlers.

Each network call of the front end is replaced by its outcome, passed in as a
parameter:

- a GET is `Option<seq<Item>>`, where `None` means the fetch failed;
- a POST, PUT or DELETE is a `Reply`, where `NoReply` means a transport error or a
  body that is not JSON.

Prices are exact `real`s.

## Model

| member | source | states |
|---|---|---|
| Billing.Summarize | script-api-fixed.js:517-520 | discount + taxable = subtotal, taxable + tax = total, and total = subtotal·(1 − d/100)·(1 + g/100) |
| Billing.SummarizeWithDefaults | script-api-fixed.js:514-515 | an absent discount means no discount; an absent tax rate means 5% of the taxable amount; with both absent the total is subtotal·1.05 |
| Billing.WorkedExample | script-api-fixed.js:517-520 | subtotal 1000 with 10% discount and 5% tax gives discount 100, taxable 900, tax 45, total 945 |
| Billing.TotalBounds | script-api-fixed.js:517-520 | for a discount between 0 and 100% and non-negative tax, 0 ≤ total ≤ subtotal·(1 + g/100) |
| Billing.TotalMonotoneInDiscount | script-api-fixed.js:517-520 | a larger discount never gives a larger total |
| Catalog.EntriesWellFormed | api_server.py:15-36 | there are 20 sample products, each with a name, a category, non-negative price and quantity, and an expiry date exactly when perishable |
| Text.Contains | SmartGrocery_API.cpp:164 | true exactly when the needle occurs at some position of the haystack |
| WebModel.StatusOf | script-api-fixed.js:23-27 | Good iff quantity > 10, Medium iff 5 < quantity ≤ 10, Low iff quantity ≤ 5 |
| WebModel.FindItem | script-api-fixed.js:153 | the position of the first record with the id, or None exactly when no record has it |
| WebModel.SampleData | script-api-fixed.js:49-70 | 20 records with ids 1 to 20 in order, distinct, carrying the catalogue's names and quantities |
| WebModel.NextLocalId | script-api-fixed.js:122 | at least 1, above every existing id, and either 1 or one more than an existing id |
| WebModel.NextLocalIdExamples | script-api-fixed.js:122 | ids {1, 3, 5} give 6; an empty inventory gives 1 |
| WebModel.NextLocalIdKeepsDistinct | script-api-fixed.js:122-123 | appending a record under the new id keeps the ids distinct |
| WebModel.AssignReflects | script-api-fixed.js:155 | after `Object.assign`, every supplied field reads back as supplied and every other field is unchanged; assigning twice equals assigning once |
| WebModel.SearchNameLocal | script-api-fixed.js:210 | the result holds, in order, exactly the records whose lowercased name contains the lowercased query |
| WebModel.SearchNameEmptyQuery | script-api-fixed.js:210 | the empty query returns the whole inventory |
| WebModel.SearchCategoryLocal | script-api-fixed.js:223 | exactly the records whose category equals the query, with case significant |
| WebModel.FilterItems | script-api-fixed.js:318-322 | exactly the records matching the name filter and, when one is chosen, the category |
| WebModel.FilterItemsWithoutCategory | script-api-fixed.js:318-322 | with no category chosen the table filter is the name search; with no filters it shows everything |
| WebModel.WithoutId | script-api-fixed.js:185 | the records without the id, and every such record is kept |
| WebModel.WithoutAbsentId | script-api-fixed.js:185 | deleting an absent id changes nothing |
| WebModel.LowStockCountIsLow | script-api-fixed.js:241 | the dashboard's low-stock count is the number of records `getStockStatus` classifies Low |
| WebModel.PerishableCounts | script-api-fixed.js:266-267 | perishable and non-perishable counts add up to the number of records |
| WebModel.ExpiryCountBound | script-api-fixed.js:242 | the expiring count is at most the perishable count |
| WebModel.CategoryAndAverage | script-api-fixed.js:265-268 | no more categories than records; average × count = sum of prices; the average is 0 for an empty inventory |
| WebModel.SumsAppend | script-api-fixed.js:239-268 | the stock total, the stock value and the price sum each add up over a split of the inventory |
| WebModel.SumsNonNegative | script-api-fixed.js:239-268 | with no negative price or quantity, the stock total, stock value and price sum are non-negative |
| WebModel.InventoryStatsFacts | script-api-fixed.js:238-269 | the dashboard's fields: record count; low-stock count = records classified Low; perishable + non-perishable = record count; expiring ≤ perishable; categories ≤ records; the totals and the average are their reductions |
| WebModel.InventoryStatsEmpty | script-api-fixed.js:238-269 | an empty inventory shows zero in every field, the average included |
| WebModel.InventoryStatsNonNegative | script-api-fixed.js:239-240 | with no negative record, the stock total and stock value shown are non-negative |
| WebModel.CartAfterAddEffect | script-api-fixed.js:473-478 | adding q units keeps one positive line per id and raises that item's cart units by exactly q, and no other item's |
| WebModel.SpliceStart | script-api-fixed.js:508 | `splice`'s start lies within the cart and equals an in-range index |
| WebModel.RemoveAtEffect | script-api-fixed.js:508 | removing keeps the cart invariant; an in-range index removes exactly that line and adds none |
| WebModel.CartSubtotalNonNegative | script-api-fixed.js:513 | non-negative prices and units give a non-negative subtotal |
| WebModel.PurchaseStep | script-api-fixed.js:534-537 | applying one more cart line is one more decrement of the first record with its id |
| WebModel.PurchaseShape | script-api-fixed.js:534-537 | a purchase changes only quantities; the ids and all other fields stay |
| WebModel.PurchaseEffect | script-api-fixed.js:534-537 | each first record with an id loses exactly that id's units in the cart; every other record keeps its quantity |
| WebModel.QuantityForDistinct | script-api-fixed.js:534-537 | with one line per id, an item's cart units are its line's units |
| WebModel.PurchaseExample | script-api-fixed.js:534-537 | 3 units of item 1 against 15 in stock leave 12 |
| WebModel.DecrementFirstTotal | script-api-fixed.js:535-536 | one cart line lowers total stock by its units when the item exists, otherwise not at all |
| WebModel.PurchaseTotal | script-api-fixed.js:534-537 | total stock falls by exactly the cart units whose item is in the inventory |
| WebStore.Fetched | script-api-fixed.js:100-113 | online with a successful fetch gives the remote list; every other case gives the sample copy and offline mode |
| WebStore.FetchNeverGoesOnline | script-api-fixed.js:100-113 | a fetch never switches the mode to online; offline it always reloads the sample data |
| WebStore.Store.constructor | script-api-fixed.js:8-12 | empty inventory and cart; the mode is the reachability probe's result |
| WebStore.Store.FetchItems | script-api-fixed.js:100-113 | inventory and mode become `Fetched`; the cart is untouched |
| WebStore.Store.RemoteWrite | script-api-fixed.js:137-148 | succeeds exactly on a successful reply, then re-fetches; otherwise nothing changes |
| WebStore.Store.AddItem | script-api-fixed.js:120-149 | offline: appends the record under the next local id and succeeds; online: the remote write |
| WebStore.Store.UpdateItem | script-api-fixed.js:151-181 | offline with the id present: the first such record reflects the patch and nothing else changes; otherwise the remote write |
| WebStore.Store.DeleteItem | script-api-fixed.js:183-206 | offline: keeps the records without the id and succeeds even when nothing matched; online: the remote write |
| WebStore.Store.SearchByName | script-api-fixed.js:208-219 | the remote result when online and it arrives, else exactly the local name matches |
| WebStore.Store.SearchByCategory | script-api-fixed.js:221-232 | the remote result when online and it arrives, else exactly the records with an equal category |
| WebStore.Store.AddToCart | script-api-fixed.js:453-479 | rejects an invalid request, an unknown id, or a request above stock, each iff its condition holds, leaving everything unchanged; otherwise the item's line grows or a snapshot line is appended, and its cart units rise by the quantity |
| WebStore.Store.RemoveFromCart | script-api-fixed.js:507-510 | the cart loses the spliced line; an in-range index removes exactly that line |
| WebStore.Store.ClearCart | script-api-fixed.js:546-549 | the cart is empty; inventory and mode are unchanged |
| WebStore.Store.BillSummary | script-api-fixed.js:512-520 | the subtotal is the cart's value; the total applies the input or default rates |
| WebStore.Store.TakeFromStock | script-api-fixed.js:535-536 | the first record with the line's id loses the line's units |
| WebStore.Store.CompletePurchase | script-api-fixed.js:528-544 | an empty cart changes nothing; otherwise the inventory becomes the purchase applied in order and the cart is emptied |
| CoreInventory.Item.constructor | SmartGrocery_API.cpp:56-57 | stores every argument unchecked |
| CoreInventory.Item.ExpiryDate | SmartGrocery_API.cpp:91-92 | the date for a perishable item, the empty string otherwise |
| CoreInventory.Item.SetName | SmartGrocery_API.cpp:67 | sets the name; other fields unchanged |
| CoreInventory.Item.SetCategory | SmartGrocery_API.cpp:68 | sets the category; other fields unchanged |
| CoreInventory.Item.SetPrice | SmartGrocery_API.cpp:69-72 | a negative price throws "Price cannot be negative" and leaves the price; otherwise sets it |
| CoreInventory.Item.SetQuantity | SmartGrocery_API.cpp:73-76 | a negative quantity throws "Quantity cannot be negative" and leaves it; otherwise sets it |
| CoreInventory.Item.Add | SmartGrocery_API.cpp:78-82 | a negative amount throws; otherwise the quantity grows by it |
| CoreInventory.Item.Subtract | SmartGrocery_API.cpp:84-89 | a negative amount or more than the stock throws, with no change; otherwise subtracts, so the stock stays ≥ 0 |
| CoreInventory.NameHits | SmartGrocery_API.cpp:161-167 | exactly the items whose lowercased name contains the lowered query |
| CoreInventory.CategoryHits | SmartGrocery_API.cpp:173-177 | exactly the items whose category equals the query |
| CoreInventory.WithoutIdEffect | SmartGrocery_API.cpp:182-184 | `remove_if` removes something iff some item has the id; otherwise the list is unchanged |
| CoreInventory.ToLowerAscii | SmartGrocery_API.cpp:158-159 | the loop lowercases every character |
| CoreInventory.Inventory.constructor | SmartGrocery_API.cpp:127-129 | the inventory starts with the twenty sample items loaded |
| CoreInventory.Inventory.AddItem | SmartGrocery_API.cpp:131-147 | id 0: a fresh copy under the old nextId, which advances; otherwise the item is kept and nextId rises past its id; every id stays below nextId |
| CoreInventory.Inventory.FindById | SmartGrocery_API.cpp:149-154 | the first item with the id, or null exactly when none has it |
| CoreInventory.Inventory.SearchByName | SmartGrocery_API.cpp:156-169 | returns, in order, exactly the items whose ASCII-lowercased name contains the lowered query |
| CoreInventory.Inventory.SearchByCategory | SmartGrocery_API.cpp:171-179 | returns, in order, exactly the items whose category equals the query |
| CoreInventory.Inventory.RemoveItem | SmartGrocery_API.cpp:181-186 | an absent id throws "Item not found to remove" with no change; otherwise every item with the id goes |
| CoreInventory.Inventory.LoadSample | SmartGrocery_API.cpp:196 | one more sample product is loaded under the next id |
| CoreInventory.Inventory.InitializeSampleData | SmartGrocery_API.cpp:192-216 | exactly the 20 products in order, ids 1 to 20, nextId 21 |
| CoreInventory.SampleIds | SmartGrocery_API.cpp:192-216 | after loading, the ids are 1..20 in order and distinct, and nextId is 21 |
| CoreJson.EscapeChar | SmartGrocery_API.cpp:224-229 | the five special characters become a backslash pair; others are copied; the result has no raw newline, CR or tab |
| CoreJson.EscapeJson | SmartGrocery_API.cpp:221-232 | the loop produces the escaped form of the whole string |
| CoreJson.EscapedAppend | SmartGrocery_API.cpp:223-230 | escaping distributes over concatenation |
| CoreJson.EscapedLength | SmartGrocery_API.cpp:221-232 | output length = input length + the number of special characters |
| CoreJson.EscapedPlain | SmartGrocery_API.cpp:229 | a string without special characters comes out unchanged |
| CoreJson.EscapedHasNoControl | SmartGrocery_API.cpp:226-228 | the output never holds a raw newline, carriage return or tab |
| CoreJson.UnescapeOne | SmartGrocery_API.cpp:224-229 | reading back one character's escape gives that character |
| CoreJson.EscapeRoundTrip | SmartGrocery_API.cpp:221-232 | unescaping the escaped string gives the original |
| CoreJson.ItemJson | SmartGrocery_API.cpp:234-246 | name and category read back to the item's own; perishable iff the item is; expiry only for a perishable item, else empty |
| ApiServer.MessageInjective | api_server.py:66-234 | each error has its own `error` text: equal texts mean the same error, down to the id in "Item … not found" and the name in "Insufficient stock for …" |
| ApiServer.StatusFor | api_server.py:229-234 | a missing item answers 404; every other error answers 400 |
| ApiServer.FindItem | api_server.py:51 | the first record with the id, or None exactly when none has it |
| ApiServer.SampleInventory | api_server.py:15-36 | 20 records with ids 1 to 20, distinct ids, no negative price or quantity |
| ApiServer.NewId | api_server.py:75 | above every id; 1 for an empty list; otherwise one more than an existing id |
| ApiServer.NewIdAllNegative | api_server.py:75 | with the single id −3 the new id is −2 (the default applies only to an empty list) |
| ApiServer.AddCheck | api_server.py:65-72 | missing or empty name or category, else a negative price, else a negative quantity, each iff its condition holds (absent counts as 0) |
| ApiServer.NewItem | api_server.py:75-84 | absent price and quantity become 0, absent `perishable` false, absent `expiry` empty; a body that passed the checks gives a non-empty name and category and non-negative price and quantity |
| ApiServer.AddKeepsStocked | api_server.py:75-86 | a create that passed the checks keeps ids distinct and stock non-negative, and a lookup of the new id finds the new record at the end |
| ApiServer.UpdateCheck | api_server.py:103-114 | 404 iff the id is absent, else a present negative price, else a present negative quantity |
| ApiServer.ApplyBodyEffect | api_server.py:117-126 | id and perishable never change; each of name, category, price, quantity and expiry takes the body's value when present and keeps the old one when absent; a body that passed the checks keeps a non-negative price and quantity non-negative; a body with none of those fields changes nothing |
| ApiServer.WithoutId | api_server.py:148 | exactly the records with another id, in order |
| ApiServer.FilterStocked | api_server.py:148 | filtering keeps ids distinct and stock non-negative |
| ApiServer.WithoutPresentId | api_server.py:144-148 | deleting a present id removes exactly the records that carry it |
| ApiServer.GetItem | api_server.py:49-54 | 404 iff no record has the id; otherwise 200 and the first record with that id |
| ApiServer.SearchByName | api_server.py:158-162 | exactly the records whose lowercased name contains the lowercased query |
| ApiServer.SearchByCategory | api_server.py:167-170 | exactly the records whose lowercased category equals the lowercased query |
| ApiServer.SearchesIgnoreCase | api_server.py:160-169 | both searches give the same result for a query and its lowercase; the empty name query returns everything |
| ApiServer.GetLowStock | api_server.py:175-181 | exactly the records with quantity ≤ 5, and `count` is their number |
| ApiServer.BillRunStep | api_server.py:225-248 | one more cart line is one more bill step, unless a line already failed |
| ApiServer.FailureSticks | api_server.py:229-234 | after a failing line, later lines change nothing |
| ApiServer.NoRollback | api_server.py:225-248 | when line k fails first, the list keeps the decrements of lines before k and the reply carries line k's error |
| ApiServer.BillStepOnlyQuantities | api_server.py:248 | a bill step changes nothing but quantities |
| ApiServer.BillRunOnlyQuantities | api_server.py:225-248 | a bill changes only quantities |
| ApiServer.BillStepRow | api_server.py:236-245 | a successful step appends the line's row at the original price and adds its amount to the subtotal |
| ApiServer.BillRunLines | api_server.py:225-248 | on success: one row per line, in order, with the line's id and units at the original price, and subtotal = Σ price·quantity |
| ApiServer.BillRunStaysStocked | api_server.py:233-248 | no quantity goes below 0 and ids stay distinct, whichever line fails |
| ApiServer.DuplicateLineExample | api_server.py:229-248 | 5 in stock and two lines of 3: the second fails and the first line's 3 units stay taken |
| ApiServer.BillTotals | api_server.py:250-254 | the total is Σ price·quantity·(1 − d/100)·(1 + g/100), with defaults 0 and 5 |
| ApiServer.Server.constructor | api_server.py:15-36 | the list starts as the sample inventory |
| ApiServer.Server.AddItem | api_server.py:59-92 | a failed check answers 400 with no change; otherwise 201 and the new record is appended under the new id with defaults for absent fields |
| ApiServer.Server.UpdateItem | api_server.py:100-132 | 404 or 400 with no change; otherwise 200 and only the first record with the id gets the body's fields |
| ApiServer.Server.DeleteItem | api_server.py:140-153 | 404 with no change for an absent id; otherwise 200 and the records with the id are dropped |
| ApiServer.Server.TakeLine | api_server.py:226-248 | one loop pass is one bill step on the current list |
| ApiServer.Server.GenerateBill | api_server.py:210-268 | an empty cart answers 400 with no change; otherwise the list ends as the bill run leaves it, the reply carries the first failing line's error, and on success it carries the rows and totals |

## Left out

- DOM rendering, toasts, modals, navigation and event wiring in the front end are not modelled. They are display only.
- The `fetch` calls and their online branches are replaced by their outcomes, passed in as parameters. `async` interleaving of pending requests is not modelled: it is concurrency.
- `checkApiConnection` is not part of this model. It is a network probe; the `Store` constructor takes its result as a parameter.
- Aliasing of JavaScript objects and Python dicts is not modelled. Records and cart lines are values, so a search result held elsewhere does not see a later in-place edit.
- Floating point is not modelled. Prices are exact reals. Currency formatting (`formatCurrency`, `toFixed`, `setprecision`) is output formatting.
- A `parseInt`/`parseFloat` that yields `NaN` is treated like an empty field, as `None`.
- Case folding is modelled as ASCII lowercasing in all three copies. JavaScript's `toLowerCase` and Python's `lower` also fold non-ASCII letters.
- CoreInventory.Inventory.AddItem: does not model 32-bit overflow of `nextId++`, because integers are unbounded here.
- CoreInventory.Item.Add: does not model 32-bit overflow of `quantity += addQty` in `operator+`, because integers are unbounded here.
- CoreInventory.Inventory.InitializeSampleData: models the evident intent of the sample loading. As written, SmartGrocery_API.cpp:198-215 constructs each `NonPerishable` with six arguments, but the class has only a default and a five-parameter constructor (SmartGrocery_API.cpp:113-116), so that file does not compile; the model builds the non-perishable items from the first five arguments.
- C++ ownership machinery (`unique_ptr`, `clone`, `dynamic_cast`), the default constructors and `getItems` are not modelled. Each item's dynamic type is a `Kind` value.
- CoreJson.ItemJson: gives the fields `itemToJson` writes, not the assembled text. The price is carried as its value, without `setprecision` formatting.
- `HTTPResponse`, `main` and the commented-out Flask sketch in the C++ file are not modelled. They are output only, or not code.
- Flask glue (routing, `jsonify`, CORS) is not modelled. Nor is the catch-all `except`, which answers 400 when a body field has the wrong type or a cart entry lacks `id` or `quantity`. Body fields are modelled with their intended types.
- `float()`/`int()` conversion of body fields is not modelled: prices are reals and quantities are integers.
- Reply payloads beyond status, `success` and `error` are not modelled: the echoed item, and the success message text. The error text is `ApiServer.Message`, a helper whose property is `ApiServer.MessageInjective`.
- `get_expiry_items` and the timestamps are not modelled. They read the clock and parse dates.
- `health_check` and `get_items` are not modelled. They return the list or its length unchanged.
