/** The values the browser front end works on (inventory records, cart lines,
    patches) and the pure parts of its logic: the stock-status classifier, the
    local searches and filter, the dashboard statistics, the offline id rule,
    the cart rules and the effect of a purchase on stock. */
module WebModel {
  import opened Common
  import opened Text
  import Catalog

  /** An inventory record as the front end holds it. */
  datatype Item = Item(id: int, name: string, category: string, price: real, quantity: int,
                       perishable: bool, expiry: string)

  /** The fields an edit supplies; `Object.assign` copies exactly the present ones. */
  datatype Patch = Patch(id: Option<int>, name: Option<string>, category: Option<string>,
                         price: Option<real>, quantity: Option<int>, perishable: Option<bool>,
                         expiry: Option<string>)

  /** A cart line: id, name and price are a snapshot taken when the item was first added. */
  datatype CartLine = CartLine(id: int, name: string, price: real, cartQuantity: int)

  datatype StockStatus = Good | Medium | Low

  /** `getStockStatus`: more than 10 is Good, 6 to 10 is Medium, 5 or less is Low. */
  function StatusOf(quantity: int): (s: StockStatus)
    ensures s == Good <==> quantity > 10
    ensures s == Medium <==> 5 < quantity <= 10
    ensures s == Low <==> quantity <= 5
  {
    if quantity > 10 then Good else if quantity > 5 then Medium else Low
  }

  function Ids(inv: seq<Item>): (r: seq<int>)
    ensures |r| == |inv|
    ensures forall i :: 0 <= i < |inv| ==> r[i] == inv[i].id
  {
    seq(|inv|, i requires 0 <= i < |inv| => inv[i].id)
  }

  /** `inventory.find(i => i.id === id)`, as the position of the first match. */
  function FindItem(inv: seq<Item>, id: int): (r: Option<nat>)
    ensures r.Some? ==> r.value < |inv| && inv[r.value].id == id
    ensures r.Some? ==> forall j :: 0 <= j < r.value ==> inv[j].id != id
    ensures r.None? <==> forall j :: 0 <= j < |inv| ==> inv[j].id != id
  {
    IndexOf(Ids(inv), id)
  }

  /** The fallback data: a fresh copy of the twenty sample products with ids 1 to 20. */
  function SampleData(): (s: seq<Item>)
    ensures |s| == 20
    ensures forall k :: 0 <= k < |s| ==> s[k].id == k + 1
    ensures forall k :: 0 <= k < |s| ==> s[k].name == Catalog.Entries[k].name && s[k].quantity == Catalog.Entries[k].quantity
    ensures Distinct(Ids(s))
  {
    seq(20, k requires 0 <= k < 20 =>
      var e := Catalog.Entries[k];
      Item(k + 1, e.name, e.category, e.price, e.quantity, e.perishable, e.expiry))
  }

  /** `Math.max(...inventory.map(i => i.id), 0) + 1`: one more than the largest id, or 1. */
  function NextLocalId(inv: seq<Item>): (id: int)
    ensures id >= 1
    ensures forall i :: 0 <= i < |inv| ==> inv[i].id < id
    ensures id == 1 || exists i :: 0 <= i < |inv| && id == inv[i].id + 1
  {
    MaxOr(Ids(inv), 0) + 1
  }

  /** Ids {1, 3, 5} give 6; an empty inventory gives 1. */
  lemma NextLocalIdExamples(a: Item, b: Item, c: Item)
    requires a.id == 1 && b.id == 3 && c.id == 5
    ensures NextLocalId([a, b, c]) == 6
    ensures NextLocalId([]) == 1
  {
    assert Ids([a, b, c]) == [1, 3, 5];
    assert [1, 3, 5][1..] == [3, 5] && [3, 5][1..] == [5] && [5][1..] == [];
    assert MaxOr([5], 0) == 5;
    assert MaxOr([3, 5], 0) == 5;
  }

  /** Adding a record with the fresh id keeps the ids distinct. */
  lemma NextLocalIdKeepsDistinct(inv: seq<Item>, it: Item)
    requires Distinct(Ids(inv))
    ensures Distinct(Ids(inv + [it.(id := NextLocalId(inv))]))
  {
    var s := inv + [it.(id := NextLocalId(inv))];
    assert forall i :: 0 <= i < |inv| ==> s[i] == inv[i];
  }

  /** `Object.assign(item, patch)`. */
  function Assign(it: Item, p: Patch): Item
  {
    Item(p.id.GetOr(it.id), p.name.GetOr(it.name), p.category.GetOr(it.category),
         p.price.GetOr(it.price), p.quantity.GetOr(it.quantity),
         p.perishable.GetOr(it.perishable), p.expiry.GetOr(it.expiry))
  }

  /** The round trip of an edit: every field the patch supplies reads back as
      supplied, every field it omits reads back as before. */
  predicate Reflects(before: Item, p: Patch, after: Item)
  {
    (if p.id.Some? then after.id == p.id.value else after.id == before.id)
    && (if p.name.Some? then after.name == p.name.value else after.name == before.name)
    && (if p.category.Some? then after.category == p.category.value else after.category == before.category)
    && (if p.price.Some? then after.price == p.price.value else after.price == before.price)
    && (if p.quantity.Some? then after.quantity == p.quantity.value else after.quantity == before.quantity)
    && (if p.perishable.Some? then after.perishable == p.perishable.value else after.perishable == before.perishable)
    && (if p.expiry.Some? then after.expiry == p.expiry.value else after.expiry == before.expiry)
  }

  lemma AssignReflects(it: Item, p: Patch)
    ensures Reflects(it, p, Assign(it, p))
    ensures Assign(Assign(it, p), p) == Assign(it, p)
  {
  }

  /** The offline search predicate: the lowercased name contains the lowercased query. */
  predicate NameMatches(it: Item, query: string)
  {
    Contains(Lower(it.name), Lower(query))
  }

  /** Offline `apiSearchByName`: the records whose name matches, in inventory order. */
  function SearchNameLocal(inv: seq<Item>, query: string): (r: seq<Item>)
    ensures forall i :: 0 <= i < |r| ==> r[i] in inv && NameMatches(r[i], query)
    ensures forall i :: 0 <= i < |inv| && NameMatches(inv[i], query) ==> inv[i] in r
  {
    Filter(inv, (it: Item) => NameMatches(it, query))
  }

  /** The empty query matches every name, so it returns the whole inventory. */
  lemma SearchNameEmptyQuery(inv: seq<Item>)
    ensures SearchNameLocal(inv, "") == inv
  {
    forall it | it in inv ensures NameMatches(it, "") {
      ContainsEmpty(Lower(it.name));
    }
    FilterKeepsAll(inv, (it: Item) => NameMatches(it, ""));
  }

  /** Offline `apiSearchByCategory`: the records whose category is exactly the query (case matters). */
  function SearchCategoryLocal(inv: seq<Item>, category: string): (r: seq<Item>)
    ensures forall i :: 0 <= i < |r| ==> r[i] in inv && r[i].category == category
    ensures forall i :: 0 <= i < |inv| && inv[i].category == category ==> inv[i] in r
  {
    Filter(inv, (it: Item) => it.category == category)
  }

  /** `filterItems`: the name filter as in the name search; an empty category selects every category. */
  predicate FilterMatch(it: Item, nameFilter: string, categoryFilter: string)
  {
    NameMatches(it, nameFilter) && (categoryFilter == "" || it.category == categoryFilter)
  }

  function FilterItems(inv: seq<Item>, nameFilter: string, categoryFilter: string): (r: seq<Item>)
    ensures forall i :: 0 <= i < |r| ==> r[i] in inv && FilterMatch(r[i], nameFilter, categoryFilter)
    ensures forall i :: 0 <= i < |inv| && FilterMatch(inv[i], nameFilter, categoryFilter) ==> inv[i] in r
  {
    Filter(inv, (it: Item) => FilterMatch(it, nameFilter, categoryFilter))
  }

  /** With no category chosen the table filter is the name search; with neither filter it shows everything. */
  lemma FilterItemsWithoutCategory(inv: seq<Item>, nameFilter: string)
    ensures FilterItems(inv, nameFilter, "") == SearchNameLocal(inv, nameFilter)
    ensures FilterItems(inv, "", "") == inv
  {
    FilterCongruent(inv, (it: Item) => FilterMatch(it, nameFilter, ""), (it: Item) => NameMatches(it, nameFilter));
    FilterCongruent(inv, (it: Item) => FilterMatch(it, "", ""), (it: Item) => NameMatches(it, ""));
    SearchNameEmptyQuery(inv);
  }

  /** `inventory.filter(i => i.id !== id)`. */
  function WithoutId(inv: seq<Item>, id: int): (r: seq<Item>)
    ensures forall i :: 0 <= i < |r| ==> r[i] in inv && r[i].id != id
    ensures forall i :: 0 <= i < |inv| && inv[i].id != id ==> inv[i] in r
  {
    Filter(inv, (it: Item) => it.id != id)
  }

  /** Removing an id that is not there changes nothing. */
  lemma WithoutAbsentId(inv: seq<Item>, id: int)
    requires FindItem(inv, id).None?
    ensures WithoutId(inv, id) == inv
  {
    FilterKeepsAll(inv, (it: Item) => it.id != id);
  }

  // ----- dashboard statistics (`updateInventoryStats`) -----

  function SumQuantity(inv: seq<Item>): int
  {
    if inv == [] then 0 else SumQuantity(inv[..|inv| - 1]) + inv[|inv| - 1].quantity
  }

  /** One record's stock value, `item.price * item.quantity`. */
  function ItemValue(it: Item): real
  {
    it.price * it.quantity as real
  }

  function SumValue(inv: seq<Item>): real
  {
    if inv == [] then 0.0 else SumValue(inv[..|inv| - 1]) + ItemValue(inv[|inv| - 1])
  }

  function SumPrice(inv: seq<Item>): real
  {
    if inv == [] then 0.0 else SumPrice(inv[..|inv| - 1]) + inv[|inv| - 1].price
  }

  function Categories(inv: seq<Item>): set<string>
  {
    set i | 0 <= i < |inv| :: inv[i].category
  }

  /** The record counts as low stock on the dashboard. */
  predicate IsLowStock(it: Item) { it.quantity <= 5 }
  /** The record is classified Low by `getStockStatus`. */
  predicate IsClassifiedLow(it: Item) { StatusOf(it.quantity) == Low }
  predicate IsPerishable(it: Item) { it.perishable }
  predicate IsNonPerishable(it: Item) { !it.perishable }
  /** Perishable with a non-empty expiry date (a truthy `expiry`). */
  predicate HasExpiry(it: Item) { it.perishable && it.expiry != "" }

  datatype Stats = Stats(totalItems: int, totalValue: real, itemCount: nat, lowStockCount: nat,
                         expiryCount: nat, categoryCount: nat, perishableCount: nat,
                         nonPerishableCount: nat, avgPrice: real)

  function InventoryStats(inv: seq<Item>): Stats
  {
    Stats(SumQuantity(inv), SumValue(inv), |inv|, LowStockCount(inv), ExpiryCount(inv),
          |Categories(inv)|, PerishableCount(inv), NonPerishableCount(inv), AveragePrice(inv))
  }

  function LowStockCount(inv: seq<Item>): nat { |Filter(inv, IsLowStock)| }
  function ExpiryCount(inv: seq<Item>): nat { |Filter(inv, HasExpiry)| }
  function PerishableCount(inv: seq<Item>): nat { |Filter(inv, IsPerishable)| }
  function NonPerishableCount(inv: seq<Item>): nat { |Filter(inv, IsNonPerishable)| }

  /** The mean price, 0 for an empty inventory. */
  function AveragePrice(inv: seq<Item>): real
  {
    if |inv| > 0 then SumPrice(inv) / |inv| as real else 0.0
  }

  lemma {:induction false} CategoriesBound(inv: seq<Item>)
    ensures |Categories(inv)| <= |inv|
  {
    if inv != [] {
      var n := |inv| - 1;
      CategoriesBound(inv[..n]);
      assert Categories(inv) == Categories(inv[..n]) + {inv[n].category} by {
        forall c | c in Categories(inv) ensures c in Categories(inv[..n]) + {inv[n].category} {
          var i :| 0 <= i < |inv| && inv[i].category == c;
          if i < n { assert inv[..n][i] == inv[i]; }
        }
      }
    }
  }

  /** The low-stock figure on the dashboard counts exactly the records `getStockStatus` classifies Low. */
  lemma LowStockCountIsLow(inv: seq<Item>)
    ensures LowStockCount(inv) == Count(inv, IsClassifiedLow)
  {
    FilterCongruent(inv, IsLowStock, IsClassifiedLow);
    FilterLength(inv, IsClassifiedLow);
  }

  /** Perishable and non-perishable counts add up to the number of records. */
  lemma PerishableCounts(inv: seq<Item>)
    ensures PerishableCount(inv) + NonPerishableCount(inv) == |inv|
  {
    FilterLength(inv, IsPerishable);
    FilterLength(inv, IsNonPerishable);
    CountSplit(inv, IsPerishable, IsNonPerishable);
  }

  /** The records counted as expiring are among the perishable ones. */
  lemma ExpiryCountBound(inv: seq<Item>)
    ensures ExpiryCount(inv) <= PerishableCount(inv)
  {
    FilterLength(inv, IsPerishable);
    FilterLength(inv, HasExpiry);
    CountWeaker(inv, HasExpiry, IsPerishable);
  }

  /** There are no more categories than records, and the average price times the
      number of records is the sum of the prices (0 for an empty inventory). */
  lemma CategoryAndAverage(inv: seq<Item>)
    ensures |Categories(inv)| <= |inv|
    ensures |inv| > 0 ==> AveragePrice(inv) * |inv| as real == SumPrice(inv)
    ensures |inv| == 0 ==> AveragePrice(inv) == 0.0
  {
    CategoriesBound(inv);
    if |inv| > 0 {
      var n := |inv| as real;
      assert AveragePrice(inv) == SumPrice(inv) / n;
      assert SumPrice(inv) / n * n == SumPrice(inv);
    }
  }

  /** Every record has a non-negative price and quantity. */
  predicate NonNegativeStock(inv: seq<Item>)
  {
    forall i :: 0 <= i < |inv| ==> inv[i].price >= 0.0 && inv[i].quantity >= 0
  }

  /** The three reductions of the dashboard add up over a split of the inventory. */
  lemma {:induction false} SumsAppend(a: seq<Item>, b: seq<Item>)
    ensures SumQuantity(a + b) == SumQuantity(a) + SumQuantity(b)
    ensures SumValue(a + b) == SumValue(a) + SumValue(b)
    ensures SumPrice(a + b) == SumPrice(a) + SumPrice(b)
  {
    if b == [] {
      assert a + b == a;
    } else {
      var n := |b| - 1;
      assert (a + b)[..|a + b| - 1] == a + b[..n];
      assert (a + b)[|a + b| - 1] == b[n];
      SumsAppend(a, b[..n]);
    }
  }

  /** With no negative price or quantity, the stock total, the stock value and the
      price sum are never negative. */
  lemma {:induction false} SumsNonNegative(inv: seq<Item>)
    requires NonNegativeStock(inv)
    ensures SumQuantity(inv) >= 0 && SumValue(inv) >= 0.0 && SumPrice(inv) >= 0.0
  {
    if inv != [] {
      var n := |inv| - 1;
      assert NonNegativeStock(inv[..n]) by {
        assert forall i :: 0 <= i < n ==> inv[..n][i] == inv[i];
      }
      SumsNonNegative(inv[..n]);
      var p, q := inv[n].price, inv[n].quantity as real;
      assert p >= 0.0 && q >= 0.0;
      assert ItemValue(inv[n]) == p * q >= 0.0;
    }
  }

  /** What the dashboard shows: the record count, a low-stock count that agrees with
      `getStockStatus`, perishable and non-perishable counts that partition the records,
      an expiring count within the perishable one, no more categories than records, and the
      three reductions (stock total, stock value, average price; see `SumsAppend`,
      `SumsNonNegative` and `CategoryAndAverage` for what they satisfy). */
  lemma InventoryStatsFacts(inv: seq<Item>)
    ensures InventoryStats(inv).itemCount == |inv|
    ensures InventoryStats(inv).lowStockCount == Count(inv, IsClassifiedLow)
    ensures InventoryStats(inv).perishableCount + InventoryStats(inv).nonPerishableCount == |inv|
    ensures InventoryStats(inv).expiryCount <= InventoryStats(inv).perishableCount
    ensures InventoryStats(inv).categoryCount <= |inv|
    ensures InventoryStats(inv).totalItems == SumQuantity(inv) && InventoryStats(inv).totalValue == SumValue(inv)
    ensures InventoryStats(inv).avgPrice == AveragePrice(inv)
  {
    var st := InventoryStats(inv);
    assert st.itemCount == |inv| && st.lowStockCount == LowStockCount(inv)
      && st.perishableCount == PerishableCount(inv) && st.nonPerishableCount == NonPerishableCount(inv)
      && st.expiryCount == ExpiryCount(inv) && st.categoryCount == |Categories(inv)|;
    LowStockCountIsLow(inv);
    PerishableCounts(inv);
    ExpiryCountBound(inv);
    CategoriesBound(inv);
  }

  /** An empty inventory shows zero everywhere. */
  lemma InventoryStatsEmpty()
    ensures InventoryStats([]) == Stats(0, 0.0, 0, 0, 0, 0, 0, 0, 0.0)
  {
    assert Categories([]) == {};
  }

  /** The dashboard's totals are never negative when no record is. */
  lemma InventoryStatsNonNegative(inv: seq<Item>)
    requires NonNegativeStock(inv)
    ensures InventoryStats(inv).totalItems >= 0 && InventoryStats(inv).totalValue >= 0.0
  {
    SumsNonNegative(inv);
  }

  // ----- the cart -----

  function LineIds(cart: seq<CartLine>): (r: seq<int>)
    ensures |r| == |cart|
    ensures forall i :: 0 <= i < |cart| ==> r[i] == cart[i].id
  {
    seq(|cart|, i requires 0 <= i < |cart| => cart[i].id)
  }

  /** The cart invariant the add rule keeps: one line per item id, every line for at least one unit. */
  predicate CartValid(cart: seq<CartLine>)
  {
    Distinct(LineIds(cart)) && forall i :: 0 <= i < |cart| ==> cart[i].cartQuantity > 0
  }

  /** The request is well formed: an id other than 0 and a positive quantity. */
  predicate ValidCartRequest(itemId: Option<int>, quantity: Option<int>)
  {
    itemId.Some? && itemId.value != 0 && quantity.Some? && quantity.value > 0
  }

  /** A successful `addToCart`: grow the existing line for the item, or append a snapshot of it. */
  function CartAfterAdd(cart: seq<CartLine>, it: Item, q: int): seq<CartLine>
  {
    match IndexOf(LineIds(cart), it.id)
    case Some(j) => cart[j := cart[j].(cartQuantity := cart[j].cartQuantity + q)]
    case None => cart + [CartLine(it.id, it.name, it.price, q)]
  }

  /** Units of item `id` across the cart. */
  function QuantityFor(cart: seq<CartLine>, id: int): int
  {
    if cart == [] then 0
    else QuantityFor(cart[..|cart| - 1], id) + (if cart[|cart| - 1].id == id then cart[|cart| - 1].cartQuantity else 0)
  }

  lemma {:induction false} QuantityForUpdate(cart: seq<CartLine>, j: nat, line: CartLine, id: int)
    requires j < |cart|
    ensures QuantityFor(cart[j := line], id)
         == QuantityFor(cart, id) - (if cart[j].id == id then cart[j].cartQuantity else 0)
                                  + (if line.id == id then line.cartQuantity else 0)
  {
    var n := |cart| - 1;
    if j < n {
      assert cart[j := line][..n] == cart[..n][j := line];
      QuantityForUpdate(cart[..n], j, line, id);
    } else {
      assert cart[j := line][..n] == cart[..n];
    }
  }

  /** Adding q units of an item raises that item's units in the cart by q and no other item's,
      and the cart keeps one positive line per id. */
  lemma CartAfterAddEffect(cart: seq<CartLine>, it: Item, q: int, id: int)
    requires CartValid(cart) && q > 0
    ensures CartValid(CartAfterAdd(cart, it, q))
    ensures QuantityFor(CartAfterAdd(cart, it, q), id) == QuantityFor(cart, id) + (if id == it.id then q else 0)
  {
    var r := CartAfterAdd(cart, it, q);
    match IndexOf(LineIds(cart), it.id)
    case Some(j) =>
      QuantityForUpdate(cart, j, cart[j].(cartQuantity := cart[j].cartQuantity + q), id);
      assert LineIds(r) == LineIds(cart);
    case None =>
      assert r[..|r| - 1] == cart;
      assert forall i :: 0 <= i < |cart| ==> LineIds(r)[i] == LineIds(cart)[i];
  }

  /** `cart.splice(index, 1)`: the start position JavaScript derives from `index`
      (negative counts from the end, past the end clamps to the length). */
  function SpliceStart(len: nat, index: int): (s: nat)
    ensures s <= len
    ensures 0 <= index < len ==> s == index
  {
    if index < 0 then (if len + index < 0 then 0 else len + index)
    else if index > len then len
    else index
  }

  /** `removeFromCart`: drop the one line at the splice position, keeping the rest in order. */
  function RemoveAt(cart: seq<CartLine>, index: int): (r: seq<CartLine>)
  {
    var s := SpliceStart(|cart|, index);
    if s < |cart| then cart[..s] + cart[s + 1..] else cart
  }

  lemma RemoveAtEffect(cart: seq<CartLine>, index: int)
    requires CartValid(cart)
    ensures CartValid(RemoveAt(cart, index))
    ensures 0 <= index < |cart| ==> |RemoveAt(cart, index)| == |cart| - 1
    ensures 0 <= index < |cart| ==> cart[index] !in RemoveAt(cart, index)
    ensures forall l :: l in RemoveAt(cart, index) ==> l in cart
  {
    var s := SpliceStart(|cart|, index);
    if s < |cart| {
      var r := cart[..s] + cart[s + 1..];
      assert forall i :: 0 <= i < |r| ==> r[i] == cart[if i < s then i else i + 1];
      assert forall i :: 0 <= i < |r| ==> LineIds(r)[i] == LineIds(cart)[if i < s then i else i + 1];
      forall i | 0 <= i < |r| ensures r[i] != cart[s] {
        assert LineIds(cart)[if i < s then i else i + 1] != LineIds(cart)[s];
      }
    }
  }

  /** `cart.reduce((sum, item) => sum + item.price * item.cartQuantity, 0)`. */
  function CartSubtotal(cart: seq<CartLine>): real
  {
    if cart == [] then 0.0
    else CartSubtotal(cart[..|cart| - 1]) + cart[|cart| - 1].price * cart[|cart| - 1].cartQuantity as real
  }

  lemma {:induction false} CartSubtotalNonNegative(cart: seq<CartLine>)
    requires forall i :: 0 <= i < |cart| ==> cart[i].price >= 0.0 && cart[i].cartQuantity >= 0
    ensures CartSubtotal(cart) >= 0.0
  {
    if cart != [] {
      CartSubtotalNonNegative(cart[..|cart| - 1]);
    }
  }

  // ----- completing a purchase -----

  /** One line of `completePurchase`: take `q` units off the first record with the id, if any. */
  function DecrementFirst(inv: seq<Item>, id: int, q: int): seq<Item>
  {
    match FindItem(inv, id)
    case None => inv
    case Some(k) => inv[k := inv[k].(quantity := inv[k].quantity - q)]
  }

  /** The inventory after every cart line has been applied in order, with no stock check. */
  function ApplyPurchase(inv: seq<Item>, cart: seq<CartLine>): seq<Item>
  {
    if cart == [] then inv
    else
      var n := |cart| - 1;
      DecrementFirst(ApplyPurchase(inv, cart[..n]), cart[n].id, cart[n].cartQuantity)
  }

  /** Applying one more line of the cart is one more `DecrementFirst`. */
  lemma PurchaseStep(inv: seq<Item>, cart: seq<CartLine>, i: nat)
    requires i < |cart|
    ensures ApplyPurchase(inv, cart[..i + 1])
         == DecrementFirst(ApplyPurchase(inv, cart[..i]), cart[i].id, cart[i].cartQuantity)
  {
    assert cart[..i + 1][..i] == cart[..i];
  }

  /** A purchase changes only quantities. */
  lemma {:induction false} PurchaseShape(inv: seq<Item>, cart: seq<CartLine>)
    ensures |ApplyPurchase(inv, cart)| == |inv|
    ensures forall j :: 0 <= j < |inv| ==> ApplyPurchase(inv, cart)[j] == inv[j].(quantity := ApplyPurchase(inv, cart)[j].quantity)
    ensures Ids(ApplyPurchase(inv, cart)) == Ids(inv)
  {
    if cart != [] {
      PurchaseShape(inv, cart[..|cart| - 1]);
    }
  }

  /** `completePurchase` on stock: the first record with each id loses exactly the units
      of that id in the cart; later duplicates and records of items not in the cart keep
      their quantity; nothing else changes. */
  lemma {:induction false} PurchaseEffect(inv: seq<Item>, cart: seq<CartLine>, j: nat)
    requires j < |inv|
    ensures |ApplyPurchase(inv, cart)| == |inv|
    ensures ApplyPurchase(inv, cart)[j]
         == inv[j].(quantity := inv[j].quantity
                      - (if FindItem(inv, inv[j].id) == Some(j) then QuantityFor(cart, inv[j].id) else 0))
  {
    PurchaseShape(inv, cart);
    if cart != [] {
      var n := |cart| - 1;
      var before := ApplyPurchase(inv, cart[..n]);
      PurchaseEffect(inv, cart[..n], j);
      PurchaseShape(inv, cart[..n]);
      assert FindItem(before, cart[n].id) == FindItem(inv, cart[n].id);
    }
  }

  /** With one line per id (the cart invariant), a record in the cart loses exactly its line's units. */
  lemma {:induction false} QuantityForDistinct(cart: seq<CartLine>, k: nat)
    requires k < |cart| && Distinct(LineIds(cart))
    ensures QuantityFor(cart, cart[k].id) == cart[k].cartQuantity
  {
    var n := |cart| - 1;
    assert Distinct(LineIds(cart[..n])) by {
      assert forall i :: 0 <= i < n ==> LineIds(cart[..n])[i] == LineIds(cart)[i];
    }
    if k < n {
      QuantityForDistinct(cart[..n], k);
      assert LineIds(cart)[k] != LineIds(cart)[n];
    } else {
      QuantityForAbsent(cart[..n], cart[k].id);
    }
  }

  lemma {:induction false} QuantityForAbsent(cart: seq<CartLine>, id: int)
    requires forall i :: 0 <= i < |cart| ==> cart[i].id != id
    ensures QuantityFor(cart, id) == 0
  {
    if cart != [] {
      QuantityForAbsent(cart[..|cart| - 1], id);
    }
  }

  /** The worked example: a cart of 3 units of item 1 against 15 in stock leaves 12. */
  lemma PurchaseExample(it: Item)
    requires it.id == 1 && it.quantity == 15
    ensures ApplyPurchase([it], [CartLine(1, it.name, it.price, 3)]) == [it.(quantity := 12)]
  {
    var cart := [CartLine(1, it.name, it.price, 3)];
    assert cart[..0] == [];
    assert FindItem([it], 1) == Some(0);
  }

  /** Units of the cart that belong to a record present in `inv`. */
  function MatchedUnits(inv: seq<Item>, cart: seq<CartLine>): int
  {
    if cart == [] then 0
    else
      var n := |cart| - 1;
      MatchedUnits(inv, cart[..n]) + (if FindItem(inv, cart[n].id).Some? then cart[n].cartQuantity else 0)
  }

  lemma {:induction false} SumQuantityUpdate(inv: seq<Item>, k: nat, it: Item)
    requires k < |inv|
    ensures SumQuantity(inv[k := it]) == SumQuantity(inv) - inv[k].quantity + it.quantity
  {
    var n := |inv| - 1;
    if k < n {
      assert inv[k := it][..n] == inv[..n][k := it];
      SumQuantityUpdate(inv[..n], k, it);
    } else {
      assert inv[k := it][..n] == inv[..n];
    }
  }

  /** Total stock falls by exactly the cart units whose item is in the inventory. */
  lemma {:induction false} PurchaseTotal(inv: seq<Item>, cart: seq<CartLine>)
    ensures SumQuantity(ApplyPurchase(inv, cart)) == SumQuantity(inv) - MatchedUnits(inv, cart)
  {
    if cart != [] {
      var n := |cart| - 1;
      var line := cart[n];
      var before := ApplyPurchase(inv, cart[..n]);
      PurchaseTotal(inv, cart[..n]);
      PurchaseShape(inv, cart[..n]);
      DecrementFirstTotal(before, line.id, line.cartQuantity);
      assert FindItem(before, line.id) == FindItem(inv, line.id);
    }
  }

  lemma DecrementFirstTotal(inv: seq<Item>, id: int, q: int)
    ensures SumQuantity(DecrementFirst(inv, id, q)) == SumQuantity(inv) - (if FindItem(inv, id).Some? then q else 0)
  {
    var f := FindItem(inv, id);
    if f.Some? {
      var k := f.value;
      SumQuantityUpdate(inv, k, inv[k].(quantity := inv[k].quantity - q));
    }
  }
}
