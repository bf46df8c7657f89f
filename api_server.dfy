/** The Flask server's handler logic over its module-level `inventory` list of
    item dictionaries: validated create and update, delete, the read-only lookups
    and searches, and bill generation, which checks and decrements stock one cart
    line at a time and keeps what it already did when a later line fails. */
module ApiServer {
  import opened Common
  import opened Text
  import Catalog
  import Billing

  /** One item dictionary. */
  datatype Item = Item(id: int, name: string, category: string, price: real, quantity: int,
                       perishable: bool, expiry: string)

  /** A JSON request body for create or update: each field present or absent. */
  datatype Body = Body(name: Option<string>, category: Option<string>, price: Option<real>,
                       quantity: Option<int>, perishable: Option<bool>, expiry: Option<string>)

  /** One entry of the bill request's `cart` list. */
  datatype CartRequest = CartRequest(id: int, quantity: int)

  /** The errors the handlers report, one per distinct message. */
  datatype ApiError =
    | NameCategoryRequired
    | NegativePrice
    | NegativeQuantity
    | ItemNotFound
    | CartEmpty
    | LineNotFound(id: int)
    | InsufficientStock(name: string)

  /** The part of a JSON reply every handler shares: status code, `success` flag, `error`. */
  datatype Response = Response(status: int, success: bool, error: Option<ApiError>)

  /** The `get_low_stock` reply. */
  datatype LowStock = LowStock(count: nat, items: seq<Item>)

  /** One row of a bill. */
  datatype BillLine = BillLine(id: int, name: string, quantity: int, rate: real, amount: real)

  /** The bill a successful `generate_bill` returns (the timestamp is left out). */
  datatype Bill = Bill(items: seq<BillLine>, discountPercent: real, taxPercent: real, totals: Billing.Totals)

  /** Lookups of a missing item answer 404; every other error answers 400. */
  function StatusFor(e: ApiError): (code: int)
    ensures code == 404 <==> e.ItemNotFound? || e.LineNotFound?
    ensures code != 404 ==> code == 400
  {
    if e.ItemNotFound? || e.LineNotFound? then 404 else 400
  }

  /** The failure reply for an error. */
  function Failure(e: ApiError): (r: Response)
    ensures !r.success && r.error == Some(e) && r.status == StatusFor(e)
  {
    Response(StatusFor(e), false, Some(e))
  }

  /** The `error` text of the reply. */
  function Message(e: ApiError): string
  {
    match e
    case NameCategoryRequired => "Name and category required"
    case NegativePrice => "Price cannot be negative"
    case NegativeQuantity => "Quantity cannot be negative"
    case ItemNotFound => "Item not found"
    case CartEmpty => "Cart is empty"
    case LineNotFound(id) => "Item " + IntText(id) + " not found"
    case InsufficientStock(name) => "Insufficient stock for " + name
  }

  /** Every error has its own text, so a client can tell the errors apart from `error` alone. */
  lemma MessageInjective(e1: ApiError, e2: ApiError)
    requires Message(e1) == Message(e2)
    ensures e1 == e2
  {
    MessageShape(e1);
    MessageShape(e2);
    var m := Message(e1);
    if e1.LineNotFound? && e2.LineNotFound? {
      var t1, t2 := IntText(e1.id), IntText(e2.id);
      assert |t1| == |t2|;
      assert t1 == m[5..5 + |t1|] == t2;
      IntTextInjective(e1.id, e2.id);
    } else if e1.InsufficientStock? && e2.InsufficientStock? {
      assert e1.name == m[23..] == e2.name;
    }
  }

  /** The opening letters and the length of each message, enough to tell any two kinds apart. */
  lemma MessageShape(e: ApiError)
    ensures |Message(e)| >= 13
    ensures e.NameCategoryRequired? ==> Message(e)[0] == 'N'
    ensures e.NegativePrice? ==> Message(e)[0] == 'P'
    ensures e.NegativeQuantity? ==> Message(e)[0] == 'Q'
    ensures e.CartEmpty? ==> Message(e)[0] == 'C'
    ensures e.ItemNotFound? ==> Message(e)[0] == 'I' && Message(e)[1] == 't' && |Message(e)| == 14
    ensures e.LineNotFound? ==> Message(e)[0] == 'I' && Message(e)[1] == 't' && |Message(e)| > 15
    ensures e.InsufficientStock? ==> Message(e)[0] == 'I' && Message(e)[1] == 'n' && |Message(e)| >= 23
  {
    if e.LineNotFound? {
      NatTextNonEmpty(if e.id < 0 then -e.id else e.id);
    }
  }

  lemma {:induction false} NatTextNonEmpty(n: nat)
    ensures |NatText(n)| >= 1 && (n >= 10 ==> |NatText(n)| >= 2)
    ensures NatText(n)[0] != '-'
  {
    if n >= 10 {
      NatTextNonEmpty(n / 10);
    }
  }

  /** Different numbers are written differently. */
  lemma {:induction false} NatTextInjective(a: nat, b: nat)
    requires NatText(a) == NatText(b)
    ensures a == b
  {
    NatTextNonEmpty(a);
    NatTextNonEmpty(b);
    if a >= 10 && b >= 10 {
      var ta, tb := NatText(a), NatText(b);
      assert ta[..|ta| - 1] == NatText(a / 10);
      assert tb[..|tb| - 1] == NatText(b / 10);
      NatTextInjective(a / 10, b / 10);
      assert "0123456789"[a % 10] == ta[|ta| - 1] == tb[|tb| - 1] == "0123456789"[b % 10];
    } else if a < 10 && b < 10 {
      assert "0123456789"[a] == NatText(a)[0] == NatText(b)[0] == "0123456789"[b];
    }
  }

  lemma IntTextInjective(a: int, b: int)
    requires IntText(a) == IntText(b)
    ensures a == b
  {
    NatTextNonEmpty(if a < 0 then -a else a);
    NatTextNonEmpty(if b < 0 then -b else b);
    if a < 0 && b < 0 {
      assert NatText(-a) == IntText(a)[1..] == NatText(-b);
      NatTextInjective(-a, -b);
    } else if a >= 0 && b >= 0 {
      NatTextInjective(a, b);
    } else {
      assert false;
    }
  }

  /** Decimal text of an integer, as an f-string writes it. */
  function IntText(n: int): string
  {
    if n < 0 then "-" + NatText(-n) else NatText(n)
  }

  function NatText(n: nat): string
  {
    if n < 10 then [Digit(n)] else NatText(n / 10) + [Digit(n % 10)]
  }

  function Digit(d: nat): char
    requires d < 10
  {
    "0123456789"[d]
  }

  function Ids(inv: seq<Item>): (r: seq<int>)
    ensures |r| == |inv|
    ensures forall i :: 0 <= i < |inv| ==> r[i] == inv[i].id
  {
    seq(|inv|, i requires 0 <= i < |inv| => inv[i].id)
  }

  /** `next((i for i in inventory if i['id'] == id), None)`, as the position of the first match. */
  function FindItem(inv: seq<Item>, id: int): (r: Option<nat>)
    ensures r.Some? ==> r.value < |inv| && inv[r.value].id == id
    ensures r.Some? ==> forall j :: 0 <= j < r.value ==> inv[j].id != id
    ensures r.None? <==> forall j :: 0 <= j < |inv| ==> inv[j].id != id
  {
    IndexOf(Ids(inv), id)
  }

  /** What the server holds between requests: distinct ids, and no negative price or quantity. */
  predicate Stocked(inv: seq<Item>)
  {
    Distinct(Ids(inv))
    && forall i :: 0 <= i < |inv| ==> inv[i].price >= 0.0 && inv[i].quantity >= 0
  }

  /** The module-level list the server starts with: the twenty sample products, ids 1 to 20. */
  function SampleInventory(): (s: seq<Item>)
    ensures |s| == 20 && Stocked(s)
    ensures forall k :: 0 <= k < |s| ==> s[k].id == k + 1
  {
    Catalog.EntriesWellFormed();
    seq(20, k requires 0 <= k < 20 =>
      var e := Catalog.Entries[k];
      Item(k + 1, e.name, e.category, e.price, e.quantity, e.perishable, e.expiry))
  }

  /** `max((i['id'] for i in inventory), default=0) + 1`. */
  function NewId(inv: seq<Item>): (id: int)
    ensures forall i :: 0 <= i < |inv| ==> inv[i].id < id
    ensures inv == [] ==> id == 1
    ensures inv != [] ==> exists i :: 0 <= i < |inv| && id == inv[i].id + 1
  {
    if inv == [] then 1
    else
      var m := MaxOr(Ids(inv[1..]), inv[0].id);
      assert forall i :: 1 <= i < |inv| ==> Ids(inv[1..])[i - 1] == inv[i].id;
      assert m == inv[0].id || exists i :: 1 <= i < |inv| && m == inv[i].id;
      m + 1
  }

  /** Unlike the browser's `Math.max(...ids, 0) + 1`, the default only applies to an empty list:
      when every id is negative the new id is not positive. */
  lemma NewIdAllNegative(it: Item)
    requires it.id == -3
    ensures NewId([it]) == -2
  {
    assert Ids([it]) == [-3];
    assert Ids([it][1..]) == [];
  }

  /** The create checks, in the order `add_item` makes them: name and category
      present and non-empty, then price, then quantity (absent counts as 0). */
  function AddCheck(b: Body): (r: Option<ApiError>)
    ensures r == Some(NameCategoryRequired) <==>
      b.name == None || b.name == Some("") || b.category == None || b.category == Some("")
    ensures r == Some(NegativePrice) <==>
      b.name.Some? && b.name.value != "" && b.category.Some? && b.category.value != ""
      && b.price.GetOr(0.0) < 0.0
    ensures r == Some(NegativeQuantity) <==>
      b.name.Some? && b.name.value != "" && b.category.Some? && b.category.value != ""
      && b.price.GetOr(0.0) >= 0.0 && b.quantity.GetOr(0) < 0
    ensures r == None || r == Some(NameCategoryRequired) || r == Some(NegativePrice) || r == Some(NegativeQuantity)
  {
    if b.name.GetOr("") == "" || b.category.GetOr("") == "" then Some(NameCategoryRequired)
    else if b.price.GetOr(0.0) < 0.0 then Some(NegativePrice)
    else if b.quantity.GetOr(0) < 0 then Some(NegativeQuantity)
    else None
  }

  /** The dictionary `add_item` builds: absent price and quantity are 0, absent
      `perishable` is false, absent `expiry` is the empty string. */
  function NewItem(b: Body, id: int): (it: Item)
    requires b.name.Some? && b.category.Some?
    ensures AddCheck(b).None? ==>
      it.name != "" && it.category != "" && it.price >= 0.0 && it.quantity >= 0
    ensures b.price.None? ==> it.price == 0.0
    ensures b.quantity.None? ==> it.quantity == 0
    ensures b.perishable.None? ==> !it.perishable
    ensures b.expiry.None? ==> it.expiry == ""
  {
    Item(id, b.name.value, b.category.value, b.price.GetOr(0.0), b.quantity.GetOr(0),
         b.perishable.GetOr(false), b.expiry.GetOr(""))
  }

  /** A create that passed the checks keeps the list stocked, and the new item is the one
      a lookup of the new id finds, at the end of the list. */
  lemma AddKeepsStocked(inv: seq<Item>, b: Body)
    requires Stocked(inv) && AddCheck(b).None?
    ensures Stocked(inv + [NewItem(b, NewId(inv))])
    ensures FindItem(inv + [NewItem(b, NewId(inv))], NewId(inv)) == Some(|inv|)
  {
    var it := NewItem(b, NewId(inv));
    var r := inv + [it];
    assert forall i :: 0 <= i < |inv| ==> r[i] == inv[i] && Ids(r)[i] == Ids(inv)[i];
    assert Ids(r)[|inv|] == NewId(inv);
  }

  /** The update checks, in the order `update_item` makes them: the id must exist,
      then a present price and a present quantity must not be negative. */
  function UpdateCheck(inv: seq<Item>, id: int, b: Body): (r: Option<ApiError>)
    ensures r == Some(ItemNotFound) <==> FindItem(inv, id).None?
    ensures r == Some(NegativePrice) <==> FindItem(inv, id).Some? && b.price.Some? && b.price.value < 0.0
    ensures r == Some(NegativeQuantity) <==>
      FindItem(inv, id).Some? && !(b.price.Some? && b.price.value < 0.0) && b.quantity.Some? && b.quantity.value < 0
    ensures r == None || r == Some(ItemNotFound) || r == Some(NegativePrice) || r == Some(NegativeQuantity)
  {
    if FindItem(inv, id).None? then Some(ItemNotFound)
    else if b.price.Some? && b.price.value < 0.0 then Some(NegativePrice)
    else if b.quantity.Some? && b.quantity.value < 0 then Some(NegativeQuantity)
    else None
  }

  /** The field writes of `update_item`: each of name, category, price, quantity and
      expiry is replaced when the body has it; `perishable` in a body is ignored. */
  function ApplyBody(it: Item, b: Body): (r: Item)
  {
    Item(it.id, b.name.GetOr(it.name), b.category.GetOr(it.category), b.price.GetOr(it.price),
         b.quantity.GetOr(it.quantity), it.perishable, b.expiry.GetOr(it.expiry))
  }

  /** An update never changes the id or the perishable flag, changes a field exactly when
      the body carries it, and with a body that passed the checks keeps the item in stock. */
  lemma ApplyBodyEffect(it: Item, b: Body)
    ensures ApplyBody(it, b).id == it.id && ApplyBody(it, b).perishable == it.perishable
    ensures b.name.None? ==> ApplyBody(it, b).name == it.name
    ensures b.name.Some? ==> ApplyBody(it, b).name == b.name.value
    ensures b.category.None? ==> ApplyBody(it, b).category == it.category
    ensures b.category.Some? ==> ApplyBody(it, b).category == b.category.value
    ensures b.price.None? ==> ApplyBody(it, b).price == it.price
    ensures b.price.Some? ==> ApplyBody(it, b).price == b.price.value
    ensures b.quantity.None? ==> ApplyBody(it, b).quantity == it.quantity
    ensures b.quantity.Some? ==> ApplyBody(it, b).quantity == b.quantity.value
    ensures b.expiry.None? ==> ApplyBody(it, b).expiry == it.expiry
    ensures b.expiry.Some? ==> ApplyBody(it, b).expiry == b.expiry.value
    ensures it.price >= 0.0 && it.quantity >= 0 && b.price.GetOr(0.0) >= 0.0 && b.quantity.GetOr(0) >= 0 ==>
      ApplyBody(it, b).price >= 0.0 && ApplyBody(it, b).quantity >= 0
    ensures b == Body(None, None, None, None, b.perishable, None) ==> ApplyBody(it, b) == it
  {
  }

  /** `[i for i in inventory if i['id'] != item_id]`. */
  function WithoutId(inv: seq<Item>, id: int): (r: seq<Item>)
    ensures forall i :: 0 <= i < |r| ==> r[i] in inv && r[i].id != id
    ensures forall i :: 0 <= i < |inv| && inv[i].id != id ==> inv[i] in r
  {
    Filter(inv, (it: Item) => it.id != id)
  }

  /** Keeping a sub-list keeps the ids distinct and the stock non-negative. */
  lemma {:induction false} FilterStocked(inv: seq<Item>, p: Item -> bool)
    requires Stocked(inv)
    ensures Stocked(Filter(inv, p))
  {
    if inv != [] {
      StockedTail(inv);
      FilterStocked(inv[1..], p);
      var rest := Filter(inv[1..], p);
      if p(inv[0]) {
        forall i | 0 <= i < |rest| ensures rest[i].id != inv[0].id {
          var j :| 0 <= j < |inv| - 1 && inv[1..][j] == rest[i];
          assert Ids(inv)[j + 1] == rest[i].id && Ids(inv)[0] == inv[0].id;
        }
        StockedCons(inv[0], rest);
      }
    }
  }

  lemma StockedTail(inv: seq<Item>)
    requires Stocked(inv) && inv != []
    ensures Stocked(inv[1..])
  {
    assert forall i :: 0 <= i < |inv| - 1 ==> Ids(inv[1..])[i] == Ids(inv)[i + 1];
  }

  lemma StockedCons(x: Item, rest: seq<Item>)
    requires Stocked(rest) && x.price >= 0.0 && x.quantity >= 0
    requires forall i :: 0 <= i < |rest| ==> rest[i].id != x.id
    ensures Stocked([x] + rest)
  {
    var r := [x] + rest;
    assert forall i :: 0 < i < |r| ==> r[i] == rest[i - 1] && Ids(r)[i] == Ids(rest)[i - 1];
  }

  /** Removing an id that is present shortens the list; the removed items are exactly those with the id. */
  lemma WithoutPresentId(inv: seq<Item>, id: int, k: nat)
    requires k < |inv| && inv[k].id == id
    ensures |WithoutId(inv, id)| < |inv|
    ensures |WithoutId(inv, id)| == |inv| - Count(inv, (it: Item) => it.id == id)
  {
    var p := (it: Item) => it.id != id;
    var q := (it: Item) => it.id == id;
    FilterLength(inv, p);
    CountSplit(inv, p, q);
    assert q(inv[k]);
  }

  /** `get_item`: 404 when no item has the id, otherwise 200 and the first such item. */
  function GetItem(inv: seq<Item>, id: int): (r: (int, Option<Item>))
    ensures r.0 == 404 <==> forall j :: 0 <= j < |inv| ==> inv[j].id != id
    ensures r.0 == 404 <==> r.1.None?
    ensures r.0 != 404 ==> r.0 == 200 && r.1.value.id == id && r.1.value in inv
    ensures r.0 != 404 ==> exists k :: 0 <= k < |inv| && r.1.value == inv[k]
                                       && forall j :: 0 <= j < k ==> inv[j].id != id
  {
    match FindItem(inv, id)
    case None => (404, None)
    case Some(k) => (200, Some(inv[k]))
  }

  predicate NameHas(it: Item, queryLower: string)
  {
    Contains(Lower(it.name), queryLower)
  }

  /** `search_by_name`: the items, in order, whose lowercased name contains the lowercased query. */
  function SearchByName(inv: seq<Item>, query: string): (r: seq<Item>)
    ensures forall i :: 0 <= i < |r| ==> r[i] in inv && Contains(Lower(r[i].name), Lower(query))
    ensures forall i :: 0 <= i < |inv| && Contains(Lower(inv[i].name), Lower(query)) ==> inv[i] in r
  {
    Filter(inv, (it: Item) => NameHas(it, Lower(query)))
  }

  predicate CategoryIs(it: Item, categoryLower: string)
  {
    Lower(it.category) == categoryLower
  }

  /** `search_by_category`: the items, in order, whose lowercased category equals the lowercased query. */
  function SearchByCategory(inv: seq<Item>, category: string): (r: seq<Item>)
    ensures forall i :: 0 <= i < |r| ==> r[i] in inv && Lower(r[i].category) == Lower(category)
    ensures forall i :: 0 <= i < |inv| && Lower(inv[i].category) == Lower(category) ==> inv[i] in r
  {
    Filter(inv, (it: Item) => CategoryIs(it, Lower(category)))
  }

  /** Both searches ignore the case of the query, and an empty name query matches everything. */
  lemma SearchesIgnoreCase(inv: seq<Item>, query: string)
    ensures SearchByName(inv, Lower(query)) == SearchByName(inv, query)
    ensures SearchByCategory(inv, Lower(query)) == SearchByCategory(inv, query)
    ensures SearchByName(inv, "") == inv
  {
    LowerIdempotent(query);
    assert Lower("") == "";
    forall it: Item {
      ContainsEmpty(Lower(it.name));
    }
    FilterKeepsAll(inv, (it: Item) => NameHas(it, Lower("")));
  }

  predicate IsLow(it: Item)
  {
    it.quantity <= 5
  }

  /** `get_low_stock`: the items with at most 5 units, in order, and how many there are. */
  function GetLowStock(inv: seq<Item>): (r: LowStock)
    ensures r.count == |r.items| == Count(inv, IsLow)
    ensures forall i :: 0 <= i < |r.items| ==> r.items[i] in inv && r.items[i].quantity <= 5
    ensures forall i :: 0 <= i < |inv| && inv[i].quantity <= 5 ==> inv[i] in r.items
  {
    var low := Filter(inv, IsLow);
    FilterLength(inv, IsLow);
    LowStock(|low|, low)
  }

  /** Where a bill stands after some cart lines: the list, the rows so far, the running
      subtotal, and the error that stopped it, if any. */
  datatype Run = Run(inv: seq<Item>, lines: seq<BillLine>, subtotal: real, failure: Option<ApiError>)

  /** The `amount` of a bill row: `price * quantity`. */
  function Amount(price: real, quantity: int): real
  {
    price * (quantity as real)
  }

  /** One pass of the `generate_bill` loop: find the line's item, check the current stock,
      add the row and take the units off at once. */
  function BillStep(r: Run, c: CartRequest): Run
  {
    match FindItem(r.inv, c.id)
    case None => r.(failure := Some(LineNotFound(c.id)))
    case Some(k) =>
      var it := r.inv[k];
      if it.quantity < c.quantity then r.(failure := Some(InsufficientStock(it.name)))
      else
        var amount := Amount(it.price, c.quantity);
        Run(r.inv[k := it.(quantity := it.quantity - c.quantity)],
            r.lines + [BillLine(c.id, it.name, c.quantity, it.price, amount)],
            r.subtotal + amount, None)
  }

  /** The step for a line whose item is at `k` with enough stock. */
  lemma BillStepTaken(r: Run, c: CartRequest, k: nat)
    requires FindItem(r.inv, c.id) == Some(k) && r.inv[k].quantity >= c.quantity
    ensures BillStep(r, c) ==
      Run(r.inv[k := r.inv[k].(quantity := r.inv[k].quantity - c.quantity)],
          r.lines + [BillLine(c.id, r.inv[k].name, c.quantity, r.inv[k].price, Amount(r.inv[k].price, c.quantity))],
          r.subtotal + Amount(r.inv[k].price, c.quantity), None)
  {
  }

  /** The loop over a whole cart: it stops at the first failing line and undoes nothing. */
  function BillRun(inv: seq<Item>, cart: seq<CartRequest>): Run
  {
    if cart == [] then Run(inv, [], 0.0, None)
    else
      var r := BillRun(inv, cart[..|cart| - 1]);
      if r.failure.Some? then r else BillStep(r, cart[|cart| - 1])
  }

  /** The bill run on a cart one line longer. */
  lemma BillRunStep(inv: seq<Item>, cart: seq<CartRequest>, i: nat)
    requires i < |cart|
    ensures BillRun(inv, cart[..i + 1]) ==
      var r := BillRun(inv, cart[..i]);
      if r.failure.Some? then r else BillStep(r, cart[i])
  {
    assert cart[..i + 1][..i] == cart[..i];
  }

  /** Once a line has failed, later lines change nothing. */
  lemma {:induction false} FailureSticks(inv: seq<Item>, cart: seq<CartRequest>, j: nat)
    requires j <= |cart| && BillRun(inv, cart[..j]).failure.Some?
    ensures BillRun(inv, cart) == BillRun(inv, cart[..j])
  {
    if j < |cart| {
      var n := |cart| - 1;
      assert cart[..n][..j] == cart[..j];
      FailureSticks(inv, cart[..n], j);
    } else {
      assert cart[..j] == cart;
    }
  }

  /** No rollback: when line `k` is the first to fail, the list keeps the decrements of
      lines 0 to k-1 and the reply carries line k's error. */
  lemma NoRollback(inv: seq<Item>, cart: seq<CartRequest>, k: nat)
    requires k < |cart|
    requires BillRun(inv, cart[..k]).failure.None? && BillRun(inv, cart[..k + 1]).failure.Some?
    ensures BillRun(inv, cart).inv == BillRun(inv, cart[..k]).inv
    ensures BillRun(inv, cart).failure == BillStep(BillRun(inv, cart[..k]), cart[k]).failure
  {
    BillRunStep(inv, cart, k);
    FailureSticks(inv, cart, k + 1);
  }

  /** `b` is `a` with possibly different quantities and nothing else changed. */
  predicate OnlyQuantities(a: seq<Item>, b: seq<Item>)
  {
    |a| == |b| && forall j :: 0 <= j < |a| ==> b[j] == a[j].(quantity := b[j].quantity)
  }

  /** Lists that differ only in quantities find every id at the same place. */
  lemma OnlyQuantitiesFind(a: seq<Item>, b: seq<Item>, id: int)
    requires OnlyQuantities(a, b)
    ensures FindItem(b, id) == FindItem(a, id)
  {
    assert Ids(a) == Ids(b);
  }

  /** The price of a line's item in the list the bill started from (0 when it is missing). */
  function PriceOf(inv: seq<Item>, id: int): real
  {
    match FindItem(inv, id)
    case None => 0.0
    case Some(k) => inv[k].price
  }

  /** `price · quantity` for one cart line, at the price of the original list. */
  function LineValue(inv: seq<Item>, c: CartRequest): real
  {
    Amount(PriceOf(inv, c.id), c.quantity)
  }

  /** `Σ price · quantity` over the cart, at the prices of the original list. */
  function CartValue(inv: seq<Item>, cart: seq<CartRequest>): real
  {
    if cart == [] then 0.0
    else CartValue(inv, cart[..|cart| - 1]) + LineValue(inv, cart[|cart| - 1])
  }

  /** One bill step changes nothing but quantities: the ids, names, categories, prices, flags
      and expiry dates of every item stay as they were. */
  lemma BillStepOnlyQuantities(r: Run, c: CartRequest)
    ensures OnlyQuantities(r.inv, BillStep(r, c).inv)
  {
  }

  /** A bill run changes only quantities. */
  lemma {:induction false} BillRunOnlyQuantities(inv: seq<Item>, cart: seq<CartRequest>)
    ensures OnlyQuantities(inv, BillRun(inv, cart).inv)
  {
    if cart != [] {
      var prev := cart[..|cart| - 1];
      BillRunOnlyQuantities(inv, prev);
      var r := BillRun(inv, prev);
      if r.failure.None? {
        BillStepOnlyQuantities(r, cart[|cart| - 1]);
      }
    }
  }

  /** The bill row for cart line `c`: its id and units, the item's original price, and their product. */
  predicate RowFor(l: BillLine, inv: seq<Item>, c: CartRequest)
  {
    l.id == c.id && l.quantity == c.quantity && l.rate == PriceOf(inv, c.id)
    && l.amount == LineValue(inv, c)
  }

  /** A successful step on a list that differs from `inv` only in quantities appends
      the line's row at the original price and adds its amount to the subtotal. */
  lemma BillStepRow(inv: seq<Item>, r: Run, c: CartRequest)
    requires OnlyQuantities(inv, r.inv) && BillStep(r, c).failure.None?
    ensures |BillStep(r, c).lines| == |r.lines| + 1
    ensures BillStep(r, c).lines[..|r.lines|] == r.lines
    ensures RowFor(BillStep(r, c).lines[|r.lines|], inv, c)
    ensures BillStep(r, c).subtotal == r.subtotal + LineValue(inv, c)
  {
    OnlyQuantitiesFind(inv, r.inv, c.id);
  }

  /** While no line has failed, the run has one row per line, in order, each at the item's
      original price, and the subtotal is the cart's value at those prices. */
  lemma {:induction false} BillRunLines(inv: seq<Item>, cart: seq<CartRequest>)
    requires BillRun(inv, cart).failure.None?
    ensures |BillRun(inv, cart).lines| == |cart|
    ensures BillRun(inv, cart).subtotal == CartValue(inv, cart)
    ensures forall i :: 0 <= i < |cart| ==> RowFor(BillRun(inv, cart).lines[i], inv, cart[i])
  {
    if cart != [] {
      var n := |cart| - 1;
      var prev := cart[..n];
      var r := BillRun(inv, prev);
      BillRunLines(inv, prev);
      BillRunOnlyQuantities(inv, prev);
      BillStepRow(inv, r, cart[n]);
      var s := BillStep(r, cart[n]);
      assert BillRun(inv, cart) == s;
      forall i | 0 <= i < n ensures RowFor(s.lines[i], inv, cart[i]) {
        assert s.lines[i] == s.lines[..n][i] == r.lines[i];
        assert cart[i] == prev[i];
      }
    }
  }

  /** With no negative quantity to start from, no quantity goes below zero, whichever line fails. */
  lemma {:induction false} BillRunStaysStocked(inv: seq<Item>, cart: seq<CartRequest>)
    requires Stocked(inv)
    ensures Stocked(BillRun(inv, cart).inv)
  {
    if cart != [] {
      var prev := cart[..|cart| - 1];
      BillRunStaysStocked(inv, prev);
      BillRunOnlyQuantities(inv, prev);
      BillRunOnlyQuantities(inv, cart);
      var a := BillRun(inv, prev).inv;
      var b := BillRun(inv, cart).inv;
      assert Ids(b) == Ids(a) == Ids(inv);
    }
  }

  /** Two lines for the same item are each checked against the stock left by the earlier
      ones: with 5 units, two lines of 3 fail on the second, and the first line's 3 units
      stay taken. */
  lemma DuplicateLineExample(it: Item)
    requires it.id == 1 && it.quantity == 5
    ensures BillRun([it], [CartRequest(1, 3), CartRequest(1, 3)]).failure == Some(InsufficientStock(it.name))
    ensures BillRun([it], [CartRequest(1, 3), CartRequest(1, 3)]).inv == [it.(quantity := 2)]
  {
    var cart := [CartRequest(1, 3), CartRequest(1, 3)];
    assert Ids([it]) == [1];
    assert FindItem([it], 1) == Some(0);
    BillRunStep([it], cart, 0);
    assert cart[..0] == [];
    var r1 := BillRun([it], cart[..1]);
    assert r1.inv == [it.(quantity := 2)];
    assert Ids(r1.inv) == [1];
    assert FindItem(r1.inv, 1) == Some(0);
    BillRunStep([it], cart, 1);
    assert cart[..2] == cart;
  }

  /** The handlers as operations on the module-level list. */
  class Server {
    var inventory: seq<Item>

    ghost predicate Valid()
      reads this
    {
      Stocked(inventory)
    }

    constructor ()
      ensures Valid() && inventory == SampleInventory()
    {
      inventory := SampleInventory();
    }

    /** `add_item`: 400 and no change when a check fails, otherwise a new item under
        the next id is appended and the reply is 201. */
    method AddItem(b: Body) returns (resp: Response)
      requires Valid()
      modifies this
      ensures Valid()
      ensures AddCheck(b).Some? ==> resp == Failure(AddCheck(b).value) && inventory == old(inventory)
      ensures AddCheck(b).None? ==>
        resp == Response(201, true, None)
        && inventory == old(inventory) + [NewItem(b, NewId(old(inventory)))]
    {
      var err := AddCheck(b);
      if err.Some? {
        return Failure(err.value);
      }
      var id := NewId(inventory);
      var it := NewItem(b, id);
      assert forall i :: 0 <= i < |inventory| ==> (inventory + [it])[i] == inventory[i];
      inventory := inventory + [it];
      resp := Response(201, true, None);
    }

    /** `update_item`: 404, or 400 for a negative price or quantity, with nothing written;
        otherwise the first item with the id gets the body's fields and the reply is 200. */
    method UpdateItem(id: int, b: Body) returns (resp: Response)
      requires Valid()
      modifies this
      ensures Valid()
      ensures UpdateCheck(old(inventory), id, b).Some? ==>
        resp == Failure(UpdateCheck(old(inventory), id, b).value) && inventory == old(inventory)
      ensures UpdateCheck(old(inventory), id, b).None? ==>
        var k := FindItem(old(inventory), id).value;
        resp == Response(200, true, None)
        && inventory == old(inventory)[k := ApplyBody(old(inventory)[k], b)]
    {
      var err := UpdateCheck(inventory, id, b);
      if err.Some? {
        return Failure(err.value);
      }
      var k := FindItem(inventory, id).value;
      var updated := ApplyBody(inventory[k], b);
      assert Ids(inventory[k := updated]) == Ids(inventory);
      inventory := inventory[k := updated];
      resp := Response(200, true, None);
    }

    /** `delete_item`: 404 and no change when the id is absent; otherwise every item
        with the id is dropped and the reply is 200. */
    method DeleteItem(id: int) returns (resp: Response)
      requires Valid()
      modifies this
      ensures Valid()
      ensures FindItem(old(inventory), id).None? ==> resp == Failure(ItemNotFound) && inventory == old(inventory)
      ensures FindItem(old(inventory), id).Some? ==>
        resp == Response(200, true, None) && inventory == WithoutId(old(inventory), id)
    {
      if FindItem(inventory, id).None? {
        return Failure(ItemNotFound);
      }
      FilterStocked(inventory, (it: Item) => it.id != id);
      inventory := WithoutId(inventory, id);
      resp := Response(200, true, None);
    }

    /** One pass of the `generate_bill` loop body on the current list, with the rows and
        subtotal so far: on success the item's units are taken off in place. */
    method TakeLine(c: CartRequest, lines: seq<BillLine>, subtotal: real) returns (r: Run)
      modifies this
      ensures r == BillStep(Run(old(inventory), lines, subtotal, None), c)
      ensures inventory == r.inv
    {
      ghost var before := Run(inventory, lines, subtotal, None);
      var found := FindItem(inventory, c.id);
      if found.None? {
        return Run(inventory, lines, subtotal, Some(LineNotFound(c.id)));
      }
      var k := found.value;
      var it := inventory[k];
      if it.quantity < c.quantity {
        return Run(inventory, lines, subtotal, Some(InsufficientStock(it.name)));
      }
      BillStepTaken(before, c, k);
      var amount := Amount(it.price, c.quantity);
      inventory := inventory[k := it.(quantity := it.quantity - c.quantity)];
      r := Run(inventory, lines + [BillLine(c.id, it.name, c.quantity, it.price, amount)], subtotal + amount, None);
    }

    /** `generate_bill`: 400 for an empty cart; otherwise the lines are processed in order,
        each checked against the current stock and taken off at once, and the first failing
        line ends the request with its error and without undoing the earlier lines. */
    method GenerateBill(cart: seq<CartRequest>, tax: Option<real>, discount: Option<real>)
      returns (resp: Response, bill: Option<Bill>)
      requires Valid()
      modifies this
      ensures Valid()
      ensures cart == [] ==> resp == Failure(CartEmpty) && bill == None && inventory == old(inventory)
      ensures cart != [] ==> inventory == BillRun(old(inventory), cart).inv
      ensures cart != [] && BillRun(old(inventory), cart).failure.Some? ==>
        resp == Failure(BillRun(old(inventory), cart).failure.value) && bill == None
      ensures cart != [] && BillRun(old(inventory), cart).failure.None? ==>
        var run := BillRun(old(inventory), cart);
        resp == Response(200, true, None)
        && bill == Some(Bill(run.lines, discount.GetOr(Billing.DefaultDiscountPercent),
                             tax.GetOr(Billing.DefaultTaxPercent),
                             Billing.Summarize(run.subtotal, discount.GetOr(Billing.DefaultDiscountPercent),
                                               tax.GetOr(Billing.DefaultTaxPercent))))
    {
      if cart == [] {
        return Failure(CartEmpty), None;
      }
      BillRunStaysStocked(inventory, cart);
      var lines: seq<BillLine> := [];
      var subtotal := 0.0;
      var i := 0;
      while i < |cart|
        invariant 0 <= i <= |cart|
        invariant BillRun(old(inventory), cart[..i]) == Run(inventory, lines, subtotal, None)
      {
        BillRunStep(old(inventory), cart, i);
        var r := TakeLine(cart[i], lines, subtotal);
        if r.failure.Some? {
          FailureSticks(old(inventory), cart, i + 1);
          return Failure(r.failure.value), None;
        }
        lines, subtotal := r.lines, r.subtotal;
        i := i + 1;
      }
      assert cart[..i] == cart;
      var d := discount.GetOr(Billing.DefaultDiscountPercent);
      var g := tax.GetOr(Billing.DefaultTaxPercent);
      resp := Response(200, true, None);
      bill := Some(Bill(lines, d, g, Billing.Summarize(subtotal, d, g)));
    }
  }

  /** On success the bill's subtotal is `Σ price · quantity` over the cart at the original
      prices, and its total follows the shared discount-then-tax formula. */
  lemma BillTotals(inv: seq<Item>, cart: seq<CartRequest>, tax: Option<real>, discount: Option<real>)
    requires BillRun(inv, cart).failure.None?
    ensures Billing.Summarize(BillRun(inv, cart).subtotal, discount.GetOr(Billing.DefaultDiscountPercent),
                              tax.GetOr(Billing.DefaultTaxPercent)).total ==
      CartValue(inv, cart) * (1.0 - discount.GetOr(0.0) / 100.0) * (1.0 + tax.GetOr(5.0) / 100.0)
  {
    BillRunLines(inv, cart);
  }
}
