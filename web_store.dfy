/** The browser front end's module-level state (`inventory`, `cart` and the
    `API_AVAILABLE` flag) as one Store object, with the offline branches of the
    data-access calls, the cart operations and purchase completion. Each network
    call is replaced by its outcome, passed in as a parameter. */
module WebStore {
  import opened Common
  import opened WebModel
  import Billing

  /** How a remote write (POST, PUT or DELETE) came back: no usable reply (a
      transport error or a body that is not JSON), or a reply with its `success` flag. */
  datatype Reply = NoReply | Replied(success: bool)

  datatype CartOutcome = Added | InvalidInput | ItemNotFound | InsufficientStock

  /** What `fetchItems` leaves behind, as (inventory, online flag): the remote list when
      online and the fetch succeeds, otherwise a fresh copy of the sample data, offline. */
  function Fetched(online: bool, remote: Option<seq<Item>>): (r: (seq<Item>, bool))
    ensures r.1 <==> online && remote.Some?
    ensures r.1 ==> r.0 == remote.value
    ensures !r.1 ==> r.0 == SampleData()
  {
    if online && remote.Some? then (remote.value, true) else (SampleData(), false)
  }

  /** A fetch never switches the store to online mode. */
  lemma FetchNeverGoesOnline(online: bool, remote: Option<seq<Item>>)
    ensures Fetched(online, remote).1 ==> online
    ensures !online ==> Fetched(online, remote) == (SampleData(), false)
  {
  }

  class Store {
    var inventory: seq<Item>
    var cart: seq<CartLine>
    var apiAvailable: bool

    ghost predicate Valid()
      reads this
    {
      CartValid(cart)
    }

    /** The state after page load: empty inventory and cart, and the mode the
        reachability probe decided. */
    constructor (probeSucceeded: bool)
      ensures Valid()
      ensures inventory == [] && cart == [] && apiAvailable == probeSucceeded
    {
      inventory := [];
      cart := [];
      apiAvailable := probeSucceeded;
    }

    /** `fetchItems`. */
    method FetchItems(remote: Option<seq<Item>>)
      requires Valid()
      modifies this
      ensures Valid() && cart == old(cart)
      ensures (inventory, apiAvailable) == Fetched(old(apiAvailable), remote)
    {
      if apiAvailable {
        match remote
        case Some(items) =>
          inventory := items;
        case None =>
          inventory := SampleData();
          apiAvailable := false;
      } else {
        inventory := SampleData();
      }
    }

    /** The shared remote tail of add, update and delete: on a successful reply the
        list is fetched again, otherwise nothing changes and the call fails. */
    method RemoteWrite(reply: Reply, refetch: Option<seq<Item>>) returns (ok: bool)
      requires Valid()
      modifies this
      ensures Valid() && cart == old(cart)
      ensures ok <==> reply == Replied(true)
      ensures ok ==> (inventory, apiAvailable) == Fetched(old(apiAvailable), refetch)
      ensures !ok ==> inventory == old(inventory) && apiAvailable == old(apiAvailable)
    {
      if reply == Replied(true) {
        FetchItems(refetch);
        ok := true;
      } else {
        ok := false;
      }
    }

    /** `apiAddItem`: offline, the record gets the next local id and is appended. */
    method AddItem(item: Item, post: Reply, refetch: Option<seq<Item>>) returns (ok: bool)
      requires Valid()
      modifies this
      ensures Valid() && cart == old(cart)
      ensures !old(apiAvailable) ==> ok && apiAvailable == old(apiAvailable)
      ensures !old(apiAvailable) ==> inventory == old(inventory) + [item.(id := NextLocalId(old(inventory)))]
      ensures old(apiAvailable) ==> (ok <==> post == Replied(true))
      ensures old(apiAvailable) && ok ==> (inventory, apiAvailable) == Fetched(true, refetch)
      ensures old(apiAvailable) && !ok ==> inventory == old(inventory) && apiAvailable
    {
      if !apiAvailable {
        inventory := inventory + [item.(id := NextLocalId(inventory))];
        return true;
      }
      ok := RemoteWrite(post, refetch);
    }

    /** `apiUpdateItem`: offline and found, the patch is merged into the first record with
        the id; otherwise (online, or offline with no such record) the remote branch runs. */
    method UpdateItem(id: int, patch: Patch, put: Reply, refetch: Option<seq<Item>>) returns (ok: bool)
      requires Valid()
      modifies this
      ensures Valid() && cart == old(cart)
      ensures !old(apiAvailable) && FindItem(old(inventory), id).Some? ==>
        var k := FindItem(old(inventory), id).value;
        ok && apiAvailable == old(apiAvailable)
        && |inventory| == |old(inventory)|
        && Reflects(old(inventory)[k], patch, inventory[k])
        && (forall j :: 0 <= j < |inventory| && j != k ==> inventory[j] == old(inventory)[j])
      ensures old(apiAvailable) || FindItem(old(inventory), id).None? ==>
        (ok <==> put == Replied(true))
        && (ok ==> (inventory, apiAvailable) == Fetched(old(apiAvailable), refetch))
        && (!ok ==> inventory == old(inventory) && apiAvailable == old(apiAvailable))
    {
      if !apiAvailable {
        var found := FindItem(inventory, id);
        if found.Some? {
          var k := found.value;
          AssignReflects(inventory[k], patch);
          inventory := inventory[k := Assign(inventory[k], patch)];
          return true;
        }
      }
      ok := RemoteWrite(put, refetch);
    }

    /** `apiDeleteItem`: offline, every record with the id goes and the call reports
        success even when nothing matched. */
    method DeleteItem(id: int, del: Reply, refetch: Option<seq<Item>>) returns (ok: bool)
      requires Valid()
      modifies this
      ensures Valid() && cart == old(cart)
      ensures !old(apiAvailable) ==> ok && apiAvailable == old(apiAvailable) && inventory == WithoutId(old(inventory), id)
      ensures old(apiAvailable) ==> (ok <==> del == Replied(true))
      ensures old(apiAvailable) && ok ==> (inventory, apiAvailable) == Fetched(true, refetch)
      ensures old(apiAvailable) && !ok ==> inventory == old(inventory) && apiAvailable
    {
      if !apiAvailable {
        inventory := WithoutId(inventory, id);
        return true;
      }
      ok := RemoteWrite(del, refetch);
    }

    /** `apiSearchByName`: the remote result when online and it arrives, else the local filter. */
    function SearchByName(query: string, remote: Option<seq<Item>>): (r: seq<Item>)
      reads this
      ensures apiAvailable && remote.Some? ==> r == remote.value
      ensures !apiAvailable || remote.None? ==>
        (forall i :: 0 <= i < |r| ==> r[i] in inventory && NameMatches(r[i], query))
        && (forall i :: 0 <= i < |inventory| && NameMatches(inventory[i], query) ==> inventory[i] in r)
    {
      if apiAvailable && remote.Some? then remote.value else SearchNameLocal(inventory, query)
    }

    /** `apiSearchByCategory`: the remote result when online and it arrives, else the exact local filter. */
    function SearchByCategory(category: string, remote: Option<seq<Item>>): (r: seq<Item>)
      reads this
      ensures apiAvailable && remote.Some? ==> r == remote.value
      ensures !apiAvailable || remote.None? ==>
        (forall i :: 0 <= i < |r| ==> r[i] in inventory && r[i].category == category)
        && (forall i :: 0 <= i < |inventory| && inventory[i].category == category ==> inventory[i] in r)
    {
      if apiAvailable && remote.Some? then remote.value else SearchCategoryLocal(inventory, category)
    }

    /** `addToCart`: validate the request, look the item up, check the request alone against
        its stock, then grow the item's line or append a snapshot line. */
    method AddToCart(itemId: Option<int>, quantity: Option<int>) returns (outcome: CartOutcome)
      requires Valid()
      modifies this
      ensures Valid()
      ensures inventory == old(inventory) && apiAvailable == old(apiAvailable)
      ensures outcome == InvalidInput <==> !ValidCartRequest(itemId, quantity)
      ensures outcome == ItemNotFound <==>
        ValidCartRequest(itemId, quantity) && FindItem(inventory, itemId.value).None?
      ensures outcome == InsufficientStock <==>
        ValidCartRequest(itemId, quantity) && FindItem(inventory, itemId.value).Some?
        && inventory[FindItem(inventory, itemId.value).value].quantity < quantity.value
      ensures outcome != Added ==> cart == old(cart)
      ensures outcome == Added ==>
        cart == CartAfterAdd(old(cart), inventory[FindItem(inventory, itemId.value).value], quantity.value)
        && QuantityFor(cart, itemId.value) == QuantityFor(old(cart), itemId.value) + quantity.value
    {
      if !ValidCartRequest(itemId, quantity) {
        return InvalidInput;
      }
      var found := FindItem(inventory, itemId.value);
      if found.None? {
        return ItemNotFound;
      }
      var item := inventory[found.value];
      if item.quantity < quantity.value {
        return InsufficientStock;
      }
      CartAfterAddEffect(cart, item, quantity.value, itemId.value);
      cart := CartAfterAdd(cart, item, quantity.value);
      outcome := Added;
    }

    /** `removeFromCart`: `cart.splice(index, 1)`. */
    method RemoveFromCart(index: int)
      requires Valid()
      modifies this
      ensures Valid()
      ensures inventory == old(inventory) && apiAvailable == old(apiAvailable)
      ensures cart == RemoveAt(old(cart), index)
      ensures 0 <= index < |old(cart)| ==> cart == old(cart)[..index] + old(cart)[index + 1..]
    {
      RemoveAtEffect(cart, index);
      cart := RemoveAt(cart, index);
    }

    /** `clearCart`. */
    method ClearCart()
      requires Valid()
      modifies this
      ensures Valid()
      ensures cart == [] && inventory == old(inventory) && apiAvailable == old(apiAvailable)
    {
      cart := [];
    }

    /** `updateBillSummary`: the bill of the current cart, with the rates from their
        inputs or the defaults (no discount, 5% GST). */
    function BillSummary(discountPercent: Option<real>, gstPercent: Option<real>): (b: Billing.Totals)
      reads this
      ensures b.subtotal == CartSubtotal(cart)
      ensures b.total == CartSubtotal(cart) * (1.0 - discountPercent.GetOr(Billing.DefaultDiscountPercent) / 100.0)
                                            * (1.0 + gstPercent.GetOr(Billing.DefaultTaxPercent) / 100.0)
    {
      Billing.SummarizeWithDefaults(CartSubtotal(cart), discountPercent, gstPercent)
    }

    /** The `forEach` callback of `completePurchase`: find the first record with the
        line's id and, if there is one, lower its quantity by the line's units. */
    method TakeFromStock(line: CartLine)
      modifies this
      ensures cart == old(cart) && apiAvailable == old(apiAvailable)
      ensures inventory == DecrementFirst(old(inventory), line.id, line.cartQuantity)
    {
      var found := FindItem(inventory, line.id);
      if found.Some? {
        var k := found.value;
        inventory := inventory[k := inventory[k].(quantity := inventory[k].quantity - line.cartQuantity)];
      }
    }

    /** `completePurchase`: with a non-empty cart, take every line's units off the first
        record with its id (without checking stock), then empty the cart. */
    method CompletePurchase() returns (done: bool)
      requires Valid()
      modifies this
      ensures Valid() && apiAvailable == old(apiAvailable)
      ensures done <==> old(cart) != []
      ensures !done ==> inventory == old(inventory) && cart == old(cart)
      ensures done ==> inventory == ApplyPurchase(old(inventory), old(cart)) && cart == []
    {
      if cart == [] {
        return false;
      }
      var i := 0;
      while i < |cart|
        invariant 0 <= i <= |cart|
        invariant cart == old(cart) && apiAvailable == old(apiAvailable)
        invariant inventory == ApplyPurchase(old(inventory), cart[..i])
      {
        PurchaseStep(old(inventory), cart, i);
        TakeFromStock(cart[i]);
        i := i + 1;
      }
      assert cart[..i] == cart;
      cart := [];
      done := true;
    }
  }
}
