/** The C++ inventory classes: `Item` with its guarded setters and stock operators,
    the perishable/non-perishable distinction as a kind carried by each item, and
    `Inventory`, which owns the item list and the `nextId` counter. */
module CoreInventory {
  import opened Common
  import opened Text
  import Catalog

  /** The dynamic type of an item: a Perishable carries its expiry date, a
      NonPerishable (or a plain base-class Item) carries none. */
  datatype Kind = NonPerishable | Perishable(expiry: string)

  /** How a guarded operation ended: normally, or by throwing an `InventoryException`. */
  datatype Outcome = Done | Thrown(message: string)

  class Item {
    /** No setter changes the id or the dynamic type once an item is built. */
    const id: int
    const kind: Kind
    var name: string
    var category: string
    var price: real
    var quantity: int

    /** The constructors store their arguments without any check. */
    constructor (id: int, name: string, category: string, price: real, quantity: int, kind: Kind)
      ensures this.id == id && this.kind == kind
      ensures this.name == name && this.category == category
      ensures this.price == price && this.quantity == quantity
    {
      this.id := id;
      this.kind := kind;
      this.name := name;
      this.category := category;
      this.price := price;
      this.quantity := quantity;
    }

    /** `isPerishable()`. */
    function IsPerishable(): bool
    {
      kind.Perishable?
    }

    /** `expiryDate()`: the date for a perishable item, the empty string otherwise. */
    function ExpiryDate(): (d: string)
      ensures !IsPerishable() ==> d == ""
      ensures IsPerishable() ==> d == kind.expiry
    {
      if kind.Perishable? then kind.expiry else ""
    }

    method SetName(n: string)
      modifies this
      ensures name == n
      ensures category == old(category) && price == old(price) && quantity == old(quantity)
    {
      name := n;
    }

    method SetCategory(c: string)
      modifies this
      ensures category == c
      ensures name == old(name) && price == old(price) && quantity == old(quantity)
    {
      category := c;
    }

    /** `setPrice`: a negative price throws and leaves the price as it was. */
    method SetPrice(p: real) returns (r: Outcome)
      modifies this
      ensures p < 0.0 ==> r == Thrown("Price cannot be negative") && price == old(price)
      ensures p >= 0.0 ==> r == Done && price == p
      ensures name == old(name) && category == old(category) && quantity == old(quantity)
    {
      if p < 0.0 {
        return Thrown("Price cannot be negative");
      }
      price := p;
      r := Done;
    }

    /** `setQuantity`: a negative quantity throws and leaves the quantity as it was. */
    method SetQuantity(q: int) returns (r: Outcome)
      modifies this
      ensures q < 0 ==> r == Thrown("Quantity cannot be negative") && quantity == old(quantity)
      ensures q >= 0 ==> r == Done && quantity == q
      ensures name == old(name) && category == old(category) && price == old(price)
    {
      if q < 0 {
        return Thrown("Quantity cannot be negative");
      }
      quantity := q;
      r := Done;
    }

    /** `operator+`: restock by a non-negative amount. */
    method Add(addQty: int) returns (r: Outcome)
      modifies this
      ensures addQty < 0 ==> r == Thrown("Cannot add negative quantity") && quantity == old(quantity)
      ensures addQty >= 0 ==> r == Done && quantity == old(quantity) + addQty
      ensures name == old(name) && category == old(category) && price == old(price)
    {
      if addQty < 0 {
        return Thrown("Cannot add negative quantity");
      }
      quantity := quantity + addQty;
      r := Done;
    }

    /** `operator-`: take stock out; a negative amount or more than is on hand throws,
        so a successful subtraction never leaves the quantity below zero. */
    method Subtract(subQty: int) returns (r: Outcome)
      modifies this
      ensures subQty < 0 ==> r == Thrown("Cannot subtract negative quantity") && quantity == old(quantity)
      ensures 0 <= subQty && subQty > old(quantity) ==> r == Thrown("Insufficient stock") && quantity == old(quantity)
      ensures 0 <= subQty <= old(quantity) ==> r == Done && quantity == old(quantity) - subQty
      ensures r == Done ==> 0 <= quantity <= old(quantity)
      ensures name == old(name) && category == old(category) && price == old(price)
    {
      if subQty < 0 {
        return Thrown("Cannot subtract negative quantity");
      }
      if subQty > quantity {
        return Thrown("Insufficient stock");
      }
      quantity := quantity - subQty;
      r := Done;
    }
  }

  /** The ids of a list of items (ids never change, so this reads no state). */
  function IdsOf(items: seq<Item>): (r: seq<int>)
    ensures |r| == |items|
    ensures forall i :: 0 <= i < |items| ==> r[i] == items[i].id
  {
    seq(|items|, i requires 0 <= i < |items| => items[i].id)
  }

  /** The items, in order, whose ASCII-lowercased name contains `lowerPart`. */
  function NameHits(items: seq<Item>, lowerPart: string): (r: seq<Item>)
    reads items
    ensures forall i :: 0 <= i < |r| ==> r[i] in items && Contains(Lower(r[i].name), lowerPart)
    ensures forall i :: 0 <= i < |items| && Contains(Lower(items[i].name), lowerPart) ==> items[i] in r
  {
    if items == [] then []
    else
      var n := |items| - 1;
      var rest := NameHits(items[..n], lowerPart);
      assert forall i :: 0 <= i < n ==> items[..n][i] == items[i];
      if Contains(Lower(items[n].name), lowerPart) then rest + [items[n]] else rest
  }

  /** The items, in order, whose category equals `cat` exactly. */
  function CategoryHits(items: seq<Item>, cat: string): (r: seq<Item>)
    reads items
    ensures forall i :: 0 <= i < |r| ==> r[i] in items && r[i].category == cat
    ensures forall i :: 0 <= i < |items| && items[i].category == cat ==> items[i] in r
  {
    if items == [] then []
    else
      var n := |items| - 1;
      var rest := CategoryHits(items[..n], cat);
      assert forall i :: 0 <= i < n ==> items[..n][i] == items[i];
      if items[n].category == cat then rest + [items[n]] else rest
  }

  /** `remove_if` on the id: the items with another id, in order. */
  function WithoutId(items: seq<Item>, id: int): (r: seq<Item>)
    ensures forall i :: 0 <= i < |r| ==> r[i] in items && r[i].id != id
    ensures forall i :: 0 <= i < |items| && items[i].id != id ==> items[i] in r
  {
    Filter(items, (it: Item) => it.id != id)
  }

  /** Something is removed exactly when some item has the id; otherwise the list is unchanged. */
  lemma WithoutIdEffect(items: seq<Item>, id: int)
    ensures |WithoutId(items, id)| < |items| <==> id in IdsOf(items)
    ensures id !in IdsOf(items) ==> WithoutId(items, id) == items
  {
    if id in IdsOf(items) {
      var k :| 0 <= k < |items| && items[k].id == id;
      FilterDropsOne(items, (it: Item) => it.id != id, k);
    } else {
      FilterKeepsAll(items, (it: Item) => it.id != id);
    }
  }

  /** The lines `c = tolower(c)` applied to every character of a copy. */
  method ToLowerAscii(s: string) returns (r: string)
    ensures r == Lower(s)
  {
    r := s;
    for i := 0 to |r|
      invariant |r| == |s|
      invariant forall j :: 0 <= j < i ==> r[j] == LowerChar(s[j])
      invariant forall j :: i <= j < |r| ==> r[j] == s[j]
    {
      r := r[i := LowerChar(r[i])];
    }
  }

  class Inventory {
    var items: seq<Item>
    var nextId: int

    /** Every stored id is below the next id handed out. */
    ghost predicate Valid()
      reads this
    {
      nextId >= 1 && forall i :: 0 <= i < |items| ==> items[i].id < nextId
    }

    /** The first `n` sample products are loaded, in order, with ids 1 to `n`. */
    ghost predicate SampleLoaded(n: nat)
      reads this, items
    {
      n <= |Catalog.Entries| && |items| == n && nextId == n + 1
      && forall k :: 0 <= k < n ==> Holds(items[k], k + 1, Catalog.Entries[k])
    }

    /** `Inventory()`: starts from the sample data. */
    constructor ()
      ensures Valid() && SampleLoaded(20)
    {
      items := [];
      nextId := 1;
      new;
      InitializeSampleData();
    }

    /** `addItem`: an item with id 0 is copied under the next id, which then advances;
        any other item is stored as it is and the next id moves past its id. */
    method AddItem(it: Item)
      requires Valid()
      modifies this
      ensures Valid()
      ensures |items| == |old(items)| + 1 && items[..|old(items)|] == old(items)
      ensures it.id == 0 ==>
        nextId == old(nextId) + 1 && fresh(items[|items| - 1])
        && SameFields(items[|items| - 1], it) && items[|items| - 1].id == old(nextId)
      ensures it.id != 0 ==>
        items[|items| - 1] == it && nextId == (if it.id >= old(nextId) then it.id + 1 else old(nextId))
    {
      if it.id == 0 {
        var id := nextId;
        nextId := nextId + 1;
        var copy := new Item(id, it.name, it.category, it.price, it.quantity, it.kind);
        items := items + [copy];
      } else {
        var id := it.id;
        if id >= nextId {
          nextId := id + 1;
        }
        items := items + [it];
      }
    }

    /** `findById`: the first item with the id, or null. */
    method FindById(id: int) returns (r: Item?)
      ensures r == null <==> id !in IdsOf(items)
      ensures r != null ==> exists k :: 0 <= k < |items| && items[k] == r && r.id == id
                                           && forall j :: 0 <= j < k ==> items[j].id != id
    {
      for i := 0 to |items|
        invariant forall j :: 0 <= j < i ==> items[j].id != id
      {
        if items[i].id == id {
          return items[i];
        }
      }
      return null;
    }

    /** `searchByName`: case-insensitive (ASCII) substring search, in list order. */
    method SearchByName(namePart: string) returns (out: seq<Item>)
      ensures out == NameHits(items, Lower(namePart))
      ensures forall i :: 0 <= i < |out| ==> out[i] in items && Contains(Lower(out[i].name), Lower(namePart))
      ensures forall i :: 0 <= i < |items| && Contains(Lower(items[i].name), Lower(namePart)) ==> items[i] in out
    {
      var lower := ToLowerAscii(namePart);
      out := [];
      for i := 0 to |items|
        invariant out == NameHits(items[..i], lower)
      {
        var name := ToLowerAscii(items[i].name);
        if Contains(name, lower) {
          out := out + [items[i]];
        }
        assert items[..i + 1][..i] == items[..i];
      }
      assert items[..|items|] == items;
    }

    /** `searchByCategory`: exact category match, in list order. */
    method SearchByCategory(cat: string) returns (out: seq<Item>)
      ensures out == CategoryHits(items, cat)
      ensures forall i :: 0 <= i < |out| ==> out[i] in items && out[i].category == cat
      ensures forall i :: 0 <= i < |items| && items[i].category == cat ==> items[i] in out
    {
      out := [];
      for i := 0 to |items|
        invariant out == CategoryHits(items[..i], cat)
      {
        if items[i].category == cat {
          out := out + [items[i]];
        }
        assert items[..i + 1][..i] == items[..i];
      }
      assert items[..|items|] == items;
    }

    /** `removeItem`: throws when no item has the id; otherwise drops every item with it. */
    method RemoveItem(id: int) returns (r: Outcome)
      requires Valid()
      modifies this
      ensures Valid() && nextId == old(nextId)
      ensures id !in IdsOf(old(items)) ==> r == Thrown("Item not found to remove") && items == old(items)
      ensures id in IdsOf(old(items)) ==> r == Done && items == WithoutId(old(items), id)
    {
      var kept := WithoutId(items, id);
      WithoutIdEffect(items, id);
      if |kept| == |items| {
        return Thrown("Item not found to remove");
      }
      items := kept;
      r := Done;
    }

    /** One `addItem` call of `initializeSampleData`: a fresh item with id 0 built from the entry. */
    method LoadSample(k: nat)
      requires k < |Catalog.Entries| && Valid() && SampleLoaded(k)
      modifies this
      ensures Valid() && SampleLoaded(k + 1)
    {
      var e := Catalog.Entries[k];
      var it := new Item(0, e.name, e.category, e.price, e.quantity,
                         if e.perishable then Perishable(e.expiry) else NonPerishable);
      AddItem(it);
      assert items[..k] == old(items);
    }

    /** `initializeSampleData`: clear, restart the counter and add the twenty products. */
    method InitializeSampleData()
      modifies this
      ensures Valid() && SampleLoaded(20)
    {
      items := [];
      nextId := 1;
      LoadSample(0); LoadSample(1); LoadSample(2); LoadSample(3); LoadSample(4);
      LoadSample(5); LoadSample(6); LoadSample(7); LoadSample(8); LoadSample(9);
      LoadSample(10); LoadSample(11); LoadSample(12); LoadSample(13); LoadSample(14);
      LoadSample(15); LoadSample(16); LoadSample(17); LoadSample(18); LoadSample(19);
    }
  }

  /** `copy` carries the name, category, price, quantity and kind of `it`. */
  predicate SameFields(copy: Item, it: Item)
    reads copy, it
  {
    copy.name == it.name && copy.category == it.category && copy.price == it.price
    && copy.quantity == it.quantity && copy.kind == it.kind
  }

  /** `it` is the sample product `e` stored under `id`. */
  predicate Holds(it: Item, id: int, e: Catalog.Entry)
    reads it
  {
    it.id == id && it.name == e.name && it.category == e.category && it.price == e.price
    && it.quantity == e.quantity && it.kind == (if e.perishable then Perishable(e.expiry) else NonPerishable)
  }

  /** After loading, the ids are exactly 1 to 20 in order and the counter stands at 21. */
  lemma SampleIds(inv: Inventory)
    requires inv.SampleLoaded(20)
    ensures IdsOf(inv.items) == seq(20, k => k + 1)
    ensures inv.nextId == 21 && Distinct(IdsOf(inv.items))
  {
  }
}
