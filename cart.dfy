/**
 * The till's shopping cart, shared by the current web app and the old mock
 * ordering system: both add a menu item by bumping its quantity or appending
 * it, and remove one unit by decrementing or dropping the entry.
 */
module Cart {
  import opened Common

  /** A menu item as the till sees it; prices are integer cents. */
  datatype Item = Item(id: string, name: string, price: int, available: int, line: string)

  /** A cart entry: the item spread into a new object together with a quantity. */
  datatype Entry = Entry(item: Item, quantity: int)

  /** `cart.find(e => e.id === id)`: the first entry with that id. */
  function Find(cart: seq<Entry>, id: string): (r: Option<Entry>)
    ensures r.None? <==> forall i :: 0 <= i < |cart| ==> cart[i].item.id != id
    ensures r.Some? ==> r.value in cart && r.value.item.id == id
  {
    if cart == [] then None
    else if cart[0].item.id == id then Some(cart[0])
    else Find(cart[1..], id)
  }

  /** `cart.map(e => e.id === id ? {...e, quantity: e.quantity + delta} : e)`. */
  function Bump(cart: seq<Entry>, id: string, delta: int): (r: seq<Entry>)
    ensures |r| == |cart|
    ensures forall i :: 0 <= i < |cart| ==> r[i].item == cart[i].item
    ensures forall i :: 0 <= i < |cart| ==>
      r[i].quantity == cart[i].quantity + (if cart[i].item.id == id then delta else 0)
  {
    if cart == [] then []
    else
      var e := cart[0];
      [if e.item.id == id then e.(quantity := e.quantity + delta) else e] + Bump(cart[1..], id, delta)
  }

  /** `cart.filter(e => e.id !== id)`. */
  function Drop(cart: seq<Entry>, id: string): (r: seq<Entry>)
    ensures forall e :: e in r <==> e in cart && e.item.id != id
  {
    if cart == [] then []
    else (if cart[0].item.id != id then [cart[0]] else []) + Drop(cart[1..], id)
  }

  /** `addToCart`: an unavailable item is refused, a known one gains a unit, a new one is appended. */
  function AddToCart(cart: seq<Entry>, item: Item): seq<Entry> {
    if item.available <= 0 then cart
    else if Find(cart, item.id).Some? then Bump(cart, item.id, 1)
    else cart + [Entry(item, 1)]
  }

  /** `removeFromCart`: an entry with more than one unit loses one, otherwise the id is filtered out. */
  function RemoveFromCart(cart: seq<Entry>, id: string): seq<Entry> {
    var existing := Find(cart, id);
    if existing.Some? && existing.value.quantity > 1 then Bump(cart, id, -1)
    else Drop(cart, id)
  }

  /** The units of `id` in the cart. */
  function Quantity(cart: seq<Entry>, id: string): int {
    if cart == [] then 0
    else (if cart[0].item.id == id then cart[0].quantity else 0) + Quantity(cart[1..], id)
  }

  /** The shape the two operations keep: one entry per id, each with at least one unit. */
  predicate WellFormed(cart: seq<Entry>) {
    (forall i, j :: 0 <= i < j < |cart| ==> cart[i].item.id != cart[j].item.id)
    && (forall i :: 0 <= i < |cart| ==> cart[i].quantity >= 1)
  }

  /** The total price in cents, `reduce((t, e) => t + e.price * e.quantity, 0)`. */
  function Total(cart: seq<Entry>): int {
    if cart == [] then 0 else cart[0].item.price * cart[0].quantity + Total(cart[1..])
  }

  // ---------------------------------------------------------------------
  // Counting units

  lemma {:induction false} QuantityAbsent(cart: seq<Entry>, id: string)
    requires forall i :: 0 <= i < |cart| ==> cart[i].item.id != id
    ensures Quantity(cart, id) == 0
  {
    if cart != [] {
      QuantityAbsent(cart[1..], id);
    }
  }

  lemma {:induction false} QuantityAppend(a: seq<Entry>, b: seq<Entry>, id: string)
    ensures Quantity(a + b, id) == Quantity(a, id) + Quantity(b, id)
  {
    if a == [] {
      assert a + b == b;
    } else {
      assert (a + b)[1..] == a[1..] + b;
      QuantityAppend(a[1..], b, id);
    }
  }

  /** Splitting off the last entry of a well-formed cart that holds `id`. */
  lemma WellFormedSnoc(cart: seq<Entry>, id: string)
    requires WellFormed(cart) && Find(cart, id).Some?
    ensures var init := cart[..|cart| - 1]; var last := cart[|cart| - 1];
      && WellFormed(init)
      && Quantity(cart, id) == Quantity(init, id) + (if last.item.id == id then last.quantity else 0)
      && (last.item.id == id ==> forall i :: 0 <= i < |init| ==> init[i].item.id != id)
      && (last.item.id != id ==> Find(init, id).Some?)
  {
    var init := cart[..|cart| - 1];
    var last := cart[|cart| - 1];
    assert cart == init + [last];
    QuantityAppend(init, [last], id);
    assert [last][1..] == [];
    if last.item.id != id {
      var k :| 0 <= k < |cart| && cart[k] == Find(cart, id).value;
      assert k < |init| && init[k] == cart[k];
    }
  }

  /** In a well-formed cart the units of an id are those of its single entry. */
  lemma {:induction false} QuantityOfEntry(cart: seq<Entry>, id: string)
    requires WellFormed(cart)
    ensures Find(cart, id).Some? ==> Quantity(cart, id) == Find(cart, id).value.quantity
    ensures Find(cart, id).None? ==> Quantity(cart, id) == 0
  {
    if cart != [] {
      if cart[0].item.id == id {
        QuantityAbsent(cart[1..], id);
      } else {
        QuantityOfEntry(cart[1..], id);
      }
    }
  }

  /** Bumping changes the units of every matching entry by `delta`. */
  lemma {:induction false} QuantityBump(cart: seq<Entry>, id: string, delta: int, other: string)
    requires WellFormed(cart)
    ensures Quantity(Bump(cart, id, delta), other) ==
      Quantity(cart, other) + (if other == id && Find(cart, id).Some? then delta else 0)
  {
    if cart != [] {
      QuantityBump(cart[1..], id, delta, other);
      assert Bump(cart, id, delta)[1..] == Bump(cart[1..], id, delta);
      if cart[0].item.id == id && other == id {
        QuantityAbsent(cart[1..], id);
        QuantityAbsent(Bump(cart[1..], id, delta), id);
      }
    }
  }

  lemma {:induction false} QuantityDrop(cart: seq<Entry>, id: string, other: string)
    ensures Quantity(Drop(cart, id), other) == (if other == id then 0 else Quantity(cart, other))
  {
    if cart != [] {
      QuantityDrop(cart[1..], id, other);
      var head := if cart[0].item.id != id then [cart[0]] else [];
      QuantityAppend(head, Drop(cart[1..], id), other);
      if head != [] {
        assert head[1..] == [];
      }
    }
  }

  lemma {:induction false} DropAbsent(cart: seq<Entry>, id: string)
    requires forall i :: 0 <= i < |cart| ==> cart[i].item.id != id
    ensures Drop(cart, id) == cart
  {
    if cart != [] {
      DropAbsent(cart[1..], id);
      assert [cart[0]] + cart[1..] == cart;
    }
  }

  lemma {:induction false} DropWellFormed(cart: seq<Entry>, id: string)
    requires WellFormed(cart)
    ensures WellFormed(Drop(cart, id))
  {
    if cart != [] {
      DropWellFormed(cart[1..], id);
      var rest := Drop(cart[1..], id);
      forall e | e in rest
        ensures e.item.id != cart[0].item.id
      {
        var k :| 0 <= k < |cart[1..]| && cart[1..][k] == e;
        assert cart[k + 1] == e;
      }
    }
  }

  // ---------------------------------------------------------------------
  // The properties of the two operations

  /** `addToCart` refuses an item that is not available. */
  lemma AddUnavailable(cart: seq<Entry>, item: Item)
    requires item.available <= 0
    ensures AddToCart(cart, item) == cart
  {
  }

  /**
   * `addToCart` of an available item: an entry already present keeps its place
   * and gains one unit while every other entry stays as it was; a new item is
   * appended with one unit.
   */
  lemma AddShape(cart: seq<Entry>, item: Item)
    requires item.available > 0
    ensures var r := AddToCart(cart, item);
      (Find(cart, item.id).Some? ==>
        |r| == |cart| &&
        forall i :: 0 <= i < |cart| ==>
          r[i] == (if cart[i].item.id == item.id then cart[i].(quantity := cart[i].quantity + 1) else cart[i]))
      && (Find(cart, item.id).None? ==> r == cart + [Entry(item, 1)])
  {
    var r := AddToCart(cart, item);
    if Find(cart, item.id).Some? {
      forall i | 0 <= i < |cart|
        ensures r[i] == (if cart[i].item.id == item.id then cart[i].(quantity := cart[i].quantity + 1) else cart[i])
      {
      }
    }
  }

  /** Adding an available item adds exactly one unit of it and none of anything else. */
  lemma AddCounts(cart: seq<Entry>, item: Item, other: string)
    requires WellFormed(cart) && item.available > 0
    ensures WellFormed(AddToCart(cart, item))
    ensures Quantity(AddToCart(cart, item), other) ==
      Quantity(cart, other) + (if other == item.id then 1 else 0)
  {
    if Find(cart, item.id).Some? {
      QuantityBump(cart, item.id, 1, other);
    } else {
      QuantityAppend(cart, [Entry(item, 1)], other);
      assert Quantity([Entry(item, 1)], other) == (if other == item.id then 1 else 0) by {
        assert [Entry(item, 1)][1..] == [];
      }
    }
  }

  /**
   * `removeFromCart` takes away one unit of `id` (none when it is absent)
   * and leaves every other id's units alone.
   */
  lemma RemoveCounts(cart: seq<Entry>, id: string, other: string)
    requires WellFormed(cart)
    ensures WellFormed(RemoveFromCart(cart, id))
    ensures Quantity(RemoveFromCart(cart, id), other) ==
      (if other == id then (if Quantity(cart, id) > 0 then Quantity(cart, id) - 1 else 0)
       else Quantity(cart, other))
  {
    QuantityOfEntry(cart, id);
    var existing := Find(cart, id);
    if existing.Some? && existing.value.quantity > 1 {
      QuantityBump(cart, id, -1, other);
    } else {
      DropWellFormed(cart, id);
      QuantityDrop(cart, id, other);
    }
  }

  /** Removing an id that is not in the cart changes nothing. */
  lemma RemoveUnknown(cart: seq<Entry>, id: string)
    requires Find(cart, id).None?
    ensures RemoveFromCart(cart, id) == cart
  {
    DropAbsent(cart, id);
  }

  lemma {:induction false} BumpInverse(cart: seq<Entry>, id: string)
    ensures Bump(Bump(cart, id, 1), id, -1) == cart
  {
    if cart != [] {
      BumpInverse(cart[1..], id);
      assert Bump(cart, id, 1)[1..] == Bump(cart[1..], id, 1);
    }
  }

  /** Removing what was just added gives the cart back. */
  lemma AddThenRemove(cart: seq<Entry>, item: Item)
    requires WellFormed(cart) && item.available > 0
    ensures RemoveFromCart(AddToCart(cart, item), item.id) == cart
  {
    var added := AddToCart(cart, item);
    if Find(cart, item.id).Some? {
      var e := Find(cart, item.id).value;
      var k :| 0 <= k < |cart| && cart[k] == e;
      assert Find(added, item.id).Some? by {
        assert added[k].item.id == item.id;
      }
      QuantityOfEntry(cart, item.id);
      AddCounts(cart, item, item.id);
      QuantityOfEntry(added, item.id);
      BumpInverse(cart, item.id);
    } else {
      DropAbsent(cart, item.id);
      assert Drop(added, item.id) == Drop(cart, item.id) + Drop([Entry(item, 1)], item.id) by {
        DropAppend(cart, [Entry(item, 1)], item.id);
      }
      assert Drop([Entry(item, 1)], item.id) == [] by {
        assert [Entry(item, 1)][1..] == [];
      }
      assert Find(added, item.id) == Some(Entry(item, 1)) by {
        FindAppend(cart, [Entry(item, 1)], item.id);
      }
    }
  }

  lemma {:induction false} DropAppend(a: seq<Entry>, b: seq<Entry>, id: string)
    ensures Drop(a + b, id) == Drop(a, id) + Drop(b, id)
  {
    if a == [] {
      assert a + b == b;
    } else {
      assert (a + b)[1..] == a[1..] + b;
      DropAppend(a[1..], b, id);
    }
  }

  lemma {:induction false} FindAppend(a: seq<Entry>, b: seq<Entry>, id: string)
    requires Find(a, id).None?
    ensures Find(a + b, id) == Find(b, id)
  {
    if a == [] {
      assert a + b == b;
    } else {
      assert (a + b)[1..] == a[1..] + b;
      FindAppend(a[1..], b, id);
    }
  }

  lemma {:induction false} TotalAppend(a: seq<Entry>, b: seq<Entry>)
    ensures Total(a + b) == Total(a) + Total(b)
  {
    if a == [] {
      assert a + b == b;
    } else {
      assert (a + b)[1..] == a[1..] + b;
      TotalAppend(a[1..], b);
    }
  }

  /**
   * Adding an available item raises the total by one unit's price: the price
   * recorded in the cart when the item is already there, its own otherwise.
   */
  lemma AddRaisesTotal(cart: seq<Entry>, item: Item)
    requires WellFormed(cart) && item.available > 0
    ensures var existing := Find(cart, item.id);
      Total(AddToCart(cart, item)) ==
        Total(cart) + (if existing.Some? then existing.value.item.price else item.price)
  {
    if Find(cart, item.id).Some? {
      BumpTotal(cart, item.id);
      BumpedPriceOfEntry(cart, item.id);
    } else {
      TotalAppend(cart, [Entry(item, 1)]);
      assert [Entry(item, 1)][1..] == [];
    }
  }

  /** The sum of the prices of the entries with that id. */
  function BumpedPrice(cart: seq<Entry>, id: string): int {
    if cart == [] then 0
    else (if cart[0].item.id == id then cart[0].item.price else 0) + BumpedPrice(cart[1..], id)
  }

  lemma {:induction false} BumpedPriceAbsent(cart: seq<Entry>, id: string)
    requires forall i :: 0 <= i < |cart| ==> cart[i].item.id != id
    ensures BumpedPrice(cart, id) == 0
  {
    if cart != [] {
      BumpedPriceAbsent(cart[1..], id);
    }
  }

  lemma {:induction false} BumpedPriceOfEntry(cart: seq<Entry>, id: string)
    requires WellFormed(cart) && Find(cart, id).Some?
    ensures BumpedPrice(cart, id) == Find(cart, id).value.item.price
  {
    if cart[0].item.id == id {
      BumpedPriceAbsent(cart[1..], id);
    } else {
      BumpedPriceOfEntry(cart[1..], id);
    }
  }

  lemma {:induction false} BumpTotal(cart: seq<Entry>, id: string)
    ensures Total(Bump(cart, id, 1)) == Total(cart) + BumpedPrice(cart, id)
  {
    if cart != [] {
      BumpTotal(cart[1..], id);
      assert Bump(cart, id, 1)[1..] == Bump(cart[1..], id, 1);
    }
  }
}
