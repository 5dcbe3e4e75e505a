/**
 * The client's cart store (`useCartStore`): a list of line items keyed by
 * product id, one active discount, and the derived subtotal, discount
 * amount, total and item count. Each action replaces fields of the store;
 * the new values are the pure functions below.
 */
module CartState {
  import opened Options
  import opened Seqs
  import opened Catalog

  /** `CartItemWithProduct`: a line of the cart with the product it shows. */
  datatype CartLine = CartLine(id: string, sessionId: string, productId: string, quantity: int, product: Product)

  function LineProductId(l: CartLine): string { l.productId }

  /** `items.find(item => item.productId === productId)` found something. */
  function HasLine(items: seq<CartLine>, productId: string): (r: bool)
    ensures r <==> exists i :: 0 <= i < |items| && items[i].productId == productId
  {
    FirstIndex((l: CartLine) => l.productId == productId, items).Some?
  }

  /** `items.map(item => item.productId === productId ? { ...item, quantity: item.quantity + q } : item)` */
  function AddQuantity(items: seq<CartLine>, productId: string, q: int): (r: seq<CartLine>)
    ensures |r| == |items|
    ensures forall i :: 0 <= i < |items| ==>
      r[i] == if items[i].productId == productId then items[i].(quantity := items[i].quantity + q) else items[i]
  {
    if items == [] then []
    else
      var head := if items[0].productId == productId then items[0].(quantity := items[0].quantity + q) else items[0];
      [head] + AddQuantity(items[1..], productId, q)
  }

  /** `items.map(item => item.productId === productId ? { ...item, quantity } : item)` */
  function SetQuantity(items: seq<CartLine>, productId: string, q: int): (r: seq<CartLine>)
    ensures |r| == |items|
    ensures forall i :: 0 <= i < |items| ==>
      r[i] == if items[i].productId == productId then items[i].(quantity := q) else items[i]
  {
    if items == [] then []
    else
      var head := if items[0].productId == productId then items[0].(quantity := q) else items[0];
      [head] + SetQuantity(items[1..], productId, q)
  }

  /** `items.filter(item => item.productId !== productId)` */
  function WithoutProduct(items: seq<CartLine>, productId: string): seq<CartLine> {
    Filter((l: CartLine) => l.productId != productId, items)
  }

  /** The list after `addItem(product, q)`: merged into an existing line, or appended as line `newId`. */
  function AddedItems(items: seq<CartLine>, sessionId: string, product: Product, q: int, newId: string): seq<CartLine> {
    if HasLine(items, product.id) then AddQuantity(items, product.id, q)
    else items + [CartLine(newId, sessionId, product.id, q, product)]
  }

  /** The list after `updateQuantity(productId, q)`: a quantity of 0 or less removes the line. */
  function UpdatedItems(items: seq<CartLine>, productId: string, q: int): seq<CartLine> {
    if q <= 0 then WithoutProduct(items, productId) else SetQuantity(items, productId, q)
  }

  /** `items.reduce((total, item) => total + item.product.price * item.quantity, 0)` */
  function Subtotal(items: seq<CartLine>): int {
    if items == [] then 0 else items[0].product.price * items[0].quantity + Subtotal(items[1..])
  }

  /** `items.reduce((count, item) => count + item.quantity, 0)` */
  function ItemCount(items: seq<CartLine>): int {
    if items == [] then 0 else items[0].quantity + ItemCount(items[1..])
  }

  /** `(subtotal * percent) / 100`, exactly. */
  function DiscountAmount(subtotal: int, percent: int): (r: real)
    ensures 0 <= percent <= 100 && 0 <= subtotal ==> 0.0 <= r <= subtotal as real
  {
    (subtotal * percent) as real / 100.0
  }

  class CartStore {
    var items: seq<CartLine>
    var sessionId: string
    var discountCode: Option<string>
    var discountPercent: int

    /** The initial state; the random session id is supplied by the caller. */
    constructor (sessionId: string)
      ensures items == [] && this.sessionId == sessionId
      ensures discountCode == None && discountPercent == 0
    {
      items := [];
      this.sessionId := sessionId;
      discountCode := None;
      discountPercent := 0;
    }

    /** `setItems(items)` */
    method SetItems(newItems: seq<CartLine>)
      modifies this
      ensures items == newItems
      ensures sessionId == old(sessionId) && discountCode == old(discountCode)
      ensures discountPercent == old(discountPercent)
    {
      items := newItems;
    }

    /** `addItem(product, quantity = 1)`: the default applies only when the quantity is absent. */
    method AddItem(product: Product, quantity: Option<int>, newId: string)
      modifies this
      ensures items == AddedItems(old(items), sessionId, product, quantity.GetOr(1), newId)
      ensures sessionId == old(sessionId) && discountCode == old(discountCode)
      ensures discountPercent == old(discountPercent)
    {
      var q := quantity.GetOr(1);
      if HasLine(items, product.id) {
        items := AddQuantity(items, product.id, q);
      } else {
        items := items + [CartLine(newId, sessionId, product.id, q, product)];
      }
    }

    /** `removeItem(productId)` */
    method RemoveItem(productId: string)
      modifies this
      ensures items == WithoutProduct(old(items), productId)
      ensures sessionId == old(sessionId) && discountCode == old(discountCode)
      ensures discountPercent == old(discountPercent)
    {
      items := WithoutProduct(items, productId);
    }

    /** `updateQuantity(productId, quantity)`: delegates to `removeItem` when the quantity is not positive. */
    method UpdateQuantity(productId: string, quantity: int)
      modifies this
      ensures items == UpdatedItems(old(items), productId, quantity)
      ensures sessionId == old(sessionId) && discountCode == old(discountCode)
      ensures discountPercent == old(discountPercent)
    {
      if quantity <= 0 {
        RemoveItem(productId);
        return;
      }
      items := SetQuantity(items, productId, quantity);
    }

    /** `clearCart()`: empties the cart and drops the discount. */
    method ClearCart()
      modifies this
      ensures items == [] && discountCode == None && discountPercent == 0
      ensures sessionId == old(sessionId)
    {
      items := [];
      discountCode := None;
      discountPercent := 0;
    }

    /** `applyDiscount(code, percent)`: replaces any earlier discount. */
    method ApplyDiscount(code: string, percent: int)
      modifies this
      ensures discountCode == Some(code) && discountPercent == percent
      ensures items == old(items) && sessionId == old(sessionId)
    {
      discountCode := Some(code);
      discountPercent := percent;
    }

    /** `removeDiscount()` */
    method RemoveDiscount()
      modifies this
      ensures discountCode == None && discountPercent == 0
      ensures items == old(items) && sessionId == old(sessionId)
    {
      discountCode := None;
      discountPercent := 0;
    }

    /** `getSubtotal()` */
    function GetSubtotal(): int
      reads this
    {
      Subtotal(items)
    }

    /** `getDiscountAmount()`: never negative and never above the subtotal for a percentage in 0..100. */
    function GetDiscountAmount(): (r: real)
      reads this
      ensures 0 <= discountPercent <= 100 && 0 <= GetSubtotal() ==> 0.0 <= r <= GetSubtotal() as real
    {
      DiscountAmount(GetSubtotal(), discountPercent)
    }

    /** `getTotal()`: the subtotal scaled by the share of it the customer pays. */
    function GetTotal(): (r: real)
      reads this
      ensures r == GetSubtotal() as real * (100 - discountPercent) as real / 100.0
      ensures discountPercent == 0 ==> r == GetSubtotal() as real
    {
      GetSubtotal() as real - GetDiscountAmount()
    }

    /** `getItemCount()` */
    function GetItemCount(): int
      reads this
    {
      ItemCount(items)
    }
  }

  // -------------------------------------------------------------- lemmas

  lemma {:induction false} SubtotalAppend(a: seq<CartLine>, b: seq<CartLine>)
    ensures Subtotal(a + b) == Subtotal(a) + Subtotal(b)
    ensures ItemCount(a + b) == ItemCount(a) + ItemCount(b)
  {
    if a == [] {
      assert a + b == b;
    } else {
      assert (a + b)[1..] == a[1..] + b;
      SubtotalAppend(a[1..], b);
    }
  }

  /** With no line for the product, the merge map changes nothing. */
  lemma {:induction false} AddQuantityAbsent(items: seq<CartLine>, productId: string, q: int)
    requires forall i :: 0 <= i < |items| ==> items[i].productId != productId
    ensures AddQuantity(items, productId, q) == items
  {
    if items != [] {
      AddQuantityAbsent(items[1..], productId, q);
      assert items == [items[0]] + items[1..];
    }
  }

  /** Merging `q` into the one line of a product adds `q` items and `q` times that line's price. */
  lemma {:induction false} AddQuantityTotals(items: seq<CartLine>, productId: string, q: int, i: nat)
    requires KeysDistinct(LineProductId, items)
    requires i < |items| && items[i].productId == productId
    ensures ItemCount(AddQuantity(items, productId, q)) == ItemCount(items) + q
    ensures Subtotal(AddQuantity(items, productId, q)) == Subtotal(items) + items[i].product.price * q
  {
    var t := items[1..];
    assert items == [items[0]] + t;
    KeysDistinctCons(LineProductId, items[0], t);
    var r := AddQuantity(items, productId, q);
    assert r[1..] == AddQuantity(t, productId, q);
    if i == 0 {
      AddQuantityAbsent(t, productId, q);
    } else {
      assert items[i] == t[i - 1];
      AddQuantityTotals(t, productId, q, i - 1);
    }
  }

  /** The keys of `r` are those of `items`, position by position. */
  lemma SameKeysDistinct(items: seq<CartLine>, r: seq<CartLine>)
    requires KeysDistinct(LineProductId, items)
    requires |r| == |items| && forall i :: 0 <= i < |r| ==> r[i].productId == items[i].productId
    ensures KeysDistinct(LineProductId, r)
  {
    forall i, j | 0 <= i < j < |r| ensures LineProductId(r[i]) != LineProductId(r[j]) {
      assert LineProductId(items[i]) != LineProductId(items[j]);
    }
  }

  /**
   * `addItem` on a cart with one line per product: an existing line for the
   * product grows by `q` and nothing else changes (the length included);
   * otherwise a line with quantity `q` is appended. One line per product is kept.
   */
  lemma AddedItemsEffect(items: seq<CartLine>, sessionId: string, product: Product, q: int, newId: string)
    requires KeysDistinct(LineProductId, items)
    ensures var r := AddedItems(items, sessionId, product, q, newId);
      && KeysDistinct(LineProductId, r)
      && (HasLine(items, product.id) ==>
            && |r| == |items|
            && forall i :: 0 <= i < |items| ==>
                 r[i] == if items[i].productId == product.id then items[i].(quantity := items[i].quantity + q)
                         else items[i])
      && (!HasLine(items, product.id) ==> r == items + [CartLine(newId, sessionId, product.id, q, product)])
  {
    var r := AddedItems(items, sessionId, product, q, newId);
    if HasLine(items, product.id) {
      SameKeysDistinct(items, r);
    } else {
      KeysDistinctSnoc(LineProductId, items, CartLine(newId, sessionId, product.id, q, product));
    }
  }

  /** `addItem` raises the item count by `q` and the subtotal by `q` times the line's price. */
  lemma AddedItemsTotals(items: seq<CartLine>, sessionId: string, product: Product, q: int, newId: string)
    requires KeysDistinct(LineProductId, items)
    ensures ItemCount(AddedItems(items, sessionId, product, q, newId)) == ItemCount(items) + q
    ensures !HasLine(items, product.id) ==>
      Subtotal(AddedItems(items, sessionId, product, q, newId)) == Subtotal(items) + product.price * q
    ensures forall i :: 0 <= i < |items| && items[i].productId == product.id ==>
      Subtotal(AddedItems(items, sessionId, product, q, newId)) == Subtotal(items) + items[i].product.price * q
  {
    if HasLine(items, product.id) {
      var i :| 0 <= i < |items| && items[i].productId == product.id;
      AddQuantityTotals(items, product.id, q, i);
      forall j | 0 <= j < |items| && items[j].productId == product.id
        ensures Subtotal(AddedItems(items, sessionId, product, q, newId)) ==
                Subtotal(items) + items[j].product.price * q
      {
        AddQuantityTotals(items, product.id, q, j);
      }
    } else {
      var line := CartLine(newId, sessionId, product.id, q, product);
      SubtotalAppend(items, [line]);
      assert [line][1..] == [];
    }
  }

  /**
   * `updateQuantity` with a quantity of 0 or less is `removeItem`: exactly the
   * lines of the product go and the rest keep their order. With a positive
   * quantity only the product's lines change, to exactly that quantity.
   */
  lemma UpdatedItemsEffect(items: seq<CartLine>, productId: string, q: int)
    ensures q <= 0 ==> UpdatedItems(items, productId, q) == WithoutProduct(items, productId)
    ensures q <= 0 ==> IsSubsequence(UpdatedItems(items, productId, q), items)
    ensures q <= 0 ==> forall l :: l in UpdatedItems(items, productId, q) <==> l in items && l.productId != productId
    ensures q > 0 ==> |UpdatedItems(items, productId, q)| == |items|
    ensures q > 0 ==> forall i :: 0 <= i < |items| ==>
      UpdatedItems(items, productId, q)[i] ==
        if items[i].productId == productId then items[i].(quantity := q) else items[i]
    ensures KeysDistinct(LineProductId, items) ==> KeysDistinct(LineProductId, UpdatedItems(items, productId, q))
  {
    if q <= 0 {
      FilterIsSubsequence((l: CartLine) => l.productId != productId, items);
      if KeysDistinct(LineProductId, items) {
        FilterKeepsKeysDistinct(LineProductId, (l: CartLine) => l.productId != productId, items);
      }
    } else if KeysDistinct(LineProductId, items) {
      SameKeysDistinct(items, SetQuantity(items, productId, q));
    }
  }

  /** Removing a product's lines takes exactly their quantities off the item count. */
  lemma {:induction false} WithoutProductCount(items: seq<CartLine>, productId: string, i: nat)
    requires KeysDistinct(LineProductId, items)
    requires i < |items| && items[i].productId == productId
    ensures ItemCount(WithoutProduct(items, productId)) == ItemCount(items) - items[i].quantity
    ensures Subtotal(WithoutProduct(items, productId)) ==
      Subtotal(items) - items[i].product.price * items[i].quantity
  {
    var t := items[1..];
    assert items == [items[0]] + t;
    KeysDistinctCons(LineProductId, items[0], t);
    if i == 0 {
      FilterKeepsAll((l: CartLine) => l.productId != productId, t);
    } else {
      assert items[i] == t[i - 1];
      WithoutProductCount(t, productId, i - 1);
    }
  }
}
