/**
 * The client's wishlist store (`useWishlistStore`): a list of entries with
 * set semantics on the product id; `toggleItem` adds or removes.
 */
module WishlistState {
  import opened Seqs
  import opened Catalog

  /** `WishlistItemWithProduct` as the client holds it. */
  datatype WishLine = WishLine(id: string, sessionId: string, productId: string, product: Product)

  /** `items.some(item => item.productId === productId)` */
  function Contains(items: seq<WishLine>, productId: string): (r: bool)
    ensures r <==> exists i :: 0 <= i < |items| && items[i].productId == productId
  {
    FirstIndex((l: WishLine) => l.productId == productId, items).Some?
  }

  /** The list after `addItem(product)`: unchanged when the product is already listed. */
  function Added(items: seq<WishLine>, sessionId: string, product: Product, newId: string): seq<WishLine> {
    if Contains(items, product.id) then items
    else items + [WishLine(newId, sessionId, product.id, product)]
  }

  /** `items.filter(item => item.productId !== productId)` */
  function Removed(items: seq<WishLine>, productId: string): seq<WishLine> {
    Filter((l: WishLine) => l.productId != productId, items)
  }

  /** The list after `toggleItem(product)`. */
  function Toggled(items: seq<WishLine>, sessionId: string, product: Product, newId: string): seq<WishLine> {
    if Contains(items, product.id) then Removed(items, product.id) else Added(items, sessionId, product, newId)
  }

  class WishlistStore {
    var items: seq<WishLine>
    var sessionId: string

    constructor (sessionId: string)
      ensures items == [] && this.sessionId == sessionId
    {
      items := [];
      this.sessionId := sessionId;
    }

    /** `setItems(items)` */
    method SetItems(newItems: seq<WishLine>)
      modifies this
      ensures items == newItems && sessionId == old(sessionId)
    {
      items := newItems;
    }

    /** `addItem(product)`; the random entry id is supplied by the caller. */
    method AddItem(product: Product, newId: string)
      modifies this
      ensures items == Added(old(items), sessionId, product, newId) && sessionId == old(sessionId)
    {
      if !Contains(items, product.id) {
        items := items + [WishLine(newId, sessionId, product.id, product)];
      }
    }

    /** `removeItem(productId)` */
    method RemoveItem(productId: string)
      modifies this
      ensures items == Removed(old(items), productId) && sessionId == old(sessionId)
    {
      items := Removed(items, productId);
    }

    /** `isInWishlist(productId)` */
    function IsInWishlist(productId: string): (r: bool)
      reads this
      ensures r <==> exists i :: 0 <= i < |items| && items[i].productId == productId
    {
      Contains(items, productId)
    }

    /** `toggleItem(product)`: removes a listed product, adds an unlisted one. */
    method ToggleItem(product: Product, newId: string)
      modifies this
      ensures items == Toggled(old(items), sessionId, product, newId) && sessionId == old(sessionId)
    {
      if IsInWishlist(product.id) {
        RemoveItem(product.id);
      } else {
        AddItem(product, newId);
      }
    }

    /** `getItemCount()`: the number of entries. */
    function GetItemCount(): (n: nat)
      reads this
      ensures n == 0 <==> items == []
    {
      |items|
    }
  }

  // -------------------------------------------------------------- lemmas

  /** A second `addItem` of the same product, under any fresh id, changes nothing. */
  lemma AddedIdempotent(items: seq<WishLine>, sessionId: string, product: Product, id1: string, id2: string)
    ensures Contains(Added(items, sessionId, product, id1), product.id)
    ensures Added(Added(items, sessionId, product, id1), sessionId, product, id2) ==
            Added(items, sessionId, product, id1)
  {
    if !Contains(items, product.id) {
      var r := Added(items, sessionId, product, id1);
      assert r[|items|].productId == product.id;
    }
  }

  /**
   * Toggling flips whether the product is listed and leaves every other
   * product's membership as it was.
   */
  lemma ToggledMembership(items: seq<WishLine>, sessionId: string, product: Product, newId: string, productId: string)
    ensures Contains(Toggled(items, sessionId, product, newId), productId) ==
      if productId == product.id then !Contains(items, productId) else Contains(items, productId)
  {
    var r := Toggled(items, sessionId, product, newId);
    if !Contains(items, product.id) {
      assert r[|items|].productId == product.id;
      if Contains(items, productId) {
        var i :| 0 <= i < |items| && items[i].productId == productId;
        assert r[i] == items[i];
      }
    } else if Contains(items, productId) && productId != product.id {
      var i :| 0 <= i < |items| && items[i].productId == productId;
      assert items[i] in r;
    }
  }

  /**
   * Toggling twice restores every product's membership; when the product was
   * not listed it restores the list exactly, and when it was, the product's
   * entry moves to the end under the new id.
   */
  lemma ToggledTwice(items: seq<WishLine>, sessionId: string, product: Product, id1: string, id2: string)
    ensures var twice := Toggled(Toggled(items, sessionId, product, id1), sessionId, product, id2);
      && (forall productId :: Contains(twice, productId) == Contains(items, productId))
      && (!Contains(items, product.id) ==> twice == items)
      && (Contains(items, product.id) ==>
            twice == Removed(items, product.id) + [WishLine(id2, sessionId, product.id, product)])
  {
    var once := Toggled(items, sessionId, product, id1);
    forall productId ensures Contains(Toggled(once, sessionId, product, id2), productId) == Contains(items, productId) {
      ToggledMembership(items, sessionId, product, id1, productId);
      ToggledMembership(once, sessionId, product, id2, productId);
    }
    ToggledMembership(items, sessionId, product, id1, product.id);
    if !Contains(items, product.id) {
      var line := WishLine(id1, sessionId, product.id, product);
      assert once == items + [line];
      FilterConcat((l: WishLine) => l.productId != product.id, items, [line]);
      FilterKeepsAll((l: WishLine) => l.productId != product.id, items);
      assert [line][1..] == [];
    }
  }

  /** `getItemCount` after `addItem` grows by one exactly when the product was not listed. */
  lemma AddedCount(items: seq<WishLine>, sessionId: string, product: Product, newId: string)
    ensures |Added(items, sessionId, product, newId)| == |items| + (if Contains(items, product.id) then 0 else 1)
  {
  }
}
