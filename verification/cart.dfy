/** The customer's cart as both product pages keep it: the JSON array stored under the
    `cart` key of the browser's local storage, one entry per product. */
module Cart {
  import opened Wrappers
  import opened Sequences

  type ProductId = string

  /** A cart entry. The menu page writes no `category` or `stock`; the product page writes both. */
  datatype CartEntry = CartEntry(
    productId: ProductId,
    name: string,
    price: real,
    productImage: string,
    category: Option<string>,
    stock: Option<int>,
    quantity: int)

  /** `cart.reduce((total, item) => total + item.quantity, 0)`. */
  function CartCount(entries: seq<CartEntry>): int
  {
    if |entries| == 0 then 0 else CartCount(entries[..|entries| - 1]) + entries[|entries| - 1].quantity
  }

  /** Adding `delta` to one entry's quantity adds `delta` to the count. */
  lemma {:induction false} CountAfterIncrement(entries: seq<CartEntry>, k: int, delta: int)
    requires 0 <= k < |entries|
    ensures CartCount(entries[k := entries[k].(quantity := entries[k].quantity + delta)]) == CartCount(entries) + delta
  {
    var n := |entries| - 1;
    var updated := entries[k := entries[k].(quantity := entries[k].quantity + delta)];
    if k < n {
      assert updated[..n] == entries[..n][k := entries[k].(quantity := entries[k].quantity + delta)];
      CountAfterIncrement(entries[..n], k, delta);
    } else {
      assert updated[..n] == entries[..n];
    }
  }

  /** Appending an entry adds its quantity to the count. */
  lemma CountAfterAppend(entries: seq<CartEntry>, e: CartEntry)
    ensures CartCount(entries + [e]) == CartCount(entries) + e.quantity
  {
    assert (entries + [e])[..|entries|] == entries;
  }

  /** No two entries are for the same product. */
  predicate UniqueIds(entries: seq<CartEntry>)
  {
    forall i, j :: 0 <= i < j < |entries| ==> entries[i].productId != entries[j].productId
  }

  function IsFor(productId: ProductId): CartEntry -> bool
  {
    (e: CartEntry) => e.productId == productId
  }

  /** `findIndex(item => item.productId === productId)`. */
  function EntryIndex(entries: seq<CartEntry>, productId: ProductId): (k: int)
    ensures -1 <= k < |entries|
    ensures k >= 0 ==> entries[k].productId == productId && forall j :: 0 <= j < k ==> entries[j].productId != productId
    ensures k == -1 <==> forall j :: 0 <= j < |entries| ==> entries[j].productId != productId
  {
    FirstIndex(entries, IsFor(productId))
  }

  /** The merge both pages perform: raise the quantity of the product's entry by `added.quantity`,
      or append `added` when the product has none. */
  function Merge(entries: seq<CartEntry>, added: CartEntry): (r: seq<CartEntry>)
    ensures var k := EntryIndex(entries, added.productId);
            && (k >= 0 ==> |r| == |entries| && r[k] == entries[k].(quantity := entries[k].quantity + added.quantity)
                           && forall j :: 0 <= j < |entries| && j != k ==> r[j] == entries[j])
            && (k < 0 ==> r == entries + [added])
    ensures CartCount(r) == CartCount(entries) + added.quantity
    ensures UniqueIds(entries) ==> UniqueIds(r)
    ensures EntryIndex(r, added.productId) >= 0
  {
    var k := EntryIndex(entries, added.productId);
    if k >= 0 then
      CountAfterIncrement(entries, k, added.quantity);
      entries[k := entries[k].(quantity := entries[k].quantity + added.quantity)]
    else
      CountAfterAppend(entries, added);
      assert (entries + [added])[|entries|].productId == added.productId;
      entries + [added]
  }

  /** The part of the browser's local storage the pages use: whether a `token` is stored, and
      the `cart` array (an absent key reads as the empty cart). */
  class BrowserStorage {
    var hasToken: bool
    var cart: seq<CartEntry>

    constructor (hasToken: bool, cart: seq<CartEntry>)
      ensures this.hasToken == hasToken && this.cart == cart
    {
      this.hasToken := hasToken;
      this.cart := cart;
    }
  }
}
