/** The menu page: the per-product quantity fields, the category filter, the cart badge
    (`updateCartCount`) and `addToCart`, which merges the selected quantity into the cart
    kept in local storage. */
module Menu {
  import opened Wrappers
  import opened Sequences
  import opened Cart

  /** A product as the product list endpoint returns it. */
  datatype MenuProduct = MenuProduct(productId: ProductId, name: string, price: real, productImage: string,
                                     category: string, stock: int)

  function HasProductId(productId: ProductId): MenuProduct -> bool
  {
    (p: MenuProduct) => p.productId == productId
  }

  /** `products.find(p => p.productId === productId)`, as a position (-1 when absent). */
  function ProductIndex(products: seq<MenuProduct>, productId: ProductId): (k: int)
    ensures -1 <= k < |products|
    ensures k >= 0 ==> products[k].productId == productId
    ensures k == -1 <==> forall j :: 0 <= j < |products| ==> products[j].productId != productId
  {
    FirstIndex(products, HasProductId(productId))
  }

  /** `product?.stock || 1`: the product's stock, or 1 when it is absent or its stock is 0. */
  function QuantityBound(products: seq<MenuProduct>, productId: ProductId): int
  {
    var k := ProductIndex(products, productId);
    if k >= 0 && products[k].stock != 0 then products[k].stock else 1
  }

  /** The guard of `handleQuantityChange`. `parsed` is `parseInt(value)`, `None` for NaN. The result
      is the quantity stored, or `None` when the input is ignored. */
  function AcceptedQuantity(products: seq<MenuProduct>, productId: ProductId, parsed: Option<int>): (q: Option<int>)
    ensures q.None? <==> parsed.None? || parsed.value < 1 || parsed.value > QuantityBound(products, productId)
    ensures q.Some? ==> q == parsed && q.value >= 1
    ensures var k := ProductIndex(products, productId);
            && (q.Some? && k >= 0 && products[k].stock != 0 ==> q.value <= products[k].stock)
            && (q.Some? && (k < 0 || products[k].stock == 0) ==> q.value == 1)
  {
    if parsed.None? then None
    else if parsed.value < 1 then None
    else if parsed.value > QuantityBound(products, productId) then None
    else parsed
  }

  /** `quantities[productId] || 1`: the selected quantity, 1 when none was stored. */
  function SelectedQuantity(quantities: map<ProductId, int>, productId: ProductId): (q: int)
    ensures (forall id :: id in quantities ==> quantities[id] >= 1) ==> q >= 1
  {
    if productId in quantities && quantities[productId] != 0 then quantities[productId] else 1
  }

  /** The entry `addToCart` pushes: no category and no stock snapshot. */
  function MenuEntry(product: MenuProduct, quantity: int): CartEntry
  {
    CartEntry(product.productId, product.name, product.price, product.productImage, None, None, quantity)
  }

  /** The category filter: every product for `'All'`, otherwise exactly the products of that category,
      each as often as it is listed and in the listed order. */
  function FilterByCategory(products: seq<MenuProduct>, category: string): (r: seq<MenuProduct>)
    ensures category == "All" ==> r == products
    ensures category != "All" ==>
              && (forall p :: p in r <==> p in products && p.category == category)
              && (forall p :: multiset(r)[p] == if p.category == category then multiset(products)[p] else 0)
    ensures SubsequenceOf(r, products)
  {
    if category == "All" then
      assert Embedding(products, products, seq(|products|, i requires 0 <= i < |products| => i));
      products
    else
      FilterIsSubsequence(products, (p: MenuProduct) => p.category == category);
      FilterMultiplicity(products, (p: MenuProduct) => p.category == category);
      Filter(products, (p: MenuProduct) => p.category == category)
  }

  function ProductIds(products: seq<MenuProduct>): set<ProductId>
  {
    set p | p in products :: p.productId
  }

  /** The page's state after the product list arrived. */
  class MenuPage {
    var products: seq<MenuProduct>
    var filteredProducts: seq<MenuProduct>
    var selectedCategory: string
    var quantities: map<ProductId, int>
    var cartCount: int

    /** Every stored quantity is at least 1. */
    ghost predicate Valid()
      reads this
    {
      forall id :: id in quantities ==> quantities[id] >= 1
    }

    /** The fetch effect: products shown unfiltered, each quantity field at 1, and the badge
        computed from the stored cart. */
    constructor (fetched: seq<MenuProduct>, storage: BrowserStorage)
      ensures Valid()
      ensures products == fetched && filteredProducts == fetched && selectedCategory == "All"
      ensures quantities.Keys == ProductIds(fetched) && forall id :: id in quantities ==> quantities[id] == 1
      ensures cartCount == CartCount(storage.cart)
    {
      products := fetched;
      filteredProducts := fetched;
      selectedCategory := "All";
      quantities := map id | id in ProductIds(fetched) :: 1;
      cartCount := CartCount(storage.cart);
    }

    /** `updateCartCount`. */
    method UpdateCartCount(storage: BrowserStorage)
      modifies this`cartCount
      ensures cartCount == CartCount(storage.cart)
    {
      cartCount := CartCount(storage.cart);
    }

    /** Choosing a category, and the effect that re-filters the products. */
    method SelectCategory(category: string)
      modifies this`selectedCategory, this`filteredProducts
      ensures selectedCategory == category
      ensures filteredProducts == FilterByCategory(products, category)
    {
      selectedCategory := category;
      if category == "All" {
        filteredProducts := products;
      } else {
        filteredProducts := Filter(products, (p: MenuProduct) => p.category == category);
      }
    }

    /** `handleQuantityChange`: an accepted value is stored for that product only. */
    method HandleQuantityChange(productId: ProductId, parsed: Option<int>)
      requires Valid()
      modifies this`quantities
      ensures Valid()
      ensures quantities == match AcceptedQuantity(products, productId, parsed)
                            case Some(q) => old(quantities)[productId := q]
                            case None => old(quantities)
    {
      var k := ProductIndex(products, productId);
      if parsed.None? {
        return;
      }
      var numValue := parsed.value;
      if numValue < 1 {
        return;
      }
      if numValue > (if k >= 0 && products[k].stock != 0 then products[k].stock else 1) {
        return;
      }
      quantities := quantities[productId := numValue];
    }

    /** `addToCart`: without a token nothing changes; otherwise the selected quantity is merged
        into the stored cart in place and the badge is recomputed. */
    method AddToCart(storage: BrowserStorage, product: MenuProduct)
      requires Valid()
      modifies storage`cart, this`cartCount
      ensures !storage.hasToken ==> storage.cart == old(storage.cart) && cartCount == old(cartCount)
      ensures storage.hasToken ==>
                && storage.cart == Merge(old(storage.cart), MenuEntry(product, SelectedQuantity(quantities, product.productId)))
                && cartCount == CartCount(storage.cart)
                && cartCount == CartCount(old(storage.cart)) + SelectedQuantity(quantities, product.productId)
    {
      if !storage.hasToken {
        return;
      }
      var quantity := if product.productId in quantities && quantities[product.productId] != 0
                      then quantities[product.productId] else 1;
      var cart := storage.cart;
      var existingIndex := EntryIndex(cart, product.productId);
      if existingIndex >= 0 {
        cart := cart[existingIndex := cart[existingIndex].(quantity := cart[existingIndex].quantity + quantity)];
      } else {
        cart := cart + [MenuEntry(product, quantity)];
      }
      storage.cart := cart;
      cartCount := CartCount(storage.cart);
    }
  }

  /** The badge after an add by a signed-in customer has grown by at least one, and a cart with one
      entry per product keeps one entry per product. */
  lemma MenuAddGrowsCount(cart: seq<CartEntry>, quantities: map<ProductId, int>, product: MenuProduct)
    requires forall id :: id in quantities ==> quantities[id] >= 1
    ensures var after := Merge(cart, MenuEntry(product, SelectedQuantity(quantities, product.productId)));
            && CartCount(after) >= CartCount(cart) + 1
            && (UniqueIds(cart) ==> UniqueIds(after))
            && |after| == (if EntryIndex(cart, product.productId) >= 0 then |cart| else |cart| + 1)
  {
  }
}
