/** The product page: the quantity field with its error message (`handleQuantityChange`) and
    `addToCart`, which merges the chosen quantity into the stored cart unless the product's
    entry would exceed the stock. The product id is the one in the page's URL. */
module ProductDetail {
  import opened Wrappers
  import opened Cart

  /** The product the page fetched. */
  datatype DetailProduct = DetailProduct(name: string, price: real, productImage: string, category: string, stock: int)

  /** The raw field value: exactly `''`, or other text together with its `parseInt` (`None` for NaN). */
  datatype QuantityInput = Empty | Text(parsed: Option<int>)

  /** The `quantity` state: `''` or a number. */
  datatype QuantityField = Blank | Qty(n: int)

  /** The `quantityError` message; `NoError` is the empty message. */
  datatype QuantityError = NoError | MustBeNumber | Minimum1 | Max(stock: int) | InvalidQuantity | OnlyAvailable(available: int)

  /** `handleQuantityChange`: the new quantity and error message. `product` is `None` while the
      product has not arrived. */
  function QuantityChange(product: Option<DetailProduct>, input: QuantityInput): (out: (QuantityField, QuantityError))
    ensures input.Empty? ==> out == (Blank, NoError)
    ensures input == Text(None) ==> out == (Qty(1), MustBeNumber)
    ensures input.Text? && input.parsed.Some? && input.parsed.value < 1 ==> out == (Qty(1), Minimum1)
    ensures input.Text? && input.parsed.Some? && input.parsed.value >= 1 ==>
              out == if product.Some? && input.parsed.value > product.value.stock
                     then (Qty(product.value.stock), Max(product.value.stock))
                     else (Qty(input.parsed.value), NoError)
    ensures out.1 == NoError ==> out.0.Blank? || (out.0.n >= 1 && (product.Some? ==> out.0.n <= product.value.stock))
  {
    match input
    case Empty => (Blank, NoError)
    case Text(parsed) =>
      if parsed.None? then (Qty(1), MustBeNumber)
      else if parsed.value < 1 then (Qty(1), Minimum1)
      else if product.Some? && parsed.value > product.value.stock then (Qty(product.value.stock), Max(product.value.stock))
      else (Qty(parsed.value), NoError)
  }

  /** The entry `addToCart` pushes: it carries the category and a snapshot of the stock. */
  function DetailEntry(productId: ProductId, product: DetailProduct, quantity: int): CartEntry
  {
    CartEntry(productId, product.name, product.price, product.productImage, Some(product.category),
              Some(product.stock), quantity)
  }

  /** `addToCart` once a token is present: the new cart, or the error message it sets instead. */
  function AddToCartResult(cart: seq<CartEntry>, productId: ProductId, product: DetailProduct, quantity: QuantityField)
    : (r: Result<seq<CartEntry>, QuantityError>)
    ensures r == Failure(InvalidQuantity) <==> !(quantity.Qty? && quantity.n >= 1)
    ensures r.Success? <==>
              && quantity.Qty? && quantity.n >= 1
              && !(EntryIndex(cart, productId) >= 0 && cart[EntryIndex(cart, productId)].quantity + quantity.n > product.stock)
    ensures var k := EntryIndex(cart, productId);
            quantity.Qty? && quantity.n >= 1 ==>
              (r == Failure(OnlyAvailable(product.stock)) <==> k >= 0 && cart[k].quantity + quantity.n > product.stock)
    ensures r.Success? ==>
              && CartCount(r.value) == CartCount(cart) + quantity.n
              && (UniqueIds(cart) ==> UniqueIds(r.value))
              && var k := EntryIndex(cart, productId);
                 && (k >= 0 ==> |r.value| == |cart| && r.value[k].quantity == cart[k].quantity + quantity.n
                                && r.value[k].quantity <= product.stock
                                && forall j :: 0 <= j < |cart| && j != k ==> r.value[j] == cart[j])
                 && (k < 0 ==> r.value == cart + [DetailEntry(productId, product, quantity.n)])
  {
    if !(quantity.Qty? && quantity.n >= 1) then Failure(InvalidQuantity)
    else
      var k := EntryIndex(cart, productId);
      if k >= 0 && cart[k].quantity + quantity.n > product.stock then Failure(OnlyAvailable(product.stock))
      else Success(Merge(cart, DetailEntry(productId, product, quantity.n)))
  }

  /** With the button enabled (stock above 0 and no error shown), a quantity typed into the field and
      then added never takes the product's cart entry above the stock, whether the entry is new or
      existing. */
  lemma AddAfterChangeWithinStock(cart: seq<CartEntry>, productId: ProductId, product: DetailProduct,
                                  input: QuantityInput)
    requires product.stock > 0
    requires QuantityChange(Some(product), input).1 == NoError
    ensures var r := AddToCartResult(cart, productId, product, QuantityChange(Some(product), input).0);
            r.Success? ==>
              var k := EntryIndex(r.value, productId);
              k >= 0 && r.value[k].quantity <= product.stock
  {
    var q := QuantityChange(Some(product), input).0;
    var r := AddToCartResult(cart, productId, product, q);
    if r.Success? {
      var k := EntryIndex(cart, productId);
      if k < 0 {
        assert r.value[|cart|] == DetailEntry(productId, product, q.n);
        assert EntryIndex(r.value, productId) == |cart|;
      } else {
        assert EntryIndex(r.value, productId) == k by {
          forall j | 0 <= j < k ensures r.value[j].productId != productId {
            assert r.value[j] == cart[j];
          }
        }
      }
    }
  }

  /** The page's state once the product with the URL's id has loaded. */
  class ProductDetailPage {
    const productId: ProductId
    var product: Option<DetailProduct>
    var quantity: QuantityField
    var quantityError: QuantityError

    constructor (productId: ProductId, fetched: Option<DetailProduct>)
      ensures this.productId == productId && product == fetched
      ensures quantity == Qty(1) && quantityError == NoError
    {
      this.productId := productId;
      product := fetched;
      quantity := Qty(1);
      quantityError := NoError;
    }

    /** `handleQuantityChange`. */
    method HandleQuantityChange(input: QuantityInput)
      modifies this`quantity, this`quantityError
      ensures (quantity, quantityError) == QuantityChange(product, input)
    {
      if input.Empty? {
        quantity, quantityError := Blank, NoError;
        return;
      }
      if input.parsed.None? {
        quantity, quantityError := Qty(1), MustBeNumber;
        return;
      }
      var numValue := input.parsed.value;
      if numValue < 1 {
        quantity, quantityError := Qty(1), Minimum1;
        return;
      }
      if product.Some? && numValue > product.value.stock {
        quantity, quantityError := Qty(product.value.stock), Max(product.value.stock);
        return;
      }
      quantity, quantityError := Qty(numValue), NoError;
    }

    /** `addToCart`. The button exists only once the product has loaded. Without a token nothing
        changes; otherwise the cart is updated in place, or the error is shown and the cart kept. */
    method AddToCart(storage: BrowserStorage)
      requires product.Some?
      modifies storage`cart, this`quantityError
      ensures !storage.hasToken ==> storage.cart == old(storage.cart) && quantityError == old(quantityError)
      ensures storage.hasToken ==>
                match AddToCartResult(old(storage.cart), productId, product.value, quantity)
                case Failure(e) => storage.cart == old(storage.cart) && quantityError == e
                case Success(c) => storage.cart == c && quantityError == old(quantityError)
    {
      if !storage.hasToken {
        return;
      }
      if !(quantity.Qty? && quantity.n != 0) || quantity.n < 1 {
        quantityError := InvalidQuantity;
        return;
      }
      var cartItems := storage.cart;
      var existingItemIndex := EntryIndex(cartItems, productId);
      if existingItemIndex >= 0 {
        var newQuantity := cartItems[existingItemIndex].quantity + quantity.n;
        if newQuantity > product.value.stock {
          quantityError := OnlyAvailable(product.value.stock);
          return;
        }
        cartItems := cartItems[existingItemIndex := cartItems[existingItemIndex].(quantity := newQuantity)];
      } else {
        cartItems := cartItems + [DetailEntry(productId, product.value, quantity.n)];
      }
      storage.cart := cartItems;
    }
  }
}
