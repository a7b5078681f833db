/** The cart rules of the products page: the membership query behind
    duplicate prevention, and the decision procedures of `fetchCart` and
    `addToCart` stated over their inputs and the backend's reply. The server
    cart is canonical: the client only forwards the caller's quantity and
    replaces its line items with what the server sends back. */
module CartRules {
  import opened Backend

  const LOGIN_TO_ADD := "Login to add an item to the Cart"
  const ALREADY_IN_CART := "Item already in cart. Use the cart sidebar to update quantity or remove item."
  const CART_FETCH_ERROR := "Could not fetch cart details. Check that the backend is running, reachable and returns valid JSON."

  /** A line item of the cart panel: a cart record joined with its product's
      display fields (built by `generateCartItemsFrom`). */
  datatype CartItem = CartItem(productId: string, qty: int, name: string, category: string, cost: int, rating: int, image: string)

  /** `generateCartItemsFrom`, which joins server records with the catalog. Its
      definition is not part of this model, so it is passed in as a value. */
  type Generator = (seq<CartRecord>, seq<Product>) -> seq<CartItem>

  /** What `fetchCart` and `addToCart` resolve to: `undefined` when they stop
      before any request (Skipped), `null` after a failed request (Failed),
      and the server's cart records otherwise. */
  datatype CartReply = Skipped | Failed | Records(records: seq<CartRecord>)

  /** JavaScript truthiness of the token read from local storage: `null` and
      the empty string both count as "no token". */
  predicate Present(token: Option<string>)
  {
    token.Some? && token.value != ""
  }

  /** The predicate handed to `items.find`. */
  predicate Counts(item: CartItem, productId: string)
  {
    item.productId == productId && item.qty > 0
  }

  /** `items.find(...)` as a position: the index of the first item for the
      product with a positive quantity, or `|items|` when there is none. */
  function FindInCart(items: seq<CartItem>, productId: string): (k: nat)
    ensures k <= |items|
    ensures forall j :: 0 <= j < k ==> !Counts(items[j], productId)
    ensures k < |items| ==> Counts(items[k], productId)
  {
    if items == [] then 0
    else if Counts(items[0], productId) then 0
    else 1 + FindInCart(items[1..], productId)
  }

  /** `isItemInCart`: some line item is for the product and has a positive
      quantity; a line item with quantity 0 or less does not count. */
  function IsItemInCart(items: seq<CartItem>, productId: string): (r: bool)
    ensures r <==> exists i :: 0 <= i < |items| && items[i].productId == productId && items[i].qty > 0
  {
    FindInCart(items, productId) < |items|
  }

  /** The notice of the `catch` block of `fetchCart` and `addToCart`. */
  function CartFailureNotice<T>(reply: Http<T>): (n: Notice)
  {
    if reply.HttpErr? && reply.status == 400 then Notice(reply.message, Error)
    else Notice(CART_FETCH_ERROR, Error)
  }

  /** Everything one call of `fetchCart` or `addToCart` does: the request it
      sends, the notice it shows, the new line items it stores with
      `setItems`, and the value it resolves to. */
  datatype CartEffect = CartEffect(request: Option<Request>, notice: Option<Notice>, newItems: Option<seq<CartItem>>, result: CartReply)

  /** `fetchCart(token)`: without a token it resolves to `undefined` and sends
      nothing; with one it sends exactly one `GET /cart` carrying the token
      and resolves to the server's records, or shows one error and resolves to
      `null`. It never stores line items itself. */
  function FetchCartEffect(token: Option<string>, reply: Http<seq<CartRecord>>): (e: CartEffect)
    ensures e.newItems.None?
    ensures !Present(token) ==> e == CartEffect(None, None, None, Skipped)
    ensures Present(token) ==> e.request == Some(GetCart(token.value))
    ensures Present(token) && reply.Ok? ==> e.result == Records(reply.data) && e.notice.None?
    ensures Present(token) && !reply.Ok? ==> e.result == Failed && e.notice == Some(CartFailureNotice(reply))
  {
    if !Present(token) then CartEffect(None, None, None, Skipped)
    else match reply
      case Ok(_, records) => CartEffect(Some(GetCart(token.value)), None, None, Records(records))
      case _ => CartEffect(Some(GetCart(token.value)), Some(CartFailureNotice(reply)), None, Failed)
  }

  /** `addToCart(token, items, products, productId, qty, options)`.
      The gates run in order: no token, then the duplicate check (only when
      `preventDuplicate` is set); each stops the call with its own notice,
      before any request. Otherwise exactly one `POST /cart` goes out with the
      caller's product id and quantity unchanged (the client never adds to a
      quantity it holds). The line items are replaced only when that request
      succeeds, and then by the reconciliation of the server's reply against
      the given catalog; a failed request shows one error and leaves them. */
  function AddToCartEffect(token: Option<string>, items: seq<CartItem>, products: seq<Product>,
                           productId: string, qty: int, preventDuplicate: bool,
                           reply: Http<seq<CartRecord>>, generate: Generator): (e: CartEffect)
    ensures !Present(token) ==> e == CartEffect(None, Some(Notice(LOGIN_TO_ADD, Error)), None, Skipped)
    ensures Present(token) && preventDuplicate && IsItemInCart(items, productId) ==>
      e == CartEffect(None, Some(Notice(ALREADY_IN_CART, Warning)), None, Skipped)
    ensures e.request.Some? <==> Present(token) && !(preventDuplicate && IsItemInCart(items, productId))
    ensures e.request.Some? ==> e.request.value == PostCart(token.value, productId, qty)
    ensures e.newItems.Some? <==> e.request.Some? && reply.Ok?
    ensures e.newItems.Some? ==>
      e.newItems.value == generate(reply.data, products) && e.result == Records(reply.data) && e.notice.None?
    ensures e.request.Some? && !reply.Ok? ==> e.result == Failed && e.notice == Some(CartFailureNotice(reply))
  {
    if !Present(token) then
      CartEffect(None, Some(Notice(LOGIN_TO_ADD, Error)), None, Skipped)
    else if preventDuplicate && IsItemInCart(items, productId) then
      CartEffect(None, Some(Notice(ALREADY_IN_CART, Warning)), None, Skipped)
    else
      var post := PostCart(token.value, productId, qty);
      match reply
      case Ok(_, records) => CartEffect(Some(post), None, Some(generate(records, products)), Records(records))
      case _ => CartEffect(Some(post), Some(CartFailureNotice(reply)), None, Failed)
  }

  /** Duplicate prevention: with a token, when some line item for the product
      has quantity at least 1, `addToCart` with `preventDuplicate` set sends
      nothing and shows the "already in cart" warning. */
  lemma DuplicateIsRefused(token: Option<string>, items: seq<CartItem>, products: seq<Product>,
                           productId: string, qty: int, i: nat,
                           reply: Http<seq<CartRecord>>, generate: Generator)
    requires Present(token)
    requires i < |items| && items[i].productId == productId && items[i].qty >= 1
    ensures var e := AddToCartEffect(token, items, products, productId, qty, true, reply, generate);
      e.request.None? && e.newItems.None? && e.notice == Some(Notice(ALREADY_IN_CART, Warning))
  {
  }

  /** Without `preventDuplicate`, a product already in the cart is still
      posted: the client sends the requested quantity as given and never adds
      it to the quantity it holds. */
  lemma QuantityUpdateIsForwarded(token: Option<string>, items: seq<CartItem>, products: seq<Product>,
                                  productId: string, qty: int,
                                  reply: Http<seq<CartRecord>>, generate: Generator)
    requires Present(token)
    ensures var e := AddToCartEffect(token, items, products, productId, qty, false, reply, generate);
      e.request == Some(PostCart(token.value, productId, qty))
  {
  }
}
