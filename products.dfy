/** The products page: the catalog, the subset the search shows, the cart
    line items, the loading flag and the search debounce, as the fields of one
    object whose methods are the component's handlers. The backend's replies
    are parameters; snackbars and requests are appended to logs. */
module Products {
  import opened Backend
  import opened CartRules
  import Debounce

  const PRODUCTS_FETCH_ERROR := "Could not fetch products. Check that the backend is running, reachable and return valid JSON."

  /** What `performAPICall` does with a reply: the list it stores as both the
      catalog and the displayed subset, and the notice it shows. */
  datatype CatalogEffect = CatalogEffect(catalog: Option<seq<Product>>, notice: Option<Notice>)

  /** `performAPICall`: a reply stores its list as the catalog; any failure,
      whatever its status and with or without a response, shows the one
      generic error and stores nothing. Exactly one of the two happens. */
  function LoadCatalogEffect(reply: Http<seq<Product>>): (e: CatalogEffect)
    ensures e.catalog.Some? <==> reply.Ok?
    ensures e.notice.Some? <==> !reply.Ok?
    ensures reply.Ok? ==> e.catalog.value == reply.data
    ensures e.notice.Some? ==> e.notice.value == Notice(PRODUCTS_FETCH_ERROR, Error)
  {
    if reply.Ok? then CatalogEffect(Some(reply.data), None)
    else CatalogEffect(None, Some(Notice(PRODUCTS_FETCH_ERROR, Error)))
  }

  /** What `performSearch` does with a reply: the new displayed subset, the
      notice, and the value it resolves to. */
  datatype SearchEffect = SearchEffect(filtered: Option<seq<Product>>, notice: Option<Notice>, result: Option<seq<Product>>)

  /** `performSearch`: a reply replaces the displayed subset with the results;
      404 means "no matches" and empties it without a notice; any other
      status keeps it and shows one error (the server's message for 500, the
      generic text otherwise); no response at all changes nothing and shows
      nothing. */
  function SearchEffectOf(reply: Http<seq<Product>>): (e: SearchEffect)
    ensures e.filtered.Some? <==> reply.Ok? || (reply.HttpErr? && reply.status == 404)
    ensures e.result.Some? <==> reply.Ok?
    ensures reply.Ok? ==> e.filtered.value == reply.data && e.result.value == reply.data
    ensures reply.HttpErr? && reply.status == 404 ==> e.filtered.value == []
    ensures e.notice.Some? <==> reply.HttpErr? && reply.status != 404
    ensures reply.HttpErr? && reply.status == 500 ==> e.notice == Some(Notice(reply.message, Error))
    ensures reply.HttpErr? && reply.status != 404 && reply.status != 500 ==>
      e.notice == Some(Notice(PRODUCTS_FETCH_ERROR, Error))
  {
    match reply
    case Ok(_, data) => SearchEffect(Some(data), None, Some(data))
    case HttpErr(status, message) =>
      if status == 404 then SearchEffect(Some([]), None, None)
      else if status == 500 then SearchEffect(None, Some(Notice(message, Error)), None)
      else SearchEffect(None, Some(Notice(PRODUCTS_FETCH_ERROR, Error)), None)
    case NoResponse => SearchEffect(None, None, None)
  }

  /** The new value of a piece of state after an optional `set...` call. */
  function Updated<T>(prior: T, change: Option<T>): (r: T)
  {
    if change.Some? then change.value else prior
  }

  class ProductsPage {
    // The component's state.
    var isLoading: bool
    var products: seq<Product>
    var filteredProducts: seq<Product>
    var items: seq<CartItem>
    var debounceTimeout: Option<nat>

    // What the component sees of its environment.
    var token: Option<string>          // `localStorage.getItem('token')`
    var searchText: string             // value of the search field last typed in
    var now: int                       // the clock, in milliseconds
    var timers: map<nat, int>          // the browser's armed timers: id to deadline
    var nextTimerId: nat               // the id the next `setTimeout` returns
    var notices: seq<Notice>           // every snackbar shown, in order
    var requests: seq<Request>         // every request sent, in order
    const generate: Generator          // `generateCartItemsFrom`

    /** The debounce part of the state, as the Debounce module models it. */
    ghost function Throttle(): Debounce.Timers
      reads this
    {
      Debounce.Timers(now, timers, debounceTimeout, nextTimerId, searchText)
    }

    ghost predicate Valid()
      reads this
    {
      Debounce.Valid(Throttle())
    }

    /** The first render: loading, nothing fetched, no timer. */
    constructor (token: Option<string>, generate: Generator)
      ensures Valid()
      ensures this.token == token && this.generate == generate
      ensures isLoading && products == [] && filteredProducts == [] && items == []
      ensures debounceTimeout.None? && timers == map[] && searchText == "" && now == 0
      ensures notices == [] && requests == []
    {
      this.token := token;
      this.generate := generate;
      isLoading := true;
      products := [];
      filteredProducts := [];
      items := [];
      debounceTimeout := None;
      searchText := "";
      now := 0;
      timers := map[];
      nextTimerId := 1;
      notices := [];
      requests := [];
    }

    /** `performAPICall`: fetch the catalog; on success both the catalog and
        the displayed subset become the same list; on failure both are kept
        and an error is shown. Loading is over afterwards in every case. */
    method PerformAPICall(reply: Http<seq<Product>>) returns (r: Option<seq<Product>>)
      modifies this`products, this`filteredProducts, this`isLoading, this`notices, this`requests
      ensures var e := LoadCatalogEffect(reply);
        && products == Updated(old(products), e.catalog)
        && filteredProducts == Updated(old(filteredProducts), e.catalog)
        && r == e.catalog
        && notices == old(notices) + AsLog(e.notice)
      ensures requests == old(requests) + [GetProducts]
      ensures !isLoading
    {
      requests := requests + [GetProducts];
      match reply {
        case Ok(_, data) =>
          products := data;
          filteredProducts := data;
          r := Some(data);
        case _ =>
          notices := notices + [Notice(PRODUCTS_FETCH_ERROR, Error)];
          r := None;
      }
      isLoading := false;
    }

    /** `performSearch(text)`: one search request for `text`; only the
        displayed subset can change, never the catalog or the cart. */
    method PerformSearch(text: string, reply: Http<seq<Product>>) returns (r: Option<seq<Product>>)
      modifies this`filteredProducts, this`notices, this`requests
      ensures var e := SearchEffectOf(reply);
        && filteredProducts == Updated(old(filteredProducts), e.filtered)
        && notices == old(notices) + AsLog(e.notice)
        && r == e.result
      ensures requests == old(requests) + [SearchProducts(text)]
    {
      requests := requests + [SearchProducts(text)];
      r := None;
      match reply {
        case Ok(_, data) =>
          filteredProducts := data;
          r := Some(data);
        case HttpErr(status, message) =>
          if status == 404 {
            filteredProducts := [];
          } else if status == 500 {
            notices := notices + [Notice(message, Error)];
          } else {
            notices := notices + [Notice(PRODUCTS_FETCH_ERROR, Error)];
          }
        case NoResponse =>
      }
    }

    /** `debounceSearch`: the keystroke puts `text` in the field, clears the
        timer the page holds and arms exactly one new timer DELAY from now. */
    method DebounceSearch(text: string)
      requires Valid()
      modifies this`searchText, this`timers, this`debounceTimeout, this`nextTimerId
      ensures Valid()
      ensures Throttle() == Debounce.Keystroke(old(Throttle()), text)
      ensures Debounce.Pending(Throttle(), text)
    {
      searchText := text;
      if debounceTimeout.Some? {
        timers := timers - {debounceTimeout.value};
      }
      var timerId := nextTimerId;
      nextTimerId := nextTimerId + 1;
      timers := timers[timerId := now + Debounce.DELAY];
      debounceTimeout := Some(timerId);
      Debounce.KeystrokeReplacesPending(old(Throttle()), text);
    }

    /** The clock advances by `dt`. If the pending timer comes due it fires
        once and searches for the text the field holds at that moment; the
        search's reply is `reply`. */
    method Tick(dt: nat, reply: Http<seq<Product>>)
      requires Valid()
      modifies this`now, this`timers, this`filteredProducts, this`notices, this`requests
      ensures Valid()
      ensures Throttle() == Debounce.Elapse(old(Throttle()), dt).0
      ensures var fired := Debounce.Elapse(old(Throttle()), dt).1;
        var e := SearchEffectOf(reply);
        if fired == [] then
          filteredProducts == old(filteredProducts) && notices == old(notices) && requests == old(requests)
        else
          && fired == [old(searchText)]
          && requests == old(requests) + [SearchProducts(old(searchText))]
          && filteredProducts == Updated(old(filteredProducts), e.filtered)
          && notices == old(notices) + AsLog(e.notice)
    {
      now := now + dt;
      if debounceTimeout.Some? && debounceTimeout.value in timers && timers[debounceTimeout.value] <= now {
        timers := timers - {debounceTimeout.value};
        var _ := PerformSearch(searchText, reply);
      }
    }

    /** `fetchCart(token)`: without a token nothing is sent; otherwise one
        authorised `GET /cart`. The component's state is left as it is. */
    method FetchCart(token: Option<string>, reply: Http<seq<CartRecord>>) returns (r: CartReply)
      modifies this`notices, this`requests
      ensures var e := FetchCartEffect(token, reply);
        && requests == old(requests) + AsLog(e.request)
        && notices == old(notices) + AsLog(e.notice)
        && r == e.result
    {
      if !Present(token) {
        return Skipped;
      }
      requests := requests + [GetCart(token.value)];
      match reply {
        case Ok(_, records) =>
          r := Records(records);
        case _ =>
          notices := notices + [CartFailureNotice(reply)];
          r := Failed;
      }
    }

    /** `addToCart(token, items, products, productId, qty, options)`: only the
        cart line items can change, and only to the reconciliation of a
        successful reply against the `products` passed in. */
    method AddToCart(token: Option<string>, items: seq<CartItem>, products: seq<Product>,
                     productId: string, qty: int, preventDuplicate: bool,
                     reply: Http<seq<CartRecord>>) returns (r: CartReply)
      modifies this`items, this`notices, this`requests
      ensures var e := AddToCartEffect(token, items, products, productId, qty, preventDuplicate, reply, generate);
        && this.items == Updated(old(this.items), e.newItems)
        && notices == old(notices) + AsLog(e.notice)
        && requests == old(requests) + AsLog(e.request)
        && r == e.result
    {
      if !Present(token) {
        notices := notices + [Notice(LOGIN_TO_ADD, Error)];
        return Skipped;
      }
      if preventDuplicate && IsItemInCart(items, productId) {
        notices := notices + [Notice(ALREADY_IN_CART, Warning)];
        return Skipped;
      }
      requests := requests + [PostCart(token.value, productId, qty)];
      match reply {
        case Ok(_, records) =>
          this.items := generate(records, products);
          r := Records(records);
        case _ =>
          notices := notices + [CartFailureNotice(reply)];
          r := Failed;
      }
    }

    /** The "Add to cart" button of a product card: `addToCart` with the
        page's token, its current line items, the full catalog (not the
        displayed subset), quantity 1 and duplicate prevention on. */
    method HandleAddToCart(productId: string, reply: Http<seq<CartRecord>>) returns (r: CartReply)
      modifies this`items, this`notices, this`requests
      ensures var e := AddToCartEffect(token, old(items), products, productId, 1, true, reply, generate);
        && items == Updated(old(items), e.newItems)
        && notices == old(notices) + AsLog(e.notice)
        && requests == old(requests) + AsLog(e.request)
        && r == e.result
    {
      r := AddToCart(token, items, products, productId, 1, true, reply);
    }
  }
}
