/** Values that cross the boundary between the storefront client and its
    collaborators: the replies of the backend, the requests the client sends
    to it, and the snackbar notifications it raises for the user. */
module Backend {

  datatype Option<+T> = None | Some(value: T)

  /** The outcome of one awaited axios call, as the client observes it.
      - Ok: the promise resolved (a 2xx status) with the decoded body `data`.
      - HttpErr: the promise rejected and `e.response` is present; `message`
        is the `message` field of the error body.
      - NoResponse: the promise rejected without `e.response` (backend down,
        network failure). */
  datatype Http<+T> =
    | Ok(status: int, data: T)
    | HttpErr(status: int, message: string)
    | NoResponse

  /** The `variant` option given to `enqueueSnackbar`. */
  datatype Variant = Success | Warning | Error

  /** One snackbar notification. */
  datatype Notice = Notice(message: string, variant: Variant)

  /** One HTTP request sent to the backend, with the parts of it the client
      chooses (the endpoint, the bearer token, the JSON body). */
  datatype Request =
    | GetProducts
    | SearchProducts(query: string)
    | GetCart(token: string)
    | PostCart(token: string, productId: string, qty: int)
    | PostRegister(username: string, password: string)
    | PostLogin(username: string, password: string)

  /** A product of the catalog, as `GET /products` returns it. */
  datatype Product = Product(id: string, name: string, category: string, cost: int, rating: int, image: string)

  /** One entry of the server-held cart, as `GET /cart` and `POST /cart` return it. */
  datatype CartRecord = CartRecord(productId: string, qty: int)

  /** An optional value as a log of zero or one entries. */
  function AsLog<T>(o: Option<T>): (log: seq<T>)
  {
    match o
    case None => []
    case Some(v) => [v]
  }
}
