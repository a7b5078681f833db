# QKart storefront client: cart, catalog, search and form logic

This project models the logic of three React components of the QKart storefront client. Everything around that logic is presentation and is not modelled.

- **Products page** (`src/components/Products.js`):
  - the catalog and the subset the search box shows;
  - the cart line items;
  - the loading flag;
  - the debounce of the search box;
  - the cart rules `isItemInCart`, `fetchCart` and `addToCart`.
- **Register page** (`src/components/Register.js`): its validation chain, form updates and the handling of the registration reply.
- **Login page** (`src/components/Login.js`): its validation chain, form updates, the handling of the login reply and the session it stores.

The collaborators are modelled as data:
- Each axios call becomes an `Http` outcome passed in as a parameter:
  - `Ok(status, data)`: the promise resolved;
  - `HttpErr(status, message)`: it rejected with `e.response`;
  - `NoResponse`: it rejected without one.
- Snackbars are appended to a `notices` log.
- Requests are appended to a `requests` log.
- `history.push` is appended to a `history` log.
- `localStorage` is a `map<string, string>`.
- `generateCartItemsFrom` (from `Cart.js`, not part of this model) is a function value given to the page when it is built. Nothing is assumed about what it computes beyond the shape of its result (see "## Left out").

Modules:
- `Backend` (backend.dfy): the outcome, notice and request types, and the wire shapes `Product` and `CartRecord`.
- `Forms` (forms.dfy): the "first failing check wins" reading of a validation chain. `FirstFailure` is the reference definition that both `validateInput` functions are proved equal to.
- `CartRules` (cart_rules.dfy): `isItemInCart`, and the decisions of `fetchCart` and `addToCart` as functions of their inputs and the backend's reply.
- `Debounce` (debounce.dfy): the search box's timer as a value with these parts:
  - an integer clock;
  - the browser's table of armed timers;
  - the handle the page keeps in `debounceTimeout`;
  - the text of the search field.

  It holds the single-timer invariant and the burst-collapsing lemmas.
- `Products` (products.dfy): class `ProductsPage`, whose fields are the component's state. Its methods are the handlers. Each method is proved against the effect function of its module or of `CartRules`, and each `modifies` clause names exactly the fields that the handler can change.
- `Register` (register.dfy) and `Login` (login.dfy): the two form pages as classes, and their validators and reply handling as functions.

Four behaviours of the code that the model keeps as written:
- **Search text.** The debounce callback reads the search field when the timer fires, not when it is armed. The model fires with the field's text at that moment. Every keystroke re-arms the timer, so that text is always the text of the last keystroke.
- **Catalog fetch failure.** `performAPICall` keeps the previous catalog and displayed subset; it does not clear them.
- **`addToCart` result.** On success `addToCart` resolves to the server's raw cart records and stores the reconciled line items through `setItems`. It does not return the line items.
- **Search failures.** A search that fails with 500 or any other status keeps the displayed subset. Only 404 empties it.

## Model

| member | source | states |
|---|---|---|
| Forms.FirstFailingIndex | src/components/Register.js:103-130 | the position of the first failing check: every earlier check holds, and the one at that position fails unless the position is past the end |
| Forms.FirstFailure | src/components/Register.js:100-133 | an early-return chain passes iff every check holds; otherwise it reports the message of a failing check whose predecessors all hold |
| CartRules.FindInCart | src/components/Products.js:241 | `find` as a position: no item before it is for the product with positive quantity, and the item at it is |
| CartRules.IsItemInCart | src/components/Products.js:240-242 | true iff some item has the product id and a quantity above 0; an entry with quantity 0 does not count |
| CartRules.FetchCartEffect | src/components/Products.js:207-227 | without a token (absent or empty) no request, no notice, resolves to undefined; with one, exactly one GET /cart with that token; success yields the records; failure shows the server message for 400, the generic cart text otherwise, and yields null; never stores line items |
| CartRules.AddToCartEffect | src/components/Products.js:245-288 | ordered gates: no token gives the login notice, then duplicate-prevention with the item in the cart gives the warning, neither sends anything; a POST is sent iff both gates pass and carries the caller's id and qty unchanged; line items are replaced iff that POST succeeds, by generateCartItemsFrom(reply, products), and the raw records are returned; a failed POST returns null with one error (server message for 400, generic text otherwise) |
| CartRules.DuplicateIsRefused | src/components/Products.js:260-263 | with a token and a line item for the product with quantity at least 1, adding with preventDuplicate sends nothing, stores nothing and warns |
| CartRules.QuantityUpdateIsForwarded | src/components/Products.js:264-269 | without preventDuplicate the client posts the requested quantity as given, even for a product already in the cart, and never adds it to the quantity it holds |
| Debounce.Keystroke | src/components/Products.js:155-166 | a keystroke keeps the single-timer invariant, leaves the clock alone, puts the typed text in the field, clears the timer the handle names and arms a fresh id due 500 ms later, which becomes the handle; no other timer is added |
| Debounce.Elapse | src/components/Products.js:161-163 | time passing keeps the invariant, the handle and the field text; it issues a search iff the held timer is armed and its deadline is reached, that search is for the field's text at that moment, and the fired timer is removed; otherwise the timer table is unchanged |
| Debounce.Step | src/components/Products.js:155-166 | one keystroke or pause keeps the single-timer invariant, issues at most one search, a keystroke issues none and sets the field text, a pause advances the clock and searches, if at all, for the field's current text |
| Debounce.AtMostOneArmed | src/components/Products.js:157-165 | under the invariant at most one timer is armed |
| Debounce.KeystrokeReplacesPending | src/components/Products.js:157-165 | a keystroke cancels the pending timer and leaves exactly one timer, with a fresh id, due 500 ms later, for the typed text |
| Debounce.BurstLeavesOnePending | src/components/Products.js:155-166 | keystrokes less than 500 ms apart issue no search, and leave one timer pending for the last text |
| Debounce.BurstIssuesOneSearch | src/components/Products.js:155-166 | a burst of keystrokes less than 500 ms apart followed by a pause issues exactly one search, for the last text, iff the pause reaches 500 ms, and none otherwise |
| Debounce.PauseSeparatesSearches | src/components/Products.js:161-163 | a pause of at least 500 ms after a keystroke fires its search before the next keystroke |
| Products.LoadCatalogEffect | src/components/Products.js:94-105 | a reply yields the catalog list and no notice; any failure yields no list and the one generic products error |
| Products.SearchEffectOf | src/components/Products.js:121-141 | a successful reply sets the subset to the results and returns them; 404 empties it silently; 500 shows the server message, another status the generic text, both keep the subset; no response changes nothing |
| Products.ProductsPage.constructor | src/components/Products.js:47-51 | initial state: loading, empty catalog, subset and items, no timer handle |
| Products.ProductsPage.PerformAPICall | src/components/Products.js:94-105 | one GET /products; catalog and subset both become the reply's list on success and are both kept on failure; loading is false afterwards |
| Products.ProductsPage.PerformSearch | src/components/Products.js:121-141 | one search request for the text; the subset, notices and result follow SearchEffectOf; the catalog and the cart are outside its frame |
| Products.ProductsPage.DebounceSearch | src/components/Products.js:155-166 | the field takes the text, the held timer is cleared and exactly one new timer is armed 500 ms out; the single-timer invariant is kept |
| Products.ProductsPage.Tick | src/components/Products.js:161-163 | the clock advances; if the pending timer comes due, exactly one search runs for the field's text at that moment; otherwise nothing else changes |
| Products.ProductsPage.FetchCart | src/components/Products.js:207-227 | requests, notices and result follow FetchCartEffect; no component state changes |
| Products.ProductsPage.AddToCart | src/components/Products.js:245-288 | items, notices, requests and result follow AddToCartEffect; catalog, subset and loading flag are outside its frame |
| Products.ProductsPage.HandleAddToCart | src/components/Products.js:352 | the card button calls addToCart with the page token, current items, the full catalog (not the displayed subset), quantity 1 and duplicate prevention on |
| Register.SetField | src/components/Register.js:23-29 | the named field takes the value and the other two fields are unchanged |
| Register.ValidateInput | src/components/Register.js:100-133 | passes iff username and password have at least 6 characters and the confirmation matches; an empty username reports "required"; a mismatch is reported iff both fields are otherwise valid |
| Register.ValidateInputIsFirstFailure | src/components/Register.js:103-130 | the early returns equal the first-failure reading of the ordered checks |
| Register.HandleRegisterEffect | src/components/Register.js:55-79 | a request is sent iff validation passes, carrying username and password only; exactly one notice: the validation warning, success (and navigation to /login iff the request succeeded), the server message for 400, or "An error occurred" |
| Register.RegisterPage.constructor | src/components/Register.js:15-21 | empty fields, not loading |
| Register.RegisterPage.HandleInputChange | src/components/Register.js:23-29 | formData becomes SetField of the old formData |
| Register.RegisterPage.HandleRegister | src/components/Register.js:55-79 | requests, notices and navigation follow HandleRegisterEffect; form data untouched; loading false afterwards |
| Login.SetField | src/components/Login.js:23-26 | the named field takes the value and the other is unchanged |
| Login.ValidateInput | src/components/Login.js:94-110 | passes iff both fields are non-empty; the username is checked first, so both empty reports only the username warning |
| Login.ValidateInputIsFirstFailure | src/components/Login.js:97-105 | the early returns equal the first-failure reading of the ordered checks |
| Login.Persist | src/components/Login.js:129-133 | the keys token, username and balance hold the given values, no other key is added and every other key keeps its value |
| Login.LoginEffectOf | src/components/Login.js:54-76 | a session is stored iff the reply is a 201, and then navigation to / and the success notice; another success status gives the "something went wrong" error; a rejection gives the server message for 400 and "An error occurred" otherwise |
| Login.LoginPage.constructor | src/components/Login.js:15-21 | empty fields, not loading, no errors |
| Login.LoginPage.HandleInputChange | src/components/Login.js:23-26 | formData becomes SetField of the old formData |
| Login.LoginPage.PersistLogin | src/components/Login.js:129-133 | storage becomes Persist of the old storage |
| Login.LoginPage.Login | src/components/Login.js:54-76 | one request carrying the form data; storage, notices and navigation follow LoginEffectOf; loading false afterwards |
| Login.LoginPage.HandleSubmit | src/components/Login.js:135-139 | login runs iff validation passes (then errors become empty); otherwise exactly the validation warning is shown and nothing else changes |

## Left out

- Rendering: the JSX, the MUI components, the page layout (`src/components/Products.js:290-371`), `Header.js` and `ProductCard.js`. All of it is presentation.
- The body of `generateCartItemsFrom`: `Cart.js` is not part of this model. It is a parameter, so nothing is claimed about joins, ordering or dropped ids. If it threw inside `addToCart`, the `catch` block would show the generic cart error; the model treats it as total.
- `onLoadHandler` (`src/components/Products.js:168-177`): it awaits the catalog, then the cart, then reconciles. On failure it passes `undefined`/`null` into the unseen `generateCartItemsFrom`, whose behaviour on those values is unknown.
- Asynchrony: each handler is one atomic step with its reply given up front. Not modelled:
  - out-of-order search replies;
  - overlapping `addToCart` calls;
  - the stale `debounceTimeout` captured by a render closure;
  - the window in which `loading` is true while a request is pending (`Register.RegisterPage.HandleRegister` and `Login.LoginPage.Login` only state that it is false afterwards).
- Timers: time is an abstract integer clock, and a due timer fires at the first clock advance that reaches its deadline. Browser timer ids are modelled as positive integers handed out in order.
- Line item shape: the line items `generateCartItemsFrom` returns are assumed to carry `productId` (a string) and `qty` (an integer), the two fields `isItemInCart` reads (`src/components/Products.js:241`). The `CartItem` typedef of `src/components/Products.js:32-42` names the id `_id`; the model follows the field the code reads.
- Search query encoding: `performSearch` puts the text into the URL without encoding (`src/components/Products.js:123`). The model records the typed text in `SearchProducts`, so a text containing `&`, `#`, `+` or `%` reaches the server altered in the program but not in the model.
- Numbers: costs, ratings and quantities are integers. Fractional JSON numbers are not modelled.
- Field lengths: `length` counts UTF-16 code units in JavaScript, but the model counts characters of a Dafny string.
- Login balance: the balance arrives as a JSON number and `localStorage.setItem` stores its text. The model carries that text directly and does not model number-to-string conversion.
- Field names: an input `name` outside the form's fields would add a new key to `formData`. The forms only render the named fields, so the model allows only those names.
- Missing form properties: `validateInput` reads the fields of `formData`. Missing properties (`undefined`) are not modelled, because the form always initialises all fields to `""`.
