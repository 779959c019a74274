# Wings admin UI: the screen controllers in Dafny

Wings is a small React administration front end for a product and user catalog backed by a
remote REST API. Its only logic is in four components. The Dafny model covers that logic:

- the product screen (`ProductManagement`): a cache of products, a form draft, an optional edit
  target and an error. Its handlers create or update, sell, delete and refetch products;
- the user screen (`UserManagement`): the same shape for users;
- the authentication screen (`SignupAndLogin`): a two-mode login/signup form;
- the dashboard slideshow (`Dashboard`): an index into five images, moved modulo five.

Each screen is a class whose fields are the component's `useState` slots. The network is
abstract: a handler returns the one `Request` it sends (`Get`, `Post`, `Put`, `Delete` or
`NoRequest`, with path and JSON body) and receives the outcome of that request as a
parameter. When a handler triggers a refetch (`fetchProducts()` / `fetchUsers()`, which the
source calls without awaiting), it returns `refetch == true`. The refetch itself is a later,
separate call of `FetchProducts` / `FetchUsers` with the server's list, or `None` for a failed
request. The first `FetchProducts` / `FetchUsers` call after a screen's constructor stands for
the fetch the screen starts when it mounts (its `useEffect` with an empty dependency list).
Paths are relative to the fixed API origin.

Quantities are `Blank` (the empty form input `''`) or `Units(n)`. JavaScript's `'' > 0` is
false, so `InStock` is false for `Blank`. Prices are opaque strings. Ids are strings,
because they are interpolated into URLs.

The product screen keeps one invariant (`ProductScreen.Valid`): the draft carries an id exactly
when a product is being edited, and then it is that product's id. `handleEditProduct` copies
the whole product into the draft, and only a successful submit clears both.

Modules: `Requests` (shared values), `ProductManagement`, `UserManagement`, `SignupAndLogin`
and `Dashboard`, one per component.

## Model

| member | source | states |
|---|---|---|
| `ProductManagement.ProductScreen.constructor` | frontend/src/components/ProductManagement.js:6-14 | the screen starts with an empty cache, the empty four-field draft, no edit target and no error, and the draft/target invariant holds |
| `ProductManagement.ProductStore.constructor` | frontend/src/App.js:36 | the application-level products list starts empty |
| `ProductManagement.ProductScreen.FetchProducts` | frontend/src/components/ProductManagement.js:17-33 | sends GET `/api/products`; on success both the screen cache and the application list become the server list and the error is kept; on failure both lists are unchanged and the error is `'Error fetching products'`; draft and edit target are never touched |
| `ProductManagement.WithField` | frontend/src/components/ProductManagement.js:36-38 | a field change gives the named field the new value and leaves the id and every other field unchanged |
| `ProductManagement.ProductScreen.HandleChange` | frontend/src/components/ProductManagement.js:36-38 | the draft becomes that one-field update, nothing else changes (frame), and the invariant is preserved |
| `ProductManagement.SubmitRequest` | frontend/src/components/ProductManagement.js:43-53 | submit is a PUT exactly when an edit target exists, to `/api/products/{target id}`, and a POST to `/api/products` otherwise; the body is the draft either way |
| `ProductManagement.SubmitAddressesDraft` | frontend/src/components/ProductManagement.js:43-53 | in a consistent state a PUT's URL names the id the draft carries, and a POST's draft has no id |
| `ProductManagement.ProductScreen.HandleAddProduct` | frontend/src/components/ProductManagement.js:40-68 | sends `SubmitRequest` of the old draft and target; success resets the draft to four empty fields, clears target and error and refetches; failure keeps draft and target and sets `'Error adding/updating product'`; the cache is untouched |
| `ProductManagement.DraftOf` | frontend/src/components/ProductManagement.js:72 | the draft made from a product carries its id and every one of its fields |
| `ProductManagement.ProductScreen.HandleEditProduct` | frontend/src/components/ProductManagement.js:70-73 | the product becomes the edit target and the draft, and the invariant holds |
| `ProductManagement.ProductPathInjective` | frontend/src/components/ProductManagement.js:45 | distinct ids give distinct product URLs |
| `ProductManagement.Find` | frontend/src/components/ProductManagement.js:76 | `products.find` yields the entry at the first position holding the id, or nothing when no entry has that id |
| `ProductManagement.Sold` | frontend/src/components/ProductManagement.js:78-85 | the sell body is the product with the same id, the quantity lowered by exactly one, and every other field unchanged |
| `ProductManagement.SellRequest` | frontend/src/components/ProductManagement.js:75-98 | selling sends either one PUT or no request |
| `ProductManagement.SellInStock` | frontend/src/components/ProductManagement.js:76-86 | when the first cached entry with the id is in stock, the sell request is a PUT to `/api/products/{id}` whose body is that entry sold once |
| `ProductManagement.SellRefused` | frontend/src/components/ProductManagement.js:76-77 | when the id is not cached, or its first entry is not in stock, no request is sent |
| `ProductManagement.SellExample` | frontend/src/components/ProductManagement.js:75-86 | a cached product `1` with two units is sent back with one unit |
| `ProductManagement.ProductScreen.HandleSellProduct` | frontend/src/components/ProductManagement.js:75-99 | sends `SellRequest` on the current cache; no request means `'Product is out of stock'` and no refetch; a PUT refetches on success and sets `'Error selling product'` on failure; only the error can change |
| `ProductManagement.ProductScreen.HandleDeleteProduct` | frontend/src/components/ProductManagement.js:101-115 | sends DELETE `/api/products/{id}`; refetches exactly on success; failure sets `'Error deleting product'`; cache, draft and target are untouched |
| `UserManagement.UserScreen.constructor` | frontend/src/components/UserManagement.js:6-9 | the screen starts with no users, an empty username/password draft, no edit target and no error |
| `UserManagement.UserScreen.FetchUsers` | frontend/src/components/UserManagement.js:13-28 | sends GET `/api/users`; success replaces the list with the server list; failure keeps it and sets `'Error fetching users'` |
| `UserManagement.WithField` | frontend/src/components/UserManagement.js:30-32 | a field change gives the named field the new value and leaves the other one unchanged |
| `UserManagement.UserScreen.HandleInputChange` | frontend/src/components/UserManagement.js:30-32 | the draft becomes that one-field update and nothing else changes |
| `UserManagement.UserScreen.HandleAddUser` | frontend/src/components/UserManagement.js:34-54 | POSTs the draft to `/api/signup`; success resets the draft, refetches and keeps any earlier error; failure keeps the draft and sets `'Error adding user'` |
| `UserManagement.EditDraft` | frontend/src/components/UserManagement.js:58 | the edit draft holds the user's username and an empty password |
| `UserManagement.EditIgnoresPassword` | frontend/src/components/UserManagement.js:58 | the stored password never reaches the draft: users differing only in it give the same draft |
| `UserManagement.UserScreen.HandleEditUser` | frontend/src/components/UserManagement.js:56-59 | the user becomes the edit target and the draft is its edit draft |
| `UserManagement.UserPathInjective` | frontend/src/components/UserManagement.js:64 | distinct ids give distinct user URLs |
| `UserManagement.AddAndUpdateDiffer` | frontend/src/components/UserManagement.js:37-64 | creating and updating a user never use the same endpoint |
| `UserManagement.UserScreen.HandleUpdateUser` | frontend/src/components/UserManagement.js:61-82 | PUTs the draft to `/api/users/{target id}`; success clears the target, resets the draft, refetches and keeps any earlier error; failure, or a missing target (the `editingUser.id` access throws), sets `'Error updating user'` and leaves draft and target unchanged |
| `UserManagement.SubmitRequest` | frontend/src/components/UserManagement.js:113 | submission is a PUT exactly when an edit target exists, to `/api/users/{id}`, and a POST to `/api/signup` otherwise; the body is the draft |
| `UserManagement.UserScreen.HandleSubmit` | frontend/src/components/UserManagement.js:113 | the form dispatches to update with a target and to add without one: it sends `SubmitRequest`; success resets the draft and target and keeps the error; failure keeps both and sets the matching error |
| `UserManagement.UserScreen.HandleDeleteUser` | frontend/src/components/UserManagement.js:84-97 | sends DELETE `/api/users/{id}`; refetches exactly on success and keeps the error then; failure sets `'Error deleting user'` |
| `SignupAndLogin.AuthScreen.constructor` | frontend/src/components/SignupAndLogin.js:6-10 | the screen takes no arguments and always starts in login mode with an empty form and no error |
| `SignupAndLogin.AuthScreen.ToggleMode` | frontend/src/components/SignupAndLogin.js:66 | the toggle flips the mode and changes nothing else |
| `SignupAndLogin.ToggleTwice` | frontend/src/components/SignupAndLogin.js:66 | toggling twice restores the mode and the rest of the state |
| `SignupAndLogin.AuthScreen.SetUsername` | frontend/src/components/SignupAndLogin.js:51 | typing into the username input sets the username only |
| `SignupAndLogin.AuthScreen.SetPassword` | frontend/src/components/SignupAndLogin.js:58 | typing into the password input sets the password only |
| `SignupAndLogin.ModesDiffer` | frontend/src/components/SignupAndLogin.js:16-37 | the two modes differ in endpoint and in destination |
| `SignupAndLogin.ErrorText` | frontend/src/components/SignupAndLogin.js:39 | a failure message is `'Error: '` followed by the error's message, or by `'Unknown error'` when the message is empty; a non-ok response gives `'Error: Network response was not ok'` |
| `SignupAndLogin.AuthScreen.HandleSubmit` | frontend/src/components/SignupAndLogin.js:13-41 | POSTs `{username, password}` to `/api/login` in login mode and `/api/signup` in signup mode; success navigates to `/dashboard` or `/login` respectively; failure navigates nowhere and sets `ErrorText`; username, password and mode never change |
| `Dashboard.NextIndex` | frontend/src/components/Dashboard.js:37-39 | the next index is in bounds and is one more, wrapping from the last image to 0 |
| `Dashboard.PrevIndex` | frontend/src/components/Dashboard.js:41-43 | the previous index is in bounds and is one less, wrapping from 0 to the last image |
| `Dashboard.PrevUndoesNext` | frontend/src/components/Dashboard.js:38-42 | previous after next, and next after previous, give back the original index |
| `Dashboard.Step` | frontend/src/components/Dashboard.js:90-95 | a press of either slideshow button keeps the index in bounds |
| `Dashboard.Run` | frontend/src/components/Dashboard.js:34-43 | under any sequence of presses the index stays within the image list |
| `Dashboard.RunAppend` | frontend/src/components/Dashboard.js:34-43 | running two sequences of presses one after the other is running their concatenation |
| `Dashboard.UndoRestores` | frontend/src/components/Dashboard.js:38-42 | any sequence of presses is undone by the opposite presses in reverse order |
| `Dashboard.NextsAdvance` | frontend/src/components/Dashboard.js:38 | `k` presses of next move the index `k` places forward modulo the number of images |
| `Dashboard.FullCycle` | frontend/src/components/Dashboard.js:34-38 | five presses of next return to the starting index |
| `Dashboard.Slideshow.constructor` | frontend/src/components/Dashboard.js:35 | the index starts at 0 |
| `Dashboard.Slideshow.CurrentImage` | frontend/src/components/Dashboard.js:81 | the displayed image `images[currentIndex]` is an in-bounds element of the list |
| `Dashboard.Slideshow.NextImage` | frontend/src/components/Dashboard.js:37-39 | the index becomes `NextIndex` of the old one and stays in bounds |
| `Dashboard.Slideshow.PrevImage` | frontend/src/components/Dashboard.js:41-43 | the index becomes `PrevIndex` of the old one and stays in bounds |

## Left out

- HTTP, JSON and `fetch`: every call is an emitted `Request` value plus an outcome parameter. The `Content-Type` header and the hard-coded `localhost:5000` origin are not modelled.
- Asynchrony: the refetch that a handler starts without awaiting is a separate, later `FetchProducts` / `FetchUsers` call. Interleavings of several in-flight requests, such as two rapid sell clicks that both read the same stale quantity, are not modelled.
- JavaScript coercion of form values: the quantity input's text is modelled by its numeric value, or `Blank` for `''`. Prices are opaque strings.
- Extra server fields: the JSON objects the server returns may carry fields other than id, name, description, price and quantity. The spread copies them into the draft and the sell body. The model keeps only these five.
- `ProductManagement.WithField` and `ProductScreen.HandleChange` require the value's kind to match the input (a quantity for the `quantity` input, text for the others). `e.target.value` is always a string; the quantity value is its coerced numeric reading, as the coercion line above describes.
- `formatPrice` in Dashboard.js: it rests on floating-point parsing and formatting.
- The auto-slide timer (`setInterval` and its cleanup): each tick performs one `nextImage`, which `Nexts` and `NextsAdvance` cover. The timer itself is not modelled.
- `console.log` / `console.error` diagnostics, JSX rendering, styles and CSS.
- The `ProductBarChart` component, which is not part of this model.
- Routing and navigation plumbing in App.js and Navigation.js, the logout handlers and their `localStorage.removeItem`. The route table passes an `isLogin` prop that the authentication screen ignores; the constructor therefore always starts in login mode. In Dashboard.js the dashboard navigates to `/users`, a path that App.js does not route.
