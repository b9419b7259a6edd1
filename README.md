# Pizza storefront: session and cart state, in Dafny

This project models the stateful logic of a React Native pizza storefront. The
app has a catalog, an order screen, a cart and Google sign-in. Rendering and
HTTP glue are left out. Four parts are modelled:

- **Session provider** (`app/src/AuthContext.tsx`, module `Auth`). The
  provider holds the signed-in `user`, the `isLoading` flag and the copy of
  the user kept in device storage under the key `'user'`. `Auth.AuthProvider`
  is a class with these fields. The storage slot is a separate `Auth.Storage`
  object, so it outlives a provider: a restarted app is a new provider over
  the same slot. The identity provider's prompt result, the decoded token
  claims, and each storage and backend call's outcome are method parameters.
- **Cart screen** (`components/CartScreen.tsx`, module `Cart`). Class
  `Cart.CartScreen` has the component's four state fields: `cartItems`,
  `modalVisible`, `removeQuantity` (the removal draft) and `selectedItem`.
  The updater applied after a confirmed removal is the pure function
  `Cart.ApplyRemoval`, written as the source writes it: a `map` (`MapDecrement`)
  followed by `filter(Boolean)` (`Compact`). The cart total is the
  left-to-right `reduce` (`Reduce`). It is proved equal to `Sum`, and
  `SumIgnoresOrder` shows that `Sum` does not depend on line order.
- **Catalog screen** (`components/HomeScreen.tsx`, module `Home`). Class
  `Home.HomeScreen` holds the pizzas, the loading flag and the per-id
  quantity map. The `reduce` that builds the initial map is a loop
  (`Home.InitialQuantities`).
- **Order screen** (`components/OrderNowScreen.tsx`, module `Order`). Class
  `Order.OrderNowScreen` has a quantity counter that never goes below one.
  It also normalises the price string (`replace('$', '')`, then `trim()`)
  and builds the add-to-cart request body.

Module `Common` holds the shared types: `Option`, `HttpOutcome` (ok with
data, not ok, or threw), `Completion` (returned or raised) and `IoOutcome`.
It also holds the counter step `Math.max(prev + change, 1)`, which the
catalog and the order screen both use.

Each event handler is one atomic step. Prices are integers in cents.

Where the code and the intended design differ, the model follows the code:

- The removal draft is clamped to `[0, quantity]`, so a draft of 0 is
  possible. Committing it sends `quantity=0` and keeps the line
  (`Cart.ZeroRemovalKeepsCart`); the line is not removed.
- `completeSignIn` writes storage outside its `try`. A failing write ends
  the call with an error after the user has already been set, and the
  registration is never sent.
- A stored value that is missing or does not parse leaves `user` as it was.
  The user is not set to "nobody".
- The decoded token's claims are not validated before they are used.

## Model

| member | source | states |
|---|---|---|
| `Cart.ApplyRemoval` | components/CartScreen.tsx:54-62 | A confirmed removal never makes the list longer. |
| `Cart.RemovalDropsEmptiedLines` | components/CartScreen.tsx:57-58 | After a removal, no kept line with the removed id has quantity ≤ 0. |
| `Cart.Decrement` | components/CartScreen.tsx:56-59 | The `map` callback returns a line with another id unchanged. For the removed id it returns that line with quantity `q - amount` exactly when `q - amount > 0`, and `null` otherwise. |
| `Cart.MapDecrement` | components/CartScreen.tsx:55-60 | The `map` pass keeps the length and sends each line through the decrement-or-null callback. |
| `Cart.Compact` | components/CartScreen.tsx:61 | `filter(Boolean)` never grows the list. |
| `Cart.CompactKeepsPresent` | components/CartScreen.tsx:61 | A line is in the result of `filter(Boolean)` exactly when it is a non-null entry of the input. |
| `Cart.RemovalAt` | components/CartScreen.tsx:54-61 | With distinct ids, removing `k` units from the line at index `i` gives the old list with that line at `q - k` when `q - k > 0`. Otherwise that line is gone. All other lines are unchanged and keep their order. |
| `Cart.RemovalKeepsOtherLines` | components/CartScreen.tsx:55-61 | For any cart, the lines with other ids are exactly the same lines in the same order after the removal. |
| `Cart.RemovalOfAbsentId` | components/CartScreen.tsx:55-61 | A removal for an id no line carries leaves the list as it was. |
| `Cart.ZeroRemovalKeepsCart` | components/CartScreen.tsx:57-58 | Committing a draft of 0 leaves a cart of positive quantities exactly as it was. |
| `Cart.RemovalAtKeepsIdsUnique` | components/CartScreen.tsx:54-62 | Removing units from the line at a given index keeps the line ids distinct, whether the line stays or is dropped. |
| `Cart.RemovalKeepsIdsUnique` | components/CartScreen.tsx:54-62 | A removal keeps the line ids distinct. |
| `Cart.ClampDraft` | components/CartScreen.tsx:98-104 | The new draft is `max(0, min(prev + change, q))`, where `q` is the selected line's quantity, or 0 when no line is selected. It is exactly `prev + change` when that is in `[0, q]`, `q` when it is above, and 0 when it is below 0 or when `q` is negative. |
| `Cart.DraftStaysInRange` | components/CartScreen.tsx:98-104 | A draft that starts within `[0, quantity]` stays there after any sequence of "-" and "+" presses. |
| `Cart.Reduce` | components/CartScreen.tsx:85 | The left fold from any starting value equals that value plus the sum of price × quantity. |
| `Cart.CalculateTotalPrice` | components/CartScreen.tsx:84-86 | The total equals the sum of price × quantity over the lines, and is 0 for an empty cart. |
| `Cart.SumIgnoresOrder` | components/CartScreen.tsx:85 | Two line lists that are permutations of each other have the same sum of price × quantity. |
| `Cart.TotalIgnoresOrder` | components/CartScreen.tsx:84-86 | Two carts holding the same lines (as multisets) have the same total, whatever the order. |
| `Cart.PartialAndFullRemoval` | components/CartScreen.tsx:54-61 | Worked example: a line of three 9.00 pizzas minus two leaves one, with total 9.00. Minus three drops the line. |
| `Cart.CartScreen.constructor` | components/CartScreen.tsx:14-17 | Initial state: empty cart, dialog hidden, draft 1, nothing selected. |
| `Cart.CartScreen.TotalPrice` | components/CartScreen.tsx:84-86 | The displayed total is the sum of price × quantity over the current lines. |
| `Cart.CartScreen.FetchCartItems` | components/CartScreen.tsx:24-38 | With no email or an empty one, nothing changes. An ok response replaces the cart wholesale. A non-ok or throwing call leaves it unchanged. No other field changes. |
| `Cart.CartScreen.OpenRemoveModal` | components/CartScreen.tsx:77-81 | Selects the line, seeds the draft with its quantity and shows the dialog. For a line of non-negative quantity, the draft is then in range. |
| `Cart.CartScreen.HandleQuantityChange` | components/CartScreen.tsx:98-104 | The draft becomes the clamped value and, for a selected line of non-negative quantity, stays in range. Nothing else changes. |
| `Cart.CartScreen.Cancel` | components/CartScreen.tsx:143 | Hides the dialog. Nothing else changes. |
| `Cart.CartScreen.HandleRemoveItem` | components/CartScreen.tsx:44-74 | With no selection, nothing is sent and nothing changes. Otherwise the request carries the selected id, the email and the draft. Only an ok response applies `ApplyRemoval`. Whatever the outcome, the dialog closes and the draft resets to 1. |
| `Auth.Parse` | app/src/AuthContext.tsx:56-58 | Parsing the stored value gives a user exactly when the value is a serialised user. |
| `Auth.Serialize` | app/src/AuthContext.tsx:80 | `JSON.stringify` of a user: parsing what `completeSignIn` wrote gives back the same user. |
| `Auth.UseAuth` | app/src/AuthContext.tsx:116-122 | Outside a provider it raises. Inside one it returns the context. |
| `Auth.AuthProvider.constructor` | app/src/AuthContext.tsx:30-31 | A new provider has no user and `isLoading` set, so the session is unresolved. |
| `Auth.AuthProvider.LoadStoredUser` | app/src/AuthContext.tsx:54-65 | A stored value that parses becomes the user. An absent or unparsable value, or a failing read, leaves the user unchanged. `isLoading` is false afterwards in every case. |
| `Auth.AuthProvider.SignIn` | app/src/AuthContext.tsx:67-75 | Returns true exactly when the prompt reports `'success'`, and raises when the prompt throws. `isLoading` is false afterwards, and the user is unchanged. |
| `Auth.AuthProvider.CompleteSignIn` | app/src/AuthContext.tsx:77-101 | The user becomes `{username, email, profilePicture}`. A successful write stores that same user and posts it for registration, and the registration's outcome changes neither user nor storage. A failing write raises, leaves storage unchanged and posts nothing. |
| `Auth.AuthProvider.OnResponse` | app/src/AuthContext.tsx:43-52 | A `'success'` response whose token decodes signs in with the token's `name`, `email` and `picture` and completes normally, even when the storage write fails, because `completeSignIn` is not awaited. Any other response changes nothing. A token that fails to decode raises and changes nothing. |
| `Auth.AuthProvider.SignOut` | app/src/AuthContext.tsx:104-107 | The user is cleared. A successful removal empties the storage slot; a failing one raises and leaves the slot unchanged. |
| `Auth.RestoreAfterRestart` | app/src/AuthContext.tsx:54-80 | After `completeSignIn`, a restarted app's `loadStoredUser` restores a user equal to the one signed in. |
| `Auth.SignedOutAfterRestart` | app/src/AuthContext.tsx:104-107 | After `signOut`, a restarted app's `loadStoredUser` leaves nobody signed in. |
| `Home.InitialQuantities` | components/HomeScreen.tsx:21-24 | The initial map has exactly the fetched ids as keys, each mapped to 1. |
| `Home.BumpQuantity` | components/HomeScreen.tsx:37-42 | The touched id becomes `max(prev + change, 1)`: it is ≥ 1 and ≥ `prev + change`, and equal to one of them. Every other key keeps its value, and no key is added or removed. |
| `Home.ShownQuantity` | components/HomeScreen.tsx:52-58 | A missing or zero quantity reads as 1. Any other stored quantity is shown as it is, so the shown quantity is ≥ 1 whenever all stored quantities are. |
| `Home.OrderParams` | components/HomeScreen.tsx:58 | The order screen gets the pizza's name, its price string and the shown quantity. |
| `Home.HomeScreen.constructor` | components/HomeScreen.tsx:10-12 | Initial state: no pizzas, loading, empty quantity map. |
| `Home.HomeScreen.FetchPizzas` | components/HomeScreen.tsx:15-31 | An ok response replaces the pizzas and maps every fetched id to 1. A failure leaves pizzas and quantities unchanged. `loading` is false afterwards in every case. |
| `Home.HomeScreen.HandleQuantityChange` | components/HomeScreen.tsx:37-42 | Applies `BumpQuantity` to the touched id and keeps "every quantity ≥ 1". Nothing else changes. |
| `Common.AtLeastOne` | components/OrderNowScreen.tsx:49 | `Math.max(prev + change, 1)` is ≥ 1 and ≥ `prev + change`, and equals one of the two. |
| `Common.CounterNeverBelowOne` | components/OrderNowScreen.tsx:48-50 | A counter starting at ≥ 1 stays ≥ 1 under any sequence of presses. From 1, a single "-" stays at 1. |
| `Order.ReplaceFirst` | components/OrderNowScreen.tsx:16 | `replace('$', '')` returns the string unchanged when it has no `'$'`, and one character shorter otherwise. |
| `Order.ReplaceFirstRemovesFirst` | components/OrderNowScreen.tsx:16 | When there is a `'$'`, the result is the text before the first `'$'` followed by the text after it. |
| `Order.ReplaceFirstCount` | components/OrderNowScreen.tsx:16 | Removing the first `'$'` lowers the count of `'$'` by one when there was one. |
| `Order.Trim` | components/OrderNowScreen.tsx:16 | `trim()` returns a contiguous middle slice whose ends are not white space. Everything cut off is white space. |
| `Order.TrimIdempotent` | components/OrderNowScreen.tsx:16 | Trimming a trimmed string changes nothing. |
| `Order.TrimKeepsCount` | components/OrderNowScreen.tsx:16 | Trimming keeps every character that is not white space, so `'$'` counts are unchanged. |
| `Order.NormalizeRemovesOneDollar` | components/OrderNowScreen.tsx:16 | The normalised price has one `'$'` fewer than the input when the input has one, and the same count otherwise. |
| `Order.NormalizePrice` | components/OrderNowScreen.tsx:16 | A price with a `'$'` gets strictly shorter. A price without one is only trimmed. |
| `Order.NormalizeExample` | components/OrderNowScreen.tsx:16 | Worked example: `"$9.99"` normalises to `"9.99"`. |
| `Order.OrderTotalStep` | components/OrderNowScreen.tsx:17 | "+" raises the total by one unit price. "-" lowers it by one unit price, except at quantity 1, where the total stays. |
| `Order.OrderNowScreen.constructor` | components/OrderNowScreen.tsx:13-16 | The quantity starts at the route's `quantity`. The price value is `parseFloat` of the normalised price string. |
| `Order.OrderNowScreen.TotalPrice` | components/OrderNowScreen.tsx:17 | The displayed total is the unit price times the current quantity. |
| `Order.OrderNowScreen.HandleQuantityChange` | components/OrderNowScreen.tsx:48-50 | The quantity becomes `max(prev + change, 1)` and is never below 1. |
| `Order.OrderNowScreen.HandleAddToCart` | components/OrderNowScreen.tsx:19-25 | The request body carries exactly the pizza name, the parsed price, the current quantity and the user's email (absent when nobody is signed in). |

## Left out

- Rendering, `StyleSheet`, `Alert` messages, `Modal` and `FlatList` are UI only. Which alert a handler shows is not modelled.
- `app/index.tsx`, `components/Header.tsx`, `components/PizzaItem.tsx` and `components/SignInScreen.tsx` are not part of this model: they are navigation, display and glue. `app/index.tsx` is used only for the `OrderNow` route parameter type.
- `fetch`, HTTP and URLs are not modelled. Each call's outcome (ok with data, not ok, threw) is a parameter. The remove request, the add-to-cart body and the registered user are returned, so their contents can be stated.
- `AsyncStorage` is one optional slot. Google OAuth, `WebBrowser` and `jwtDecode` are foreign libraries: the prompt result type and the decoded claims are parameters.
- Auth.Parse: a stored text that is valid JSON but not a user (for example `"null"`) is not modelled. The slot holds either a serialised user or unparsable text. An empty stored string is falsy and is skipped, which leaves the user unchanged just like unparsable text.
- Auth.AuthProvider.OnResponse: claims missing from the token (undefined in JavaScript) are not modelled. The claims are always strings.
- Order.OrderNowScreen.constructor: `parseFloat` is floating point. It is passed in as a function from the normalised string to cents. `toFixed(2)` rounding and `Number(...)` are not modelled, and prices are integers in cents.
- Home.HomeScreen.HandleQuantityChange: requires the touched id to have a quantity. For a missing key, JavaScript computes `NaN` (`undefined + change`), and that is not modelled.
- Async interleaving is not modelled: a refresh racing a removal, results arriving after unmount, or React batching `useState` updates. Each handler is one atomic step, and a state updater sees the state at the start of its handler.
- Pizza ids are strings. JavaScript's conversion of numeric ids to object keys is not modelled.
