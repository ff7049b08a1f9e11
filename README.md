# Perfume shop: cart and order controller

A model of the state controller inside the storefront's `App` component. The
component holds a product catalog, a cart of lines keyed by product id, each
with a quantity, an order history, the selected product and the current view.
Its handlers add to the cart (merging by id), remove from it, change a line's
quantity (refusing values below 1), place an order and navigate. The cart
count on the header button and the two featured products on the home view
are derived from that state.

The project has three modules:

- `ShopCart` (`cart.dfy`) holds the values and the pure computations: `Product`,
  `Item` (a cart line: the product's fields plus `qty`), `Order`, `View`, and the
  functions that compute the new cart for each handler (`AddToCart`,
  `RemoveFromCart`, `UpdateQty`, beside `Bump` and `SetQty` for the two `map`
  calls), plus `FindProduct` (the `find` over the catalog), `Total` and
  `CartCount` (the two `reduce` calls, as left folds) and `Featured` (the
  `slice`). `WellFormed` is the cart invariant: at most one line per id and
  every quantity at least 1. `QtyOf` (the units an id holds over all lines)
  and `AddAll` (a run of adds) are used only to state properties.
- `ShopCartProperties` (`cart_properties.dfy`) holds the lemmas. They give the
  effect of each handler on the cart, show that the invariant is kept, and
  relate the count and the total to the handlers.
- `Storefront` (`store.dfy`) holds the class `Store`, whose fields are the
  component's state slots and whose methods are the handlers. The ghost field
  `persisted` stands for the cart that `saveCart` hands to browser storage.
  `Valid()` says that this copy equals the cart slot and that the cart is well
  formed. Every handler requires and keeps `Valid()`. `AddToCart`,
  `RemoveFromCart` and an accepted `UpdateQty` store the cart that the matching
  `ShopCart` function computes. `UpdateQty` with a quantity below 1 stores
  nothing. `PlaceOrder` stores the empty cart.
  `Session` drives a store through adds, a refused quantity update and two
  orders. The second order is empty and its total is 0.

Prices and quantities are unbounded naturals, and totals use integer
arithmetic.

Two facts about the code that shape the model:
- `fetchCart` (`frontend/src/App.jsx:36`) turns a missing or empty stored value
  into `[]`. Any other text that is not JSON makes `JSON.parse` throw. This
  loading step is not part of the model.
- The `map` calls at `frontend/src/App.jsx:50` and `frontend/src/App.jsx:64`
  change every line with the id. The model does the same. Under `WellFormed`
  that is at most one line. At `frontend/src/App.jsx:50` it is exactly one,
  because that `map` runs only when `existing` was found.

## Model

| member | source | states |
|---|---|---|
| ShopCart.FindProduct | frontend/src/App.jsx:45 | the result is None exactly when no product has the id; otherwise it is a catalog entry with that id, and no earlier entry has the id (the first match) |
| ShopCart.Bump | frontend/src/App.jsx:50 | same length; each line with the id has its quantity raised by one and every other line is kept as it was, in place |
| ShopCart.SetQty | frontend/src/App.jsx:64 | same length; each line with the id has exactly the given quantity and every other line is kept as it was, in place |
| ShopCart.RemoveFromCart | frontend/src/App.jsx:58 | the result is no longer than the cart, and a line is in it exactly when it is in the cart and has a different id |
| ShopCart.AddToCart | frontend/src/App.jsx:44-53 | the new cart equals the old one exactly when no product has the id; the effect of each branch is stated in AddUnknown, AddExisting and AddNew |
| ShopCart.UpdateQty | frontend/src/App.jsx:63-64 | same length; every line keeps its id, name and price; no line is given a quantity below 1 (a quantity is either kept or at least 1); exact effect in UpdateQtyEffect |
| ShopCart.Total | frontend/src/App.jsx:69 | every line's price times quantity is at most the total, and the total is 0 exactly when every line's amount is 0; additivity in TotalAppend |
| ShopCart.CartCount | frontend/src/App.jsx:98 | every line's quantity is at most the count, and the count is 0 exactly when every quantity is 0; additivity in CountAppend |
| ShopCart.Featured | frontend/src/App.jsx:89 | the first min(2, number of products) products, in catalog order |
| ShopCartProperties.AddUnknown | frontend/src/App.jsx:45-46 | when no product has the id, adding leaves the cart unchanged |
| ShopCartProperties.AddExisting | frontend/src/App.jsx:47-50 | when the id is in the cart, length and order are kept, each line keeps its id, name and price, and only lines with that id gain exactly one unit |
| ShopCartProperties.AddNew | frontend/src/App.jsx:51-52 | for a known product not in the cart, the old lines stay in front and one line is appended with the first matching product's id, name and price and quantity 1 |
| ShopCartProperties.AddPreservesWellFormed | frontend/src/App.jsx:44-55 | adding keeps one line per id and every quantity at least 1 |
| ShopCartProperties.AddContains | frontend/src/App.jsx:44-55 | after adding, an id is present exactly when it was present before or it is the added id and that id names a product |
| ShopCartProperties.BumpQtyOf | frontend/src/App.jsx:50 | in a well-formed cart holding the id, the merge adds exactly one unit to that id and none to any other |
| ShopCartProperties.AddQtyOf | frontend/src/App.jsx:44-55 | in a well-formed cart, adding gives the id one more unit if it names a product, and leaves every other id's units unchanged |
| ShopCartProperties.AddAllQtyOf | frontend/src/App.jsx:44-55 | a run of adds on a well-formed cart keeps it well formed and adds to each known id as many units as times it was added |
| ShopCartProperties.AddAllFromEmpty | frontend/src/App.jsx:44-55 | from an empty cart, a run of adds gives one line per distinct known id that was added, holding as many units as adds of that id; unknown ids are absent |
| ShopCartProperties.RemoveGone | frontend/src/App.jsx:57-59 | after removing, no line has the id |
| ShopCartProperties.RemoveAppend | frontend/src/App.jsx:58 | removal distributes over concatenation, so the kept lines keep their relative order |
| ShopCartProperties.RemoveAbsent | frontend/src/App.jsx:58 | removing an id that no line has leaves the cart unchanged |
| ShopCartProperties.RemoveIdempotent | frontend/src/App.jsx:57-59 | a second identical removal changes nothing |
| ShopCartProperties.RemovePreservesWellFormed | frontend/src/App.jsx:57-59 | removing keeps one line per id and every quantity at least 1 |
| ShopCartProperties.UpdateQtyEffect | frontend/src/App.jsx:62-65 | a quantity below 1 leaves the cart unchanged; otherwise length, order, ids, names and prices are kept and lines with the id get exactly that quantity; an absent id leaves the cart unchanged |
| ShopCartProperties.UpdatePreservesWellFormed | frontend/src/App.jsx:62-65 | updating keeps one line per id and every quantity at least 1 |
| ShopCartProperties.UpdateQtyOf | frontend/src/App.jsx:62-65 | in a well-formed cart, an accepted update gives a present id exactly the new quantity in units and leaves every other id's units unchanged |
| ShopCartProperties.CountAppend | frontend/src/App.jsx:98 | the cart count of a concatenation is the sum of the two counts |
| ShopCartProperties.TotalAppend | frontend/src/App.jsx:69 | the order total of a concatenation is the sum of the two totals |
| ShopCartProperties.CountSplit | frontend/src/App.jsx:98 | the cart count equals the units of any one id plus the count of the cart with that id removed |
| ShopCartProperties.AddCount | frontend/src/App.jsx:44-55 | in a well-formed cart, adding a known product raises the cart count by exactly one |
| ShopCartProperties.RemoveCount | frontend/src/App.jsx:57-59 | removing an id lowers the cart count by exactly the units that id held |
| ShopCartProperties.BumpTotal | frontend/src/App.jsx:50 | in a well-formed cart, merging one more unit into a line raises the total by that line's price |
| ShopCartProperties.AddTotal | frontend/src/App.jsx:44-55 | in a well-formed cart, adding a known product raises the total by the price of its existing line, or by the product's price when it starts a new line |
| Storefront.Store.constructor | frontend/src/App.jsx:15-20 | the initial slots: the given catalog, an empty cart, nothing selected, the home view, no orders; the invariant holds |
| Storefront.Store.SaveCart | frontend/src/App.jsx:39-42 | the cart slot and storage both hold the new cart; no other slot changes |
| Storefront.Store.AddToCart | frontend/src/App.jsx:44-55 | the invariant is kept, the cart becomes the merged cart, the count rises by one exactly when the id names a product, and no other slot changes |
| Storefront.Store.RemoveFromCart | frontend/src/App.jsx:57-60 | the invariant is kept, the id is gone from the cart, the count falls by its units, and no other slot changes |
| Storefront.Store.UpdateQty | frontend/src/App.jsx:62-66 | the invariant is kept; a quantity below 1 stores nothing; otherwise the cart becomes the updated cart; no other slot changes |
| Storefront.Store.PlaceOrder | frontend/src/App.jsx:68-73 | exactly one order is appended, holding the old cart and its price-times-quantity total (0 for an empty cart); the cart and storage are emptied and the view is the order history |
| Storefront.Store.ShowDetails | frontend/src/App.jsx:83-86 | the selection is the first product with the id, or none, and the view is always the details view; cart, catalog and orders are unchanged; the invariant is kept |
| Storefront.Store.GoHome | frontend/src/App.jsx:76 | the view is home; nothing else changes; the invariant is kept |
| Storefront.Store.GoCatalog | frontend/src/App.jsx:77 | the view is the catalog; nothing else changes; the invariant is kept |
| Storefront.Store.GoCart | frontend/src/App.jsx:78 | the view is the cart; nothing else changes; the invariant is kept |
| Storefront.Store.GoCheckout | frontend/src/App.jsx:79 | the view is checkout; nothing else changes; the invariant is kept |
| Storefront.Store.GoOrders | frontend/src/App.jsx:80 | the view is the order history; nothing else changes; the invariant is kept |
| Storefront.SessionCarts | frontend/src/App.jsx:44-73 | with Rose (id 1, price 10) and Musk (id 2, price 20): add 1 gives one Rose, a second add 1 gives two, add 2 appends one Musk, and that cart totals 40 |

## Left out

- `fetchProducts` (frontend/src/App.jsx:27-32) and the `loading` flag: this is an HTTP request. The catalog is a constructor parameter instead.
- `fetchCart` (frontend/src/App.jsx:34-37) and the JSON and browser-storage calls in `saveCart` (frontend/src/App.jsx:41): these are foreign calls. Saving is modelled as the assignment to the cart slot, mirrored into the ghost `persisted`. The model starts from the empty cart of frontend/src/App.jsx:16. A stored cart read back at startup is not checked against the invariant. `saveCart` assigns the cart slot (frontend/src/App.jsx:40) before it writes storage (frontend/src/App.jsx:41). The model assumes that write succeeds. If `localStorage.setItem` throws (storage full or disabled), the slot holds the new cart and storage the old one, so `persisted == cart` in `Valid()` no longer describes the browser.
- The `useEffect` start-up hook and React's batching of state updates: each handler takes effect at once. In the component a handler reads the state of the last render. The model does not capture two handlers running in one event against stale state.
- The JSX rendering and the presentation components (frontend/src/App.jsx:91-112): this is UI, and those components' sources are not part of this model. The cart count and `featured` are modelled as the functions `CartCount` and `Featured` of the state.
- JavaScript number semantics: prices and quantities are natural numbers, and `updateQty` takes an integer. Fractional prices, floating-point totals, and a non-numeric or NaN quantity (which `qty < 1` would let through) are not modelled.
- Product fields other than id, name and price, such as the image: they are display-only and copied into cart lines without being read.
