# Storefront order fulfilment and cart, modelled in Dafny

This project models the two pieces of logic inside a demonstration storefront:

- **The mock service's in-memory store** (`services/mockApiService.ts`). It holds a
  product catalogue, an order ledger kept newest first, and one process-wide current-user
  slot. It offers login and logout, catalogue update and delete, order creation and an
  analytics read. This is the class `MockApiService.Store`. Order creation is a two-pass
  check-then-deduct. The first pass rejects with the first item, in input order, whose
  product is missing or short of stock. Only when every item passes does the second pass
  subtract the quantities. A `PAID` order is then put at the front of the ledger. The
  validation and deduction rules are stated as functions in module `Inventory`. The two
  loops of `createOrder` are the methods `CheckStock` and `DeductStock`, each proved against
  its function, and `Store.CreateOrder` runs them in turn.
- **The client cart** (`App.tsx`). A cart is a list of `(productId, quantity)` lines. It has
  the add, remove and clear updaters, and a reconciliation that joins the cart with a catalogue
  snapshot, drops lines whose product is gone and sums `price × quantity`. It also has the
  cart badge and the admin-route guard. These live in module `App` as old-cart to new-cart
  functions. Module `Checkout` holds the checkout handler. The handler offers checkout only
  when some line survived reconciliation. It sends the whole cart and the shown subtotal to
  the store. It empties the cart on success and leaves it unchanged on rejection.

Prices, stock, quantities and totals are integers. The order total is whatever the caller
passes; the store records it as given and never recomputes it.

Behaviours of the code worth knowing:

- **Duplicate cart lines can overdraw stock.** Validation checks each item on its own, so two
  lines for one product can each pass while their sum exceeds the stock.
  `Inventory.DuplicateIdsOverdraw` shows this for every product and quantity `q` with
  `q <= stock < 2q`. Stock is sure to stay non-negative when the item ids are pairwise distinct
  (`Inventory.NoOverdrawWhenDistinct`). The cart updaters always keep ids distinct
  (`App.ReplayKeepsCartValid`), so checkout from the app never overdraws
  (`Checkout.ReachableCartNeverOverdraws`, and the last clause of `Checkout.PressCheckout`).
- **The rejection names what the lookup found.** A missing product gives
  `InsufficientStock(None)`, which the source renders as "Insufficient stock for undefined"
  (`Inventory.Message`). The same error type covers a short stock and a missing product.
- **Lookups take the first match.** A lookup finds the first product with the id. Deduction
  therefore changes only that product, even if the catalogue repeats an id
  (`Inventory.FindProductFirstMatch`).
- **The owner falls back to "guest".** The order's owner is the current user's id. It is
  `"guest"` when no user is set, and also when the id is the empty string, since the source
  uses `||`.
- **Checkout sends the raw cart.** It sends the whole cart, not only the reconciled lines. A
  line whose product is missing from the drawer's snapshot still reaches the store, which
  validates it against its own catalogue. The total sent is the subtotal of the reconciled
  lines only.
- **Order ids are not unique.** Order ids come from the clock (`ORD-<ms>`), and nothing
  makes two orders placed in the same millisecond differ. The model takes them as a parameter
  and claims no uniqueness.
- **The navbar's logout does not log out of the store.** The navbar's logout
  (`App.tsx:98`) clears only the app's own user slot and never calls the service's
  `logout`. The store's current user therefore stays set, and later orders are still filed
  under that user.

The plain readers `getProducts`, `getOrders` and `getCurrentUser` are the functions
`Store.GetProducts`, `Store.GetOrders` and `Store.GetCurrentUser`. Reading twice with no
change in between gives the same answer, because they are functions of the state. The
contracts of `GetProducts` and `GetOrders` tie what they return to the analytics read;
that of `GetCurrentUser` ties an empty slot to the "guest" owner.

## Model

| member | source | states |
|---|---|---|
| `Inventory.FindIndex` | services/mockApiService.ts:44 | the found index holds the id and no earlier product does; none is found exactly when no product carries the id |
| `Inventory.FindProduct` | services/mockApiService.ts:44 | a found product is in the catalogue with the id; nothing is found exactly when no product has that id |
| `Inventory.FindProductFirstMatch` | services/mockApiService.ts:44 | when product k carries the id and no earlier product does, the lookup returns product k |
| `Inventory.Available` | services/mockApiService.ts:44-45 | an item whose id no product carries never passes; otherwise it passes exactly when the found product's stock is not below the quantity |
| `Inventory.AvailableMeansStocked` | services/mockApiService.ts:44-45 | a passing item names a catalogue product whose stock covers its quantity |
| `Inventory.StockErrorFor` | services/mockApiService.ts:45 | the error carries no name exactly when no product has the item's id, and otherwise the name of the product the lookup finds |
| `Inventory.Message` | services/mockApiService.ts:45 | the text is "Insufficient stock for " followed by the product's name, or by "undefined" when none was found |
| `Inventory.FirstUnavailable` | services/mockApiService.ts:43-46 | validation passes exactly when every item's product exists with stock not below its quantity; otherwise it reports the first failing item, and all earlier items pass |
| `Inventory.Validate` | services/mockApiService.ts:43-46 | validation reports nothing exactly when every item passes; a reported error is the one for an item that fails while every earlier item passes |
| `Inventory.DeductOne` | services/mockApiService.ts:50-51 | one deduction step keeps the catalogue's length and changes no field except stock |
| `Inventory.Deducted` | services/mockApiService.ts:49-52 | the deduction pass keeps the catalogue's length |
| `Inventory.DeductedStock` | services/mockApiService.ts:49-52 | after deduction, the first product with an id has lost exactly the summed quantity of the items naming it; every other product and every other field is unchanged |
| `Inventory.SumQuantityAbsent` | services/mockApiService.ts:49-52 | a product no item names loses nothing |
| `Inventory.SumQuantitySingle` | services/mockApiService.ts:49-52 | with distinct item ids, a product loses exactly the quantity of its single line |
| `Inventory.NoOverdrawWhenDistinct` | services/mockApiService.ts:43-52 | when item ids are pairwise distinct and validation passes, no stock becomes negative |
| `Inventory.DuplicateIdsOverdraw` | services/mockApiService.ts:43-52 | two lines of quantity q for a product with q <= stock < 2q both pass validation, and the deduction drives the stock negative |
| `Inventory.DeductedNeverIncreases` | services/mockApiService.ts:49-52 | with non-negative quantities, no product's stock rises |
| `MockApiService.EmailPrefix` | services/mockApiService.ts:15 | the display name is the longest prefix of the email without '@': it is followed by '@' or is the whole email |
| `MockApiService.EmailPrefixWithoutAt` | services/mockApiService.ts:15 | an email without '@' is its own display name |
| `MockApiService.NewUser` | services/mockApiService.ts:15 | the new user has the given id, email and role, and as name the longest prefix of the email without '@' (`EmailPrefix`): the name is followed by '@' or is the whole email |
| `MockApiService.OwnerId` | services/mockApiService.ts:56 | the owner is the signed-in user's id when that id is non-empty, and "guest" when no user is signed in or the id is empty; it is never empty |
| `MockApiService.ReplaceById` | services/mockApiService.ts:31 | update keeps length and order, and replaces exactly the entries whose id matches |
| `MockApiService.UpdateAbsentIsNoop` | services/mockApiService.ts:31 | updating with an absent id changes nothing |
| `MockApiService.UpdateIdempotent` | services/mockApiService.ts:31 | updating twice with one product equals updating once |
| `MockApiService.RemoveById` | services/mockApiService.ts:35 | delete keeps exactly the products whose id differs |
| `MockApiService.DeleteAbsentIsNoop` | services/mockApiService.ts:35 | deleting an absent id changes nothing |
| `MockApiService.DeleteKeepsOrder` | services/mockApiService.ts:35 | deletion distributes over concatenation, so survivors keep their catalogue order |
| `MockApiService.LowStock` | services/mockApiService.ts:74 | the low-stock list holds exactly the catalogue's products with stock below 5 |
| `MockApiService.Revenue` | services/mockApiService.ts:72 | an empty ledger has revenue 0, and a ledger of non-negative totals has non-negative revenue |
| `MockApiService.RevenueAppend` | services/mockApiService.ts:72 | revenue is additive over ledgers laid end to end |
| `MockApiService.LowStockMonotone` | services/mockApiService.ts:74 | lowering stocks never shrinks the low-stock count |
| `MockApiService.LowStockKeepsOrder` | services/mockApiService.ts:74 | the low-stock filter distributes over concatenation, so low products keep catalogue order |
| `MockApiService.RevenueAfterOrder` | services/mockApiService.ts:62-72 | prepending a placed order adds exactly its total to revenue |
| `MockApiService.LowStockAfterOrder` | services/mockApiService.ts:49-74 | with non-negative quantities, the deduction of an order never lowers the low-stock count |
| `MockApiService.CheckStock` | services/mockApiService.ts:43-46 | the validation loop returns exactly what `Validate` specifies |
| `MockApiService.DeductStock` | services/mockApiService.ts:49-52 | the deduction loop returns exactly the catalogue `Deducted` specifies |
| `MockApiService.Store.constructor` | services/mockApiService.ts:6-8 | the store starts with the seed catalogue, an empty ledger and no user |
| `MockApiService.Store.Login` | services/mockApiService.ts:12-19 | login always succeeds; the current user gets the given id, email and role and the email's prefix as name; catalogue and ledger are unchanged |
| `MockApiService.Store.Logout` | services/mockApiService.ts:21 | logout clears the current user and nothing else |
| `MockApiService.Store.UpdateProduct` | services/mockApiService.ts:30-32 | the catalogue becomes the replaced one; ledger and user are unchanged |
| `MockApiService.Store.DeleteProduct` | services/mockApiService.ts:34-36 | the catalogue loses the products with the id; ledger and user are unchanged |
| `MockApiService.Store.CreateOrder` | services/mockApiService.ts:39-66 | through `CheckStock` and `DeductStock`, rejects exactly when validation fails, with the first failing item's error, and then changes neither catalogue nor ledger; otherwise deducts the quantities and prepends one PAID order with the given items and total, owned by the current user or "guest" |
| `MockApiService.Store.GetCurrentUser` | services/mockApiService.ts:23 | returns the current-user slot; with no user, orders are owned by "guest" |
| `MockApiService.Store.GetProducts` | services/mockApiService.ts:26-28 | the returned catalogue is the one whose low-stock count the analytics read reports |
| `MockApiService.Store.GetOrders` | services/mockApiService.ts:68 | the returned ledger's revenue and length are the analytics read's revenue and order count |
| `MockApiService.Store.Analytics` | services/mockApiService.ts:71-76 | revenue is the sum of the ledger's totals, the order count is the ledger length and the low-stock count is the number of products below 5; revenue is 0 for an empty ledger and the low-stock count never exceeds the catalogue size |
| `App.AddToCart` | App.tsx:16-23 | after adding, the product is in the cart; the length grows by one exactly when it was absent; existing lines keep their product and position, and lines for other products are unchanged |
| `App.IncrementLines` | App.tsx:20 | every line for the product gains exactly one unit, in place; other lines and the length are unchanged |
| `App.ClearCart` | App.tsx:31 | the cleared cart is valid and holds no product |
| `App.RemoveFromCart` | App.tsx:28 | the result keeps exactly the lines for other products |
| `App.AddExistingBumpsLine` | App.tsx:18-20 | in a valid cart, adding a present product raises that line by exactly 1 and leaves every other line and the order unchanged |
| `App.AddNewAppends` | App.tsx:22 | adding an absent product appends a line of quantity 1, so the length grows by one |
| `App.AddKeepsValid` | App.tsx:16-23 | adding keeps the ids distinct and every quantity at least 1 |
| `App.RemoveKeepsValid` | App.tsx:27-29 | removing keeps the ids distinct and every quantity at least 1 |
| `App.RemoveAbsentIsNoop` | App.tsx:28 | removing an absent product changes nothing |
| `App.RemoveKeepsOrder` | App.tsx:28 | removal distributes over concatenation, so kept lines stay in cart order |
| `App.Reconcile` | App.tsx:113-116 | a reconciled line is a cart line paired with the product the lookup finds; every cart line whose product is found is kept; there are never more lines than in the cart |
| `App.ReconcileAllFound` | App.tsx:113-116 | when every line's product is in the snapshot, reconciliation drops nothing |
| `App.ReconcileKeepsOrder` | App.tsx:113-116 | reconciliation distributes over concatenation, so kept lines stay in cart order |
| `App.Subtotal` | App.tsx:118 | no lines give subtotal 0, and lines with non-negative prices and quantities give a non-negative subtotal |
| `App.CheckoutEnabled` | App.tsx:171 | checkout is enabled exactly when some cart line's product is in the snapshot |
| `App.SubtotalAppend` | App.tsx:118 | the subtotal is additive over runs of lines |
| `App.SubtotalSingle` | App.tsx:118 | a single line contributes its price times its quantity |
| `App.CartSubtotalNonNegative` | App.tsx:113-118 | a cart of positive quantities against non-negative prices shows a non-negative subtotal |
| `App.IncrementTotal` | App.tsx:20 | bumping adds one unit per matching line to the total quantity |
| `App.AddRaisesTotalQuantityByOne` | App.tsx:16-23 | in a valid cart, one add raises the total quantity by exactly 1 |
| `App.CartBadge` | App.tsx:36-89 | the badge count is 0, and the badge hidden, exactly when the cart is empty; a cart holding any product shows at least 1 |
| `App.BadgeCountsLines` | App.tsx:36 | the badge counts lines, not units: it is at most the total quantity, and adding a present product leaves it unchanged, while adding an absent one raises it by exactly 1 |
| `App.AdminRouteAllowed` | App.tsx:42 | the admin route is open only to a signed-in user whose role is not CUSTOMER |
| `App.NothingReconciledMeansZero` | App.tsx:113-118 | if every line's product is missing, the subtotal is 0 and checkout is disabled |
| `App.ReplayKeepsCartValid` | App.tsx:16-31 | every cart reachable by add, remove and clear has distinct ids and quantities of at least 1 |
| `Checkout.PressCheckout` | App.tsx:54-63 | checkout is not offered when nothing is reconciled; otherwise the whole cart goes to the store with the reconciled subtotal; the order is placed exactly when the store's validation passes, and is the PAID order with the given id, the current user's owner id, the whole cart and the reconciled subtotal; the cart is emptied on success and unchanged on rejection; on rejection catalogue and ledger are unchanged; the store's current user never changes; a valid cart never drives a non-negative catalogue negative |
| `Checkout.CheckoutNeverOverdraws` | App.tsx:56 | a valid cart that passes validation leaves every stock non-negative |
| `Checkout.ReachableCartNeverOverdraws` | App.tsx:13-31 | whatever add, remove and clear events built the cart, a placed order keeps every stock non-negative |
| `Checkout.LoginOpensAdminRoute` | App.tsx:42 | a user from login opens the admin route exactly when the role is ADMIN; no user never does |

## Left out

- Latency and promises: every service call is a synchronous state change.
- Random user ids, clock-derived order ids and timestamps: these are method parameters, and no
  uniqueness of order ids is claimed.
- Floating-point numbers and the two-decimal formatting of the subtotal: prices, quantities and
  totals are integers. The `|| 0` fallback for a missing price cannot arise with integer prices.
- Rendering, routing, the cart drawer's open flag and the pages for browsing, login, admin
  charts and QA documentation. The login page's default email is among them.
- The app's own user slot (`App.tsx:12`) is not modelled as state. Only its admin-route guard is.
  This slot and the store's current user are set together at login but part at navbar logout.
- The seed catalogue: a one-product catalogue serves as the example in `Checkout.OrderScenario`.
- Aliasing: the service hands out its live arrays, and deduction mutates product objects shared
  with the seed. The model uses values.
