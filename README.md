# Checkout service: a verified model of the cart and checkout core

This project models the cart and checkout logic of a small online coffee
shop backend (`checkout_service.py`). It covers the per-session shopping
cart and its add/remove endpoints. It covers the checkout page, which
re-prices the cart from the products table. It covers the checkout
submission: validate, charge the payment processor, write the order and its
line items in one database transaction, then clear the cart. It also covers
the receipt lookup. All money is in integer minor units (cents).

Files:

- `wrappers.dfy`: `Option`.
- `cart.dfy` (module `Carts`): the cart as an insertion-ordered dictionary.
  It is a sequence of `(slug, qty)` lines with distinct slugs. `Get`, `Set`
  and `Delete` are `cart.get`, `cart[k] = v` and `del cart[k]`. `Added` and
  `Removed` are the two cart updates.
- `pricing.dfy` (module `Pricing`): `Price` is `prices.get(slug, 0)`. `Total`
  is the submit-time `sum`. `PricesFor` is the `WHERE slug IN (...)` price
  query. `PriceLines` is the loop that renders the checkout page.
- `ledger.dfy` (module `Ledger`): the `transactions` and `transaction_items`
  rows and the ledger's consistency invariant. `FindOrder` is the order
  lookup; `BuildReceipt` is the receipt loop.
- `checkout.dfy` (module `Checkout`): form validation, HTTP statuses, and the
  class `Shop`. Its fields are the session cart, both ledger tables, the next
  order id, and a trace of external effects (charges, commits, rollbacks,
  cart clears) in the order they happen. Each endpoint is a method.

External collaborators are inputs:

- The products table is a price map read afresh by each request. It is
  `None` when the database cannot be reached.
- The payment processor's answer is `chargeOk`.
- `failAt` names the database step of the order write that raises, if any.
  Step 0 is the order insert, steps 1..n are the line-item inserts, and step
  n+1 is the commit.
- `Submit` takes `clearOk`, which says whether the cart store's delete after
  the commit succeeds. The code swallows a failed delete, so the order is
  still placed but the cart is still there on the next request.
- `Receipt` takes `reachable`, which says whether its connection succeeds.

The model follows the code where it departs from what a checkout is usually
expected to do:

- Add does not reject a zero or negative quantity. `Carts.AddedPositivity`
  shows the consequence: adding a non-positive quantity of a new slug leaves
  an entry that is not positive. `Carts.AddRemoveRoundTrip` shows that
  add-then-remove restores the cart exactly when the slug was absent or held
  positively, whatever the sign of the quantity.
- A slug with no price is priced at 0, not rejected.
- When the write fails after a successful charge, the code keeps no
  reconciliation record; it only logs and answers 500. The effect trace shows
  exactly that sequence: `Charge(_, true)` followed by `RolledBack`.
- A failed cart delete after the commit is swallowed (`except: pass`). The
  order is placed and the user is redirected to the receipt, yet the cart is
  still there, so a second submission would charge again. `Shop.Submit`
  states this case through its `clearOk` input.
- The required-field check runs inside the database `with` block. So when the
  database is unreachable, the answer is 500 even if fields are missing.

## Model

| member | source | states |
|---|---|---|
| Carts.AddedSpec | checkout_service.py:455-460 | The added slug's quantity becomes its old value (0 if absent) plus `q`. The slug is a key afterwards, every other key keeps its value, and slugs stay distinct. A new slug is appended at the end. |
| Carts.RemovedSpec | checkout_service.py:598-610 | For a held slug: if more than `q` is held, the quantity drops by exactly `q` and stays at least 1. Otherwise the key disappears. Other keys are unchanged and slugs stay distinct. |
| Carts.AddRemoveRoundTrip | checkout_service.py:459-608 | Adding `q` then removing `q` gives back exactly the original cart, positions included, if and only if the slug was absent or held with a positive quantity. |
| Carts.RemovedKeepsPositive | checkout_service.py:604-608 | Removing never leaves a non-positive quantity behind: a cart whose quantities are all at least 1 stays so. |
| Carts.AddedPositivity | checkout_service.py:445-459 | Adding a positive quantity keeps every quantity at least 1. Adding a non-positive quantity of a new slug breaks that, because the add path does not check the sign. |
| Carts.SetAt | checkout_service.py:459 | Dictionary assignment keeps an existing key at its position and changes only that line. A new key goes after all existing lines. |
| Carts.DeleteAt | checkout_service.py:608 | Deleting a held key removes exactly its line; the others keep their order and values. |
| Pricing.PriceLines | checkout_service.py:487-496 | The checkout-page loop builds one row per cart entry, in cart order. Each row holds the price (0 when unknown) and price × quantity. The accumulated total equals the submit-time `Total`. |
| Pricing.TotalPricesFor | checkout_service.py:510-514 | Pricing against the restricted `WHERE slug IN (...)` result gives the same total as pricing against the whole catalog. |
| Pricing.TotalAgree | checkout_service.py:514 | The total depends only on the prices of slugs the cart holds. |
| Pricing.TotalAdded | checkout_service.py:514 | After adding `q` units of a slug, the checkout total grows by that slug's price times `q`, or by nothing if it has no price. |
| Pricing.TotalRemoved | checkout_service.py:604-608 | After removing, the total drops by the price of what left the cart: `q` units, or the whole entry. |
| Pricing.TotalNonNegative | checkout_service.py:514 | With non-negative prices and positive quantities, the total is non-negative. |
| Pricing.TotalExample | checkout_service.py:514 | Worked example: 2 × 1200 + 1 × 900 = 3300. A slug missing from the catalog adds 0. |
| Ledger.ItemsTotalFor | checkout_service.py:547-552 | The line items inserted for a cart add up, at their price-at-purchase, to the cart's submit-time total. |
| Ledger.LineItemsForAgree | checkout_service.py:547-548 | The inserted rows depend only on the prices of the slugs in the cart. |
| Ledger.ItemsOfConcat | checkout_service.py:635-640 | Selecting an order's rows from two concatenated row sets gives the selection from each, in order. |
| Ledger.FindOrder | checkout_service.py:625-633 | The lookup finds nothing exactly when no order has that id. Otherwise it returns an order with that id taken from the table. |
| Ledger.LedgerAppend | checkout_service.py:531-554 | Committing an order that has the next id, with line items worth its total, keeps the ledger consistent. Ids stay increasing and below the next id, every item refers to an assigned id, and each order's total equals the value of its items. |
| Ledger.BuildReceipt | checkout_service.py:642-650 | One receipt line per stored row. Its subtotal is the stored quantity times the stored price-at-purchase. The subtotals sum to the rows' value. |
| Checkout.AllPresent | checkout_service.py:505-508 | True exactly when every required field is present in the form and non-empty. |
| Checkout.CartStatus | checkout_service.py:455-617 | Both cart endpoints, add (455-467) and remove (583-617), answer 200 exactly on success and 500 exactly on an internal error; every other rejection is 400. |
| Checkout.SubmitStatus | checkout_service.py:503-574 | A submission answers 302 (redirect to the receipt) exactly when an order was placed. It answers 500 exactly on a server or database error. |
| Checkout.Shop.AddToCart | checkout_service.py:441-467 | Unknown slug: `Invalid item`, cart unchanged. Unreachable database: internal error, cart unchanged. Otherwise the cart becomes `Added(old cart, item, quantity)` and is returned with the catalog. |
| Checkout.Shop.RemoveFromCart | checkout_service.py:577-617 | The rejections are checked in the code's order: empty item, unreachable database, unknown slug, slug not in cart. Each leaves the cart unchanged. Otherwise the cart becomes `Removed(old cart, item, quantity)`. |
| Checkout.Shop.Preview | checkout_service.py:470-501 | An empty cart is rejected. Otherwise, when the database is reachable, each entry is re-priced from the catalog at its current price (0 if unknown), and the total is the cart's `Total`. Nothing changes. |
| Checkout.Shop.Submit | checkout_service.py:470-574 | The answer for each case, in the code's order: empty cart, unreachable database, missing field, declined charge, failed write, placed. The cart is cleared only when the order is placed and the store's delete succeeds; a failed delete leaves the cart in place under a placed order. On success the ledger gains exactly one `completed` order with the next id and the submit-time total, plus one line item per cart entry at submit-time prices. In every other case the ledger is unchanged. The charge amount is the submit-time total. The effect trace is empty before the charge, `[Charge(declined)]` on decline, `[Charge, RolledBack]` on a failed write, and `[Charge, Committed(id), CartCleared]` on success (`[Charge, Committed(id)]` when the delete fails). |
| Checkout.Shop.WriteOrder | checkout_service.py:529-570 | The order write is all-or-nothing. It succeeds exactly when no insert and no commit fails. It then appends the order and its line items and advances the id. Otherwise the rollback leaves both tables and the next id as they were. The ledger stays consistent. |
| Checkout.Shop.Receipt | checkout_service.py:620-664 | Unreachable database: internal error. Unknown id: not found. Otherwise the stored customer, the stored total, and one line per stored row with subtotal quantity × price-at-purchase. The catalog is never read, and the line subtotals sum to the stored total. |

## Left out

- Database connection setup, SSL mode handling and the commented-out older connection code: pure I/O and configuration.
- The Redis/session choice inside `get_cart`/`save_cart`, the `eval`/`str` cart serialisation and the one-hour expiry. The cart store is the single field `Shop.cart`; a failed cart delete after an order is the `clearOk` input, and other store failures (the fallback to the session on a failed Redis read or write) are not modelled.
- Key order of the cart across requests with the signed-cookie session store. That store serialises the cart as JSON on every response, and Flask's default JSON provider may sort keys, so the cart can come back in slug order. The model keeps insertion order across requests, as the Redis store's `str`/`eval` round trip does. `Carts.AddedSpec`, `Carts.SetAt` and `Carts.AddRemoveRoundTrip` state positions within one request; across requests on the session store only their key-to-quantity statements carry over, and the order of checkout-page rows and line-item inserts may differ.
- The payment processor call itself. Only its accept/decline outcome is modelled; the charge id and the processor's logging are not.
- A failure of the price query itself (`cur.execute` of the products query on the checkout page or at submit). On submit that failure comes after the field check and answers 500 without a charge; in the model, valid fields with a reachable database always reach the charge. `None` models only an unreachable database, which answers 500 before the field check.
- Product names in the cart endpoints' reply. The model's `items` carries only slug → price.
- Receipt display names (`replace('-', ' ').title()`) and every `/ 100.0` conversion. These are presentation; receipt lines carry the slug and integer subtotals.
- Reading the quantity from the JSON: the default of 1 when `quantity` is omitted, and `int(...)` parse failures. The quantity is an `int` input.
- A JSON `item` that is missing or not a string. An empty string stands for a missing item.
- Row order of the receipt query. It has no `ORDER BY`; the model returns rows in insertion order.
- Id assignment: a counter that a rollback restores. A database sequence may leave gaps after a rollback, and the model does not capture that.
- The `row['id'] if row else None` fallback. A successful `RETURNING id` insert always yields a row.
- Logging, the home page, the products API, the health, readiness and version endpoints, HTML error pages, error handlers, startup, the deployment notes, and the server configuration file.
- Concurrent submissions of the same cart. The code has no locking, so there is no concurrency behaviour to state.
