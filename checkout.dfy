/**
 * The checkout service: the per-session cart store, the add-to-cart and
 * remove-from-cart endpoints, the checkout page (GET: re-price the cart), the
 * checkout submission (POST: validate, charge, record, clear the cart) and the
 * receipt lookup.
 *
 * External collaborators become inputs: the products table is a price map
 * read afresh by each request (`None` when the database cannot be reached),
 * the payment processor's answer is `chargeOk`, and `failAt` says which
 * database step of the order write raises, if any. The class keeps, besides
 * the cart and the ledger, the trace of externally visible effects (charges,
 * commits, rollbacks, cart clears) in the order they happen.
 */
module Checkout {
  import opened Wrappers
  import opened Carts
  import opened Pricing
  import opened Ledger

  /** The submitted checkout form: field name to value. */
  type Form = map<string, string>

  /** The form fields a submission must carry, each non-empty. */
  const RequiredFields: seq<string> :=
    ["full_name", "email", "address", "city", "state", "zip", "country", "payment_token"]

  /** The only currency charges are made in. */
  const Currency := "usd"

  /** `data.get(name)`, with a missing field read as the empty string. */
  function Field(form: Form, name: string): string
  {
    if name in form then form[name] else ""
  }

  /** `all(data.get(field) for field in fields)`: every field present and non-empty. */
  function AllPresent(form: Form, fields: seq<string>): (ok: bool)
    ensures ok <==> forall i | 0 <= i < |fields| :: fields[i] in form && form[fields[i]] != ""
  {
    fields == [] || (Field(form, fields[0]) != "" && AllPresent(form, fields[1..]))
  }

  /** The contact and shipping columns written to the `transactions` row. */
  function CustomerOf(form: Form): Customer
  {
    Customer(Field(form, "full_name"), Field(form, "email"), Field(form, "address"),
             Field(form, "city"), Field(form, "state"), Field(form, "zip"), Field(form, "country"))
  }

  /** What is sent to the payment processor. */
  datatype ChargeRequest = ChargeRequest(amount: int, currency: string, source: string, receiptEmail: string)

  /** The charge a submission asks for: the cart re-priced at submit time. */
  function ChargeFor(c: Cart, catalog: Prices, form: Form): ChargeRequest
  {
    ChargeRequest(Total(c, PricesFor(catalog, c)), Currency, Field(form, "payment_token"), Field(form, "email"))
  }

  /** An externally visible effect of a checkout submission. */
  datatype Effect =
    | Charge(request: ChargeRequest, accepted: bool)
    | Committed(orderId: int)
    | RolledBack
    | CartCleared

  datatype CartError = ItemRequired | InvalidItem | ItemNotInCart | InternalError

  /** The JSON answer of the cart endpoints. */
  datatype CartReply = Updated(cart: Cart, items: Prices) | Rejected(error: CartError)

  /** The checkout page: the empty-cart rejection, a server error, or the priced rows and their total. */
  datatype PreviewReply = EmptyCart | PreviewFailed | Priced(lines: seq<PricedLine>, total: int)

  /** The answer to a checkout submission. */
  datatype SubmitReply =
    | CartIsEmpty
    | ServerError
    | MissingFields
    | PaymentFailed
    | DatabaseError
    | Placed(orderId: int)

  /** The answer to a receipt request. */
  datatype ReceiptReply = NotFound | ReceiptFailed | Found(view: ReceiptView)

  /** The HTTP status of a cart endpoint's answer. */
  function CartStatus(r: CartReply): (code: int)
    ensures code == 200 <==> r.Updated?
    ensures code == 500 <==> r == Rejected(InternalError)
  {
    match r
    case Updated(_, _) => 200
    case Rejected(InternalError) => 500
    case Rejected(_) => 400
  }

  /** The HTTP status of a submission's answer: 302 redirect to the receipt on success. */
  function SubmitStatus(r: SubmitReply): (code: int)
    ensures code == 302 <==> r.Placed?
    ensures code == 500 <==> r == ServerError || r == DatabaseError
  {
    match r
    case CartIsEmpty => 400
    case MissingFields => 400
    case PaymentFailed => 400
    case ServerError => 500
    case DatabaseError => 500
    case Placed(_) => 302
  }

  /** A database step of the order write fails: step 0 is the `transactions`
      insert, steps 1 to n the line-item inserts, step n + 1 the commit. */
  predicate WriteFails(failAt: Option<nat>, n: nat)
  {
    failAt.Some? && failAt.value <= n + 1
  }

  /** A submission that passes the checks and reaches the payment processor. */
  predicate Reaches(c: Cart, catalog: Option<Prices>, form: Form)
  {
    c != [] && catalog.Some? && AllPresent(form, RequiredFields)
  }

  class Shop {
    /** The session's cart, as the cart store holds it. */
    var cart: Cart
    /** The `transactions` table. */
    var orders: seq<Order>
    /** The `transaction_items` table. */
    var lineItems: seq<LineItem>
    /** The id the next inserted order receives. */
    var nextId: int
    /** Every charge, commit, rollback and cart clear so far, oldest first. */
    var effects: seq<Effect>

    ghost predicate Valid()
      reads this
    {
      Distinct(cart) && LedgerValid(orders, lineItems, nextId)
    }

    constructor ()
      ensures Valid()
      ensures cart == [] && orders == [] && lineItems == [] && nextId == 1 && effects == []
    {
      cart, orders, lineItems, nextId, effects := [], [], [], 1, [];
    }

    /** POST /api/add-to-cart. An unknown slug is rejected; otherwise the slug's
        quantity grows by `quantity` (its sign is not checked). */
    method AddToCart(catalog: Option<Prices>, item: Slug, quantity: int) returns (r: CartReply)
      requires Valid()
      modifies this`cart
      ensures Valid()
      ensures catalog.None? ==> r == Rejected(InternalError) && cart == old(cart)
      ensures catalog.Some? && item !in catalog.value ==> r == Rejected(InvalidItem) && cart == old(cart)
      ensures catalog.Some? && item in catalog.value ==>
        cart == Added(old(cart), item, quantity) && r == Updated(cart, catalog.value)
    {
      if catalog.None? {
        return Rejected(InternalError);
      }
      if item !in catalog.value {
        return Rejected(InvalidItem);
      }
      var held := Get(cart, item);
      AddedSpec(cart, item, quantity);
      cart := Set(cart, item, held + quantity);
      r := Updated(cart, catalog.value);
    }

    /** POST /api/remove-from-cart. Rejects an empty item, an unknown slug and a
        slug the cart does not hold; otherwise decrements, or deletes the entry
        when no more than `quantity` is held. */
    method RemoveFromCart(catalog: Option<Prices>, item: Slug, quantity: int) returns (r: CartReply)
      requires Valid()
      modifies this`cart
      ensures Valid()
      ensures item == "" ==> r == Rejected(ItemRequired)
      ensures item != "" && catalog.None? ==> r == Rejected(InternalError)
      ensures item != "" && catalog.Some? && item !in catalog.value ==> r == Rejected(InvalidItem)
      ensures item != "" && catalog.Some? && item in catalog.value && item !in Slugs(old(cart)) ==>
        r == Rejected(ItemNotInCart)
      ensures r.Rejected? ==> cart == old(cart)
      ensures item != "" && catalog.Some? && item in catalog.value && item in Slugs(old(cart)) ==>
        cart == Removed(old(cart), item, quantity) && r == Updated(cart, catalog.value)
    {
      if item == "" {
        return Rejected(ItemRequired);
      }
      if catalog.None? {
        return Rejected(InternalError);
      }
      if item !in catalog.value {
        return Rejected(InvalidItem);
      }
      if item !in Slugs(cart) {
        return Rejected(ItemNotInCart);
      }
      RemovedSpec(cart, item, quantity);
      var held := Get(cart, item);
      if held > quantity {
        cart := Set(cart, item, held - quantity);
      } else {
        cart := Delete(cart, item);
      }
      r := Updated(cart, catalog.value);
    }

    /** GET /checkout: reject an empty cart, otherwise re-price every entry from
        the catalog (unknown slugs at 0). Changes nothing. */
    method Preview(catalog: Option<Prices>) returns (r: PreviewReply)
      ensures cart == [] ==> r == EmptyCart
      ensures cart != [] && catalog.None? ==> r == PreviewFailed
      ensures cart != [] && catalog.Some? ==>
        && r.Priced?
        && |r.lines| == |cart|
        && (forall k | 0 <= k < |cart| :: r.lines[k] == PriceLine(catalog.value, cart[k]))
        && r.total == Total(cart, catalog.value)
    {
      if cart == [] {
        return EmptyCart;
      }
      if catalog.None? {
        return PreviewFailed;
      }
      var prices := PricesFor(catalog.value, cart);
      var lines, total := PriceLines(cart, prices);
      forall k | 0 <= k < |cart| ensures Price(prices, cart[k].slug) == Price(catalog.value, cart[k].slug) {
        SlugsAt(cart, cart[k].slug);
      }
      TotalPricesFor(catalog.value, cart);
      r := Priced(lines, total);
    }

    /** POST /checkout. In order: reject an empty cart; reject a missing or
        empty required field; re-price the cart and charge that amount once;
        on a declined charge stop; otherwise insert the order and one line item
        per cart entry, commit, and only then clear the cart. A failing insert
        or commit rolls the whole write back and keeps the cart. `clearOk` says
        whether the cart store's delete succeeds: a failed delete is swallowed,
        the order stays placed, and the cart survives into the next request. */
    method Submit(catalog: Option<Prices>, form: Form, chargeOk: bool, failAt: Option<nat>, clearOk: bool)
      returns (r: SubmitReply)
      requires Valid()
      modifies this
      ensures Valid()
      // which answer
      ensures old(cart) == [] ==> r == CartIsEmpty
      ensures old(cart) != [] && catalog.None? ==> r == ServerError
      ensures old(cart) != [] && catalog.Some? && !AllPresent(form, RequiredFields) ==> r == MissingFields
      ensures Reaches(old(cart), catalog, form) && !chargeOk ==> r == PaymentFailed
      ensures Reaches(old(cart), catalog, form) && chargeOk && WriteFails(failAt, |old(cart)|) ==>
        r == DatabaseError
      ensures Reaches(old(cart), catalog, form) && chargeOk && !WriteFails(failAt, |old(cart)|) ==>
        r == Placed(old(nextId))
      // the cart is cleared only on success, and only when the store's delete succeeds
      ensures cart == if r.Placed? && clearOk then [] else old(cart)
      // the ledger gains exactly one order and its line items, or nothing
      ensures r.Placed? ==>
        && catalog.Some?
        && orders == old(orders) + [Order(old(nextId), CustomerOf(form), Total(old(cart), catalog.value), Completed)]
        && lineItems == old(lineItems) + LineItemsFor(old(nextId), old(cart), catalog.value)
        && nextId == old(nextId) + 1
      ensures !r.Placed? ==> orders == old(orders) && lineItems == old(lineItems) && nextId == old(nextId)
      // effects, in order
      ensures !Reaches(old(cart), catalog, form) ==> effects == old(effects)
      ensures Reaches(old(cart), catalog, form) ==>
        var charge := ChargeFor(old(cart), catalog.value, form);
        && charge.amount == Total(old(cart), catalog.value)
        && effects == old(effects) + (
             if r == PaymentFailed then [Charge(charge, false)]
             else if r == DatabaseError then [Charge(charge, true), RolledBack]
             else [Charge(charge, true), Committed(old(nextId))] + (if clearOk then [CartCleared] else []))
    {
      var c := cart;
      if c == [] {
        return CartIsEmpty;
      }
      if catalog.None? {
        return ServerError;
      }
      if !AllPresent(form, RequiredFields) {
        return MissingFields;
      }
      var prices := PricesFor(catalog.value, c);
      var amount := Total(c, prices);
      TotalPricesFor(catalog.value, c);
      LineItemsForAgree(nextId, c, prices, catalog.value);

      // The payment processor is called exactly once, before any write.
      var charge := ChargeRequest(amount, Currency, Field(form, "payment_token"), Field(form, "email"));
      effects := effects + [Charge(charge, chargeOk)];
      if !chargeOk {
        return PaymentFailed;
      }

      var id := nextId;
      var written := WriteOrder(c, prices, CustomerOf(form), failAt);
      if !written {
        effects := effects + [RolledBack];
        return DatabaseError;
      }
      effects := effects + [Committed(id)];

      // Only after the commit: clear the session's cart. A failed delete is
      // ignored and the order is still reported as placed.
      if clearOk {
        cart := [];
        effects := effects + [CartCleared];
      }
      r := Placed(id);
    }

    /** The order write, one database transaction: insert the `transactions`
        row (it receives the next id), then one `transaction_items` row per
        cart entry priced from `prices`, then commit. When any step raises, the
        rollback leaves the ledger as it was. */
    method WriteOrder(c: Cart, prices: Prices, customer: Customer, failAt: Option<nat>) returns (ok: bool)
      requires LedgerValid(orders, lineItems, nextId)
      modifies this`orders, this`lineItems, this`nextId
      ensures LedgerValid(orders, lineItems, nextId)
      ensures ok == !WriteFails(failAt, |c|)
      ensures ok ==>
        && orders == old(orders) + [Order(old(nextId), customer, Total(c, prices), Completed)]
        && lineItems == old(lineItems) + LineItemsFor(old(nextId), c, prices)
        && nextId == old(nextId) + 1
      ensures !ok ==> orders == old(orders) && lineItems == old(lineItems) && nextId == old(nextId)
    {
      var savedOrders, savedItems, savedNext := orders, lineItems, nextId;
      if failAt == Some(0) {
        return false;
      }
      var id := nextId;
      var order := Order(id, customer, Total(c, prices), Completed);
      orders, nextId := orders + [order], nextId + 1;
      var i := 0;
      while i < |c|
        invariant 0 <= i <= |c|
        invariant orders == savedOrders + [order] && nextId == id + 1
        invariant lineItems == savedItems + LineItemsFor(id, c[..i], prices)
        invariant failAt.None? || failAt.value > i
      {
        if failAt == Some(i + 1) {
          orders, lineItems, nextId := savedOrders, savedItems, savedNext;
          return false;
        }
        var priceAtPurchase := Price(prices, c[i].slug);
        assert LineItemsFor(id, c[..i + 1], prices) ==
          LineItemsFor(id, c[..i], prices) + [LineItem(id, c[i].slug, c[i].qty, priceAtPurchase)];
        lineItems := lineItems + [LineItem(id, c[i].slug, c[i].qty, priceAtPurchase)];
        i := i + 1;
      }
      assert c[..i] == c;
      if failAt == Some(|c| + 1) {
        orders, lineItems, nextId := savedOrders, savedItems, savedNext;
        return false;
      }
      ItemsTotalFor(id, c, prices);
      LedgerAppend(savedOrders, savedItems, id, order, LineItemsFor(id, c, prices));
      ok := true;
    }

    /** GET /receipt/<id>: the stored order and its stored line items, each
        line's subtotal from the stored price-at-purchase. Changes nothing and
        does not consult the catalog. */
    method Receipt(id: int, reachable: bool) returns (r: ReceiptReply)
      requires Valid()
      ensures !reachable ==> r == ReceiptFailed
      ensures reachable && FindOrder(orders, id).None? ==> r == NotFound
      ensures reachable && FindOrder(orders, id).Some? ==>
        var o := FindOrder(orders, id).value;
        var rows := ItemsOf(lineItems, id);
        && r.Found?
        && r.view.customer == o.customer
        && r.view.total == o.totalPrice
        && |r.view.lines| == |rows|
        && (forall k | 0 <= k < |rows| :: r.view.lines[k] == ReceiptLineOf(rows[k]))
        && SubtotalSum(r.view.lines) == r.view.total
    {
      if !reachable {
        return ReceiptFailed;
      }
      var found := FindOrder(orders, id);
      if found.None? {
        return NotFound;
      }
      var o := found.value;
      var rows := ItemsOf(lineItems, id);
      var lines := BuildReceipt(rows);
      ghost var j :| 0 <= j < |orders| && orders[j] == o;
      assert ItemsTotal(ItemsOf(lineItems, orders[j].id)) == orders[j].totalPrice;
      r := Found(ReceiptView(o.customer, o.totalPrice, lines));
    }
  }
}
