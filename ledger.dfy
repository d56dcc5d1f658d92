/**
 * The order ledger: the `transactions` table (one row per completed order)
 * and the `transaction_items` table (one row per purchased line, holding the
 * price frozen at purchase time), and the receipt that is read back from them.
 */
module Ledger {
  import opened Wrappers
  import opened Carts
  import opened Pricing

  /** The contact and shipping columns copied from the checkout form. */
  datatype Customer = Customer(
    name: string, email: string, address: string, city: string,
    state: string, zip: string, country: string)

  /** A `transactions` row. */
  datatype Order = Order(id: int, customer: Customer, totalPrice: int, status: string)

  /** A `transaction_items` row. */
  datatype LineItem = LineItem(orderId: int, slug: Slug, quantity: int, priceAtPurchase: int)

  /** The only status the checkout writes. */
  const Completed := "completed"

  /** `SELECT ... FROM transaction_items WHERE transaction_id = id`, in insertion order. */
  function ItemsOf(items: seq<LineItem>, id: int): (r: seq<LineItem>)
    ensures |r| <= |items|
    ensures forall k | 0 <= k < |r| :: r[k].orderId == id && r[k] in items
  {
    if items == [] then []
    else (if items[0].orderId == id then [items[0]] else []) + ItemsOf(items[1..], id)
  }

  /** The value of a set of stored rows: the sum of quantity times price-at-purchase. */
  function ItemsTotal(items: seq<LineItem>): int
  {
    if items == [] then 0 else items[0].quantity * items[0].priceAtPurchase + ItemsTotal(items[1..])
  }

  /** The rows the submit loop inserts for order `id`: one per cart entry, in
      cart order, each priced from the submit-time price map. */
  function LineItemsFor(id: int, c: Cart, p: Prices): seq<LineItem>
  {
    seq(|c|, k requires 0 <= k < |c| => LineItem(id, c[k].slug, c[k].qty, Price(p, c[k].slug)))
  }

  /** The stored line items of an order add up to the total that was charged:
      their prices are the ones the charge was computed from. */
  lemma {:induction false} ItemsTotalFor(id: int, c: Cart, p: Prices)
    ensures ItemsTotal(LineItemsFor(id, c, p)) == Total(c, p)
  {
    if c != [] {
      assert LineItemsFor(id, c, p)[1..] == LineItemsFor(id, c[1..], p);
      ItemsTotalFor(id, c[1..], p);
    }
  }

  /** The inserted rows depend only on the prices of the slugs the cart holds. */
  lemma {:induction false} LineItemsForAgree(id: int, c: Cart, p1: Prices, p2: Prices)
    requires forall s | s in Slugs(c) :: Price(p1, s) == Price(p2, s)
    ensures LineItemsFor(id, c, p1) == LineItemsFor(id, c, p2)
  {
    forall k | 0 <= k < |c| ensures Price(p1, c[k].slug) == Price(p2, c[k].slug) {
      SlugsAt(c, c[k].slug);
    }
  }

  lemma {:induction false} ItemsOfConcat(a: seq<LineItem>, b: seq<LineItem>, id: int)
    ensures ItemsOf(a + b, id) == ItemsOf(a, id) + ItemsOf(b, id)
  {
    if a != [] {
      assert (a + b)[0] == a[0] && (a + b)[1..] == a[1..] + b;
      ItemsOfConcat(a[1..], b, id);
    } else {
      assert a + b == b;
    }
  }

  /** No stored row belongs to `id`, so the query finds nothing. */
  lemma {:induction false} ItemsOfNone(items: seq<LineItem>, id: int)
    requires forall k | 0 <= k < |items| :: items[k].orderId != id
    ensures ItemsOf(items, id) == []
  {
    if items != [] { ItemsOfNone(items[1..], id); }
  }

  /** Every row belongs to `id`, so the query finds all of them. */
  lemma {:induction false} ItemsOfAll(items: seq<LineItem>, id: int)
    requires forall k | 0 <= k < |items| :: items[k].orderId == id
    ensures ItemsOf(items, id) == items
  {
    if items != [] { ItemsOfAll(items[1..], id); }
  }

  /** `SELECT ... FROM transactions WHERE id = %s`: the order with that id, or nothing. */
  function FindOrder(orders: seq<Order>, id: int): (r: Option<Order>)
    ensures r.None? <==> forall i | 0 <= i < |orders| :: orders[i].id != id
    ensures r.Some? ==> r.value.id == id && r.value in orders
  {
    if orders == [] then None
    else if orders[0].id == id then Some(orders[0])
    else FindOrder(orders[1..], id)
  }

  /** The ledger's consistency: ids are assigned in increasing order below the
      next id, every line item belongs to an assigned id, and each order's
      stored total is the value of its line items at their purchase prices. */
  ghost predicate LedgerValid(orders: seq<Order>, items: seq<LineItem>, nextId: int)
  {
    && (forall i | 0 <= i < |orders| :: orders[i].id < nextId)
    && (forall i, j | 0 <= i < j < |orders| :: orders[i].id < orders[j].id)
    && (forall k | 0 <= k < |items| :: items[k].orderId < nextId)
    && (forall i | 0 <= i < |orders| :: ItemsTotal(ItemsOf(items, orders[i].id)) == orders[i].totalPrice)
  }

  /** Committing one order with the next id and its line items keeps the ledger consistent. */
  lemma {:induction false} LedgerAppend(orders: seq<Order>, items: seq<LineItem>, nextId: int, o: Order, added: seq<LineItem>)
    requires LedgerValid(orders, items, nextId)
    requires o.id == nextId
    requires forall k | 0 <= k < |added| :: added[k].orderId == nextId
    requires o.totalPrice == ItemsTotal(added)
    ensures LedgerValid(orders + [o], items + added, nextId + 1)
  {
    var orders', items' := orders + [o], items + added;
    forall i | 0 <= i < |orders'|
      ensures ItemsTotal(ItemsOf(items', orders'[i].id)) == orders'[i].totalPrice
    {
      ItemsOfConcat(items, added, orders'[i].id);
      if i < |orders| {
        ItemsOfNone(added, orders[i].id);
        assert ItemsOf(items', orders'[i].id) == ItemsOf(items, orders[i].id);
      } else {
        ItemsOfNone(items, nextId);
        ItemsOfAll(added, nextId);
        assert ItemsOf(items', orders'[i].id) == added;
      }
    }
  }

  /** One line of the receipt page: the stored quantity and its subtotal. */
  datatype ReceiptLine = ReceiptLine(slug: Slug, quantity: int, subtotal: int)

  /** What the receipt page shows: contact and shipping details, the stored total, the lines. */
  datatype ReceiptView = ReceiptView(customer: Customer, total: int, lines: seq<ReceiptLine>)

  /** The receipt line for one stored row: subtotal is quantity times price-at-purchase. */
  function ReceiptLineOf(row: LineItem): ReceiptLine
  {
    ReceiptLine(row.slug, row.quantity, row.quantity * row.priceAtPurchase)
  }

  function SubtotalSum(lines: seq<ReceiptLine>): int
  {
    if lines == [] then 0 else lines[0].subtotal + SubtotalSum(lines[1..])
  }

  /** Lines computed row by row from stored rows add up to the rows' value. */
  lemma {:induction false} SubtotalSumOfRows(lines: seq<ReceiptLine>, rows: seq<LineItem>)
    requires |lines| == |rows|
    requires forall k | 0 <= k < |rows| :: lines[k].subtotal == rows[k].quantity * rows[k].priceAtPurchase
    ensures SubtotalSum(lines) == ItemsTotal(rows)
  {
    if rows != [] {
      SubtotalSumOfRows(lines[1..], rows[1..]);
    }
  }

  /** The receipt loop: one line per stored row, its subtotal being the stored
      quantity times the stored price-at-purchase; the catalog is not consulted. */
  method BuildReceipt(rows: seq<LineItem>) returns (lines: seq<ReceiptLine>)
    ensures |lines| == |rows|
    ensures forall k | 0 <= k < |rows| :: lines[k] == ReceiptLineOf(rows[k])
    ensures SubtotalSum(lines) == ItemsTotal(rows)
  {
    lines := [];
    var i := 0;
    while i < |rows|
      invariant 0 <= i <= |rows|
      invariant |lines| == i
      invariant forall k | 0 <= k < i :: lines[k] == ReceiptLineOf(rows[k])
    {
      var row := rows[i];
      var subtotal := row.quantity * row.priceAtPurchase;
      lines := lines + [ReceiptLine(row.slug, row.quantity, subtotal)];
      i := i + 1;
    }
    SubtotalSumOfRows(lines, rows);
  }
}
