/**
 * Re-pricing a cart against the catalog. All amounts are integers in minor
 * currency units (cents). A slug the price map does not know is priced at 0,
 * as `prices.get(slug, 0)` does.
 */
module Pricing {
  import opened Carts

  /** Slug to unit price, as read from the products table. */
  type Prices = map<Slug, int>

  /** `prices.get(slug, 0)`. */
  function Price(p: Prices, s: Slug): int
  {
    if s in p then p[s] else 0
  }

  /** One line's contribution: unit price times quantity. */
  function Subtotal(p: Prices, l: Line): int
  {
    Price(p, l.slug) * l.qty
  }

  /** The submit-time total: `sum(prices.get(slug, 0) * qty for slug, qty in cart.items())`. */
  function Total(c: Cart, p: Prices): int
  {
    if c == [] then 0 else Subtotal(p, c[0]) + Total(c[1..], p)
  }

  /** The result of `SELECT slug, price FROM products WHERE slug IN (<cart keys>)`:
      the catalog restricted to the slugs the cart holds. */
  function PricesFor(catalog: Prices, c: Cart): Prices
  {
    map s | s in catalog.Keys * Slugs(c) :: catalog[s]
  }

  /** One row of the checkout page. */
  datatype PricedLine = PricedLine(item: Slug, quantity: int, price: int, subtotal: int)

  /** The row the GET loop builds for one cart entry. */
  function PriceLine(p: Prices, l: Line): PricedLine
  {
    PricedLine(l.slug, l.qty, Price(p, l.slug), Subtotal(p, l))
  }

  /** Summing left to right: appending a line adds its subtotal. */
  lemma {:induction false} TotalAppend(c: Cart, l: Line, p: Prices)
    ensures Total(c + [l], p) == Total(c, p) + Subtotal(p, l)
  {
    if c != [] {
      assert (c + [l])[1..] == c[1..] + [l];
      TotalAppend(c[1..], l, p);
    }
  }

  /** The total depends only on the prices of the slugs the cart holds. */
  lemma {:induction false} TotalAgree(c: Cart, p1: Prices, p2: Prices)
    requires forall s | s in Slugs(c) :: Price(p1, s) == Price(p2, s)
    ensures Total(c, p1) == Total(c, p2)
  {
    if c != [] {
      TotalAgree(c[1..], p1, p2);
    }
  }

  /** Pricing against the restricted query result gives the same total as
      pricing against the whole catalog: unknown slugs count 0 either way. */
  lemma {:induction false} TotalPricesFor(catalog: Prices, c: Cart)
    ensures Total(c, PricesFor(catalog, c)) == Total(c, catalog)
  {
    TotalAgree(c, PricesFor(catalog, c), catalog);
  }

  /** Overwriting one key's quantity moves the total by that key's price times the change. */
  lemma {:induction false} TotalSet(c: Cart, s: Slug, v: int, p: Prices)
    ensures Total(Set(c, s, v), p) == Total(c, p) - Price(p, s) * Get(c, s) + Price(p, s) * v
  {
    if c != [] && c[0].slug != s {
      TotalSet(c[1..], s, v, p);
    }
  }

  /** Deleting a key removes exactly that key's subtotal. */
  lemma {:induction false} TotalDelete(c: Cart, s: Slug, p: Prices)
    requires Distinct(c)
    ensures Total(Delete(c, s), p) == Total(c, p) - Price(p, s) * Get(c, s)
  {
    if c != [] {
      TotalDelete(c[1..], s, p);
      if c[0].slug == s {
        GetAbsent(c[1..], s);
      }
    }
  }

  /** Adding `q` units raises the checkout total by the slug's price times `q`
      (by nothing when the slug has no price). */
  lemma {:induction false} TotalAdded(c: Cart, s: Slug, q: int, p: Prices)
    ensures Total(Added(c, s, q), p) == Total(c, p) + Price(p, s) * q
  {
    var g := Get(c, s);
    TotalSet(c, s, g + q, p);
    assert Price(p, s) * (g + q) == Price(p, s) * g + Price(p, s) * q;
  }

  /** Removing `q` units of a held slug lowers the total by the price of what
      actually left the cart: `q` units, or the whole entry when no more was held. */
  lemma {:induction false} TotalRemoved(c: Cart, s: Slug, q: int, p: Prices)
    requires Distinct(c) && s in Slugs(c)
    ensures Total(Removed(c, s, q), p) == Total(c, p) - Price(p, s) * (if Get(c, s) > q then q else Get(c, s))
  {
    var g := Get(c, s);
    if g > q {
      TotalSet(c, s, g - q, p);
      assert Price(p, s) * (g - q) == Price(p, s) * g - Price(p, s) * q;
    } else {
      TotalDelete(c, s, p);
    }
  }

  /** With non-negative prices and positive quantities the total is non-negative. */
  lemma {:induction false} TotalNonNegative(c: Cart, p: Prices)
    requires forall s | s in p :: p[s] >= 0
    requires AllPositive(c)
    ensures Total(c, p) >= 0
  {
    if c != [] {
      assert c[0].qty >= 1;
      TotalNonNegative(c[1..], p);
    }
  }

  /** The worked example: two bags of espresso beans at 12.00 and one latte mix
      at 9.00 come to 33.00; a slug the catalog no longer lists adds nothing. */
  lemma {:induction false} TotalExample()
    ensures Total([Line("espresso-beans", 2), Line("latte-mix", 1)],
                  map["espresso-beans" := 1200, "latte-mix" := 900]) == 3300
    ensures Total([Line("espresso-beans", 2), Line("latte-mix", 1), Line("ghost-item", 3)],
                  map["espresso-beans" := 1200, "latte-mix" := 900]) == 3300
  {
    var p := map["espresso-beans" := 1200, "latte-mix" := 900];
    var c := [Line("espresso-beans", 2), Line("latte-mix", 1), Line("ghost-item", 3)];
    assert c[1..][1..][1..] == [];
    assert Price(p, "ghost-item") == 0;
  }

  /** The GET loop: accumulate `total += subtotal` and append one priced row per
      cart entry, in cart order. Its total is the submit-time sum. */
  method PriceLines(c: Cart, p: Prices) returns (lines: seq<PricedLine>, total: int)
    ensures |lines| == |c|
    ensures forall k | 0 <= k < |c| :: lines[k] == PriceLine(p, c[k])
    ensures total == Total(c, p)
  {
    lines, total := [], 0;
    var i := 0;
    while i < |c|
      invariant 0 <= i <= |c|
      invariant |lines| == i
      invariant forall k | 0 <= k < i :: lines[k] == PriceLine(p, c[k])
      invariant total == Total(c[..i], p)
    {
      var price := Price(p, c[i].slug);
      var subtotal := price * c[i].qty;
      assert c[..i + 1] == c[..i] + [c[i]];
      TotalAppend(c[..i], c[i], p);
      total := total + subtotal;
      lines := lines + [PricedLine(c[i].slug, c[i].qty, price, subtotal)];
      i := i + 1;
    }
    assert c[..i] == c;
  }
}
