/**
 * The shopping cart of one session: an insertion-ordered dictionary from
 * product slug to quantity, written as a sequence of lines whose slugs are
 * distinct. Assigning to a key that is present keeps its position; assigning
 * to a new key appends it; deleting a key removes its line.
 */
module Carts {

  type Slug = string

  datatype Line = Line(slug: Slug, qty: int)

  type Cart = seq<Line>

  /** The slugs that have an entry in the cart (the dictionary's keys). */
  function Slugs(c: Cart): set<Slug>
  {
    if c == [] then {} else {c[0].slug} + Slugs(c[1..])
  }

  /** No slug has two entries: the sequence really is a dictionary. */
  predicate Distinct(c: Cart)
  {
    c == [] || (c[0].slug !in Slugs(c[1..]) && Distinct(c[1..]))
  }

  /** `cart.get(slug, 0)`. */
  function Get(c: Cart, s: Slug): int
  {
    if c == [] then 0
    else if c[0].slug == s then c[0].qty
    else Get(c[1..], s)
  }

  /** `cart[slug] = v`: overwrite in place, or append a new entry. */
  function Set(c: Cart, s: Slug, v: int): Cart
  {
    if c == [] then [Line(s, v)]
    else if c[0].slug == s then [Line(s, v)] + c[1..]
    else [c[0]] + Set(c[1..], s, v)
  }

  /** `del cart[slug]`. */
  function Delete(c: Cart, s: Slug): Cart
  {
    if c == [] then []
    else if c[0].slug == s then Delete(c[1..], s)
    else [c[0]] + Delete(c[1..], s)
  }

  /** Every held quantity is at least one. */
  predicate AllPositive(c: Cart)
  {
    forall i | 0 <= i < |c| :: c[i].qty >= 1
  }

  /** The cart after the add-to-cart update: `cart[item] = cart.get(item, 0) + quantity`. */
  function Added(c: Cart, s: Slug, q: int): Cart
  {
    Set(c, s, Get(c, s) + q)
  }

  /** The cart after the remove-from-cart update of a slug it holds:
      decrement when more than `q` is held, otherwise delete the entry. */
  function Removed(c: Cart, s: Slug, q: int): Cart
  {
    if Get(c, s) > q then Set(c, s, Get(c, s) - q) else Delete(c, s)
  }

  lemma {:induction false} SlugsAt(c: Cart, s: Slug)
    ensures s in Slugs(c) <==> exists i :: 0 <= i < |c| && c[i].slug == s
  {
    if c != [] {
      SlugsAt(c[1..], s);
      if s in Slugs(c[1..]) {
        var i :| 0 <= i < |c[1..]| && c[1..][i].slug == s;
        assert c[i + 1].slug == s;
      }
      if exists i :: 0 <= i < |c| && c[i].slug == s {
        var i :| 0 <= i < |c| && c[i].slug == s;
        if i > 0 { assert c[1..][i - 1].slug == s; }
      }
    }
  }

  /** A slug without an entry reads as zero. */
  lemma {:induction false} GetAbsent(c: Cart, s: Slug)
    requires s !in Slugs(c)
    ensures Get(c, s) == 0
  {
    if c != [] { GetAbsent(c[1..], s); }
  }

  /** After `cart[s] = v`, key `s` reads `v` and every other key reads as before. */
  lemma {:induction false} SetGet(c: Cart, s: Slug, v: int, t: Slug)
    ensures Get(Set(c, s, v), t) == if t == s then v else Get(c, t)
  {
    if c != [] && c[0].slug != s { SetGet(c[1..], s, v, t); }
  }

  lemma {:induction false} SetSlugs(c: Cart, s: Slug, v: int)
    ensures Slugs(Set(c, s, v)) == Slugs(c) + {s}
  {
    if c != [] && c[0].slug != s { SetSlugs(c[1..], s, v); }
  }

  lemma {:induction false} SetDistinct(c: Cart, s: Slug, v: int)
    requires Distinct(c)
    ensures Distinct(Set(c, s, v))
  {
    if c != [] && c[0].slug != s {
      SetDistinct(c[1..], s, v);
      SetSlugs(c[1..], s, v);
    }
  }

  /** Where `cart[s] = v` puts the entry: an existing key keeps its position and
      no other line moves; a new key is appended after all existing lines. */
  lemma {:induction false} SetAt(c: Cart, s: Slug, v: int)
    requires Distinct(c)
    ensures s !in Slugs(c) ==> Set(c, s, v) == c + [Line(s, v)]
    ensures s in Slugs(c) ==> (|Set(c, s, v)| == |c| &&
      forall i | 0 <= i < |c| :: Set(c, s, v)[i] == if c[i].slug == s then Line(s, v) else c[i])
  {
    if c != [] {
      SetAt(c[1..], s, v);
      if c[0].slug == s {
        SlugsAt(c[1..], s);
        forall i | 1 <= i < |c| ensures c[i].slug != s {
          assert c[1..][i - 1] == c[i];
        }
      } else if s in Slugs(c) {
        var r := Set(c, s, v);
        assert r == [c[0]] + Set(c[1..], s, v);
        forall i | 0 <= i < |c| ensures r[i] == if c[i].slug == s then Line(s, v) else c[i] {
          if i > 0 { assert c[1..][i - 1] == c[i]; }
        }
      }
    }
  }

  /** Writing back the value a key already holds changes nothing. */
  lemma {:induction false} SetSame(c: Cart, s: Slug)
    requires s in Slugs(c)
    ensures Set(c, s, Get(c, s)) == c
  {
    if c[0].slug != s { SetSame(c[1..], s); }
  }

  /** Two writes to one key: the second wins and the position is that of the first. */
  lemma {:induction false} SetSet(c: Cart, s: Slug, v: int, w: int)
    ensures Set(Set(c, s, v), s, w) == Set(c, s, w)
  {
    if c != [] && c[0].slug != s { SetSet(c[1..], s, v, w); }
  }

  /** After `del cart[s]`, key `s` is gone and every other key reads as before. */
  lemma {:induction false} DeleteGet(c: Cart, s: Slug, t: Slug)
    ensures Get(Delete(c, s), t) == if t == s then 0 else Get(c, t)
  {
    if c != [] {
      DeleteGet(c[1..], s, t);
    }
  }

  lemma {:induction false} DeleteSlugs(c: Cart, s: Slug)
    ensures Slugs(Delete(c, s)) == Slugs(c) - {s}
  {
    if c != [] { DeleteSlugs(c[1..], s); }
  }

  lemma {:induction false} DeleteDistinct(c: Cart, s: Slug)
    requires Distinct(c)
    ensures Distinct(Delete(c, s))
  {
    if c != [] {
      DeleteDistinct(c[1..], s);
      DeleteSlugs(c[1..], s);
    }
  }

  /** Deleting a key that is not there changes nothing. */
  lemma {:induction false} DeleteAbsent(c: Cart, s: Slug)
    requires s !in Slugs(c)
    ensures Delete(c, s) == c
  {
    if c != [] { DeleteAbsent(c[1..], s); }
  }

  /** Deleting a key that was just appended restores the cart. */
  lemma {:induction false} DeleteAfterAppend(c: Cart, s: Slug, v: int)
    requires s !in Slugs(c)
    ensures Delete(Set(c, s, v), s) == c
  {
    if c != [] { DeleteAfterAppend(c[1..], s, v); }
  }

  /** Deleting the key held at index `k` removes exactly that line: the others
      keep their relative order and values. */
  lemma {:induction false} DeleteAt(c: Cart, k: int)
    requires Distinct(c) && 0 <= k < |c|
    ensures Delete(c, c[k].slug) == c[..k] + c[k + 1..]
  {
    var s := c[k].slug;
    if k == 0 {
      DeleteAbsent(c[1..], s);
    } else {
      assert c[1..][k - 1] == c[k];
      DeleteAt(c[1..], k - 1);
      if c[0].slug == s {
        SlugsAt(c[1..], s);
        assert false;
      }
      assert c[..k] == [c[0]] + c[1..][..k - 1];
      assert c[k + 1..] == c[1..][k..];
    }
  }

  /** What adding `q` units of `s` does to the cart, read as a dictionary: the
      slug's quantity becomes its old value (0 if absent) plus `q`, the slug is a
      key afterwards, no other key changes, and the keys stay distinct. */
  lemma {:induction false} AddedSpec(c: Cart, s: Slug, q: int)
    requires Distinct(c)
    ensures Distinct(Added(c, s, q))
    ensures Slugs(Added(c, s, q)) == Slugs(c) + {s}
    ensures Get(Added(c, s, q), s) == Get(c, s) + q
    ensures forall t | t != s :: Get(Added(c, s, q), t) == Get(c, t)
    ensures s !in Slugs(c) ==> Get(c, s) == 0 && Added(c, s, q) == c + [Line(s, q)]
  {
    SetDistinct(c, s, Get(c, s) + q);
    SetSlugs(c, s, Get(c, s) + q);
    SetGet(c, s, Get(c, s) + q, s);
    forall t | t != s ensures Get(Added(c, s, q), t) == Get(c, t) {
      SetGet(c, s, Get(c, s) + q, t);
    }
    if s !in Slugs(c) {
      GetAbsent(c, s);
      SetAt(c, s, Get(c, s) + q);
    }
  }

  /** What removing `q` units of a held slug does: when more than `q` is held the
      quantity drops by exactly `q` (and stays at least 1); otherwise the entry is
      deleted. No other key changes and the keys stay distinct. */
  lemma {:induction false} RemovedSpec(c: Cart, s: Slug, q: int)
    requires Distinct(c) && s in Slugs(c)
    ensures Distinct(Removed(c, s, q))
    ensures Get(c, s) > q ==> (Slugs(Removed(c, s, q)) == Slugs(c) &&
      Get(Removed(c, s, q), s) == Get(c, s) - q >= 1)
    ensures Get(c, s) <= q ==> Slugs(Removed(c, s, q)) == Slugs(c) - {s}
    ensures forall t | t != s :: Get(Removed(c, s, q), t) == Get(c, t)
  {
    var v := Get(c, s);
    if v > q {
      SetDistinct(c, s, v - q);
      SetSlugs(c, s, v - q);
      SetGet(c, s, v - q, s);
      forall t | t != s ensures Get(Removed(c, s, q), t) == Get(c, t) {
        SetGet(c, s, v - q, t);
      }
    } else {
      DeleteDistinct(c, s);
      DeleteSlugs(c, s);
      forall t | t != s ensures Get(Removed(c, s, q), t) == Get(c, t) {
        DeleteGet(c, s, t);
      }
    }
  }

  /** Adding `q` units and then removing `q` units restores the cart exactly,
      position included, if and only if the slug was absent or held with a
      positive quantity. The quantity `q` itself may be any integer, because
      the add path does not check its sign. */
  lemma {:induction false} AddRemoveRoundTrip(c: Cart, s: Slug, q: int)
    requires Distinct(c)
    ensures s in Slugs(Added(c, s, q))
    ensures Removed(Added(c, s, q), s, q) == c <==> (s !in Slugs(c) || Get(c, s) > 0)
  {
    var v := Get(c, s);
    var a := Added(c, s, q);
    SetSlugs(c, s, v + q);
    SetGet(c, s, v + q, s);
    assert Get(a, s) == v + q;
    if s !in Slugs(c) {
      GetAbsent(c, s);
      DeleteAfterAppend(c, s, q);
    } else if v > 0 {
      SetSet(c, s, v + q, v);
      SetSame(c, s);
    } else {
      DeleteSlugs(a, s);
      assert s !in Slugs(Removed(a, s, q));
    }
  }

  /** Removing keeps the cart invariant: a cart of positive quantities stays so. */
  lemma {:induction false} RemovedKeepsPositive(c: Cart, s: Slug, q: int)
    requires Distinct(c) && s in Slugs(c) && AllPositive(c)
    ensures AllPositive(Removed(c, s, q))
  {
    var v := Get(c, s);
    if v > q {
      SetAt(c, s, v - q);
    } else {
      SlugsAt(c, s);
      var k :| 0 <= k < |c| && c[k].slug == s;
      DeleteAt(c, k);
      var r := Delete(c, s);
      forall i | 0 <= i < |r| ensures r[i].qty >= 1 {
        if i < k { assert r[i] == c[i]; } else { assert r[i] == c[i + 1]; }
      }
    }
  }

  /** Adding a positive quantity keeps the cart invariant, and adding a
      non-positive quantity of a new slug breaks it: the add path does not
      reject such quantities. */
  lemma {:induction false} AddedPositivity(c: Cart, s: Slug, q: int)
    requires Distinct(c) && AllPositive(c)
    ensures q >= 1 ==> AllPositive(Added(c, s, q))
    ensures s !in Slugs(c) && q <= 0 ==> !AllPositive(Added(c, s, q))
  {
    var v := Get(c, s);
    SetAt(c, s, v + q);
    if s in Slugs(c) {
      SlugsAt(c, s);
      var j :| 0 <= j < |c| && c[j].slug == s;
      GetAt(c, j);
      assert v >= 1;
    } else {
      GetAbsent(c, s);
      assert Added(c, s, q)[|c|] == Line(s, q);
    }
  }

  /** In a distinct cart, the line at index `j` is what `Get` reads for its slug. */
  lemma {:induction false} GetAt(c: Cart, j: int)
    requires Distinct(c) && 0 <= j < |c|
    ensures Get(c, c[j].slug) == c[j].qty
  {
    if j > 0 {
      GetAt(c[1..], j - 1);
      if c[0].slug == c[j].slug {
        SlugsAt(c[1..], c[j].slug);
        assert false;
      }
    }
  }
}
