/**
 * The point-of-sale screen (src/components/POS.tsx): the cart, the stock
 * figure shown per product, the search filter, and the two optimistic write
 * paths, checkout and add-product. `products` and `inventory` are the
 * screen's live-query snapshots: the tenant's products and the outlet's
 * inventory rows that are not deleted, in the order the query returned them.
 */
module Pos {
  import opened Wrappers
  import opened Text
  import opened Db
  import opened Session
  import opened Forms
  import SyncEngine

  // ---------------------------------------------------------------------
  // The cart: a list of product ids, one entry per unit

  /** `cart.filter(id => id === productId).length`. */
  function Occurrences(cart: seq<string>, id: string): nat
  {
    if cart == [] then 0 else Occurrences(cart[..|cart| - 1], id) + (if cart[|cart| - 1] == id then 1 else 0)
  }

  /** The count is the id's multiplicity in the cart. */
  lemma {:induction false} OccurrencesMultiplicity(cart: seq<string>, id: string)
    ensures Occurrences(cart, id) == multiset(cart)[id]
  {
    if cart != [] {
      OccurrencesMultiplicity(cart[..|cart| - 1], id);
      assert cart == cart[..|cart| - 1] + [cart[|cart| - 1]];
    }
  }

  /** `cart.indexOf(id)`: the first position of id, or -1. */
  function IndexOf(cart: seq<string>, id: string): (i: int)
    ensures -1 <= i < |cart|
    ensures i == -1 <==> id !in cart
    ensures i >= 0 ==> cart[i] == id && id !in cart[..i]
  {
    if cart == [] then -1
    else if cart[0] == id then 0
    else
      var j := IndexOf(cart[1..], id);
      if j == -1 then -1
      else
        assert cart[..j + 1] == [cart[0]] + cart[1..][..j];
        j + 1
  }

  /** removeFromCart: drop the first occurrence of id; an absent id leaves the cart as it is. */
  function WithRemoved(cart: seq<string>, id: string): (r: seq<string>)
    ensures id !in cart ==> r == cart
    ensures id in cart ==> |r| == |cart| - 1
    ensures id in cart ==> r[..IndexOf(cart, id)] == cart[..IndexOf(cart, id)]
    ensures id in cart ==> forall j :: IndexOf(cart, id) <= j < |r| ==> r[j] == cart[j + 1]
  {
    var i := IndexOf(cart, id);
    if i == -1 then cart
    else
      var r := cart[..i] + cart[i + 1..];
      assert r[..i] == cart[..i];
      assert forall j :: i <= j < |r| ==> r[j] == cart[i + 1..][j - i];
      r
  }

  /** Removing takes exactly one unit of id out of the cart and leaves every other unit. */
  lemma WithRemovedUnits(cart: seq<string>, id: string)
    requires id in cart
    ensures multiset(WithRemoved(cart, id)) == multiset(cart) - multiset{id}
  {
    var i := IndexOf(cart, id);
    assert cart == cart[..i] + [id] + cart[i + 1..];
    assert WithRemoved(cart, id) == cart[..i] + cart[i + 1..];
  }

  /** Tapping a product and then removing it again leaves the same units in the cart. */
  lemma AddThenRemove(cart: seq<string>, id: string)
    ensures multiset(WithRemoved(cart + [id], id)) == multiset(cart)
    ensures id !in cart ==> WithRemoved(cart + [id], id) == cart
  {
    assert id in cart + [id];
    WithRemovedUnits(cart + [id], id);
    if id !in cart {
      assert IndexOf(cart + [id], id) == |cart|;
      assert (cart + [id])[..|cart|] == cart;
    }
  }

  // ---------------------------------------------------------------------
  // Catalogue lookups

  predicate ProductIdsDistinct(products: seq<Product>)
  {
    forall i, j :: 0 <= i < j < |products| ==> products[i].id != products[j].id
  }

  /** `products.findIndex(p => p.id === id)`, with |products| for none. */
  function ProductIndex(products: seq<Product>, id: string): (i: nat)
    ensures i <= |products|
    ensures i < |products| ==> products[i].id == id
    ensures forall j :: 0 <= j < i ==> products[j].id != id
  {
    if products == [] || products[0].id == id then 0 else 1 + ProductIndex(products[1..], id)
  }

  /** `products.find(p => p.id === id)`: the first catalogue entry with that id. */
  function FindProduct(products: seq<Product>, id: string): (r: Option<Product>)
    ensures r.None? <==> forall i :: 0 <= i < |products| ==> products[i].id != id
    ensures r.Some? ==> r.value == products[ProductIndex(products, id)] && r.value.id == id
  {
    var i := ProductIndex(products, id);
    if i < |products| then Some(products[i]) else None
  }

  /** The unit price a cart entry is charged at: the catalogue price, or nothing for an unknown id. */
  function PriceOf(products: seq<Product>, id: string): real
  {
    match FindProduct(products, id)
    case None => 0.0
    case Some(p) => p.body.price
  }

  // ---------------------------------------------------------------------
  // Cart total

  /**
   * cartTotal: the sum over the products of price x units in the cart
   * (in exact arithmetic the order of the sum does not matter).
   */
  function CartTotal(products: seq<Product>, cart: seq<string>): real
  {
    if products == [] then 0.0
    else Charge(products[0].body.price, Occurrences(cart, products[0].id)) + CartTotal(products[1..], cart)
  }

  /** price x qty, written as qty additions of the price so that sums of charges stay linear. */
  function Charge(price: real, qty: nat): real
  {
    if qty == 0 then 0.0 else Charge(price, qty - 1) + price
  }

  /** Charge is the product the source computes. */
  lemma {:induction false} ChargeIsProduct(price: real, qty: nat)
    ensures Charge(price, qty) == price * (qty as real)
  {
    if qty > 0 {
      ChargeIsProduct(price, qty - 1);
      assert price * ((qty - 1) as real) + price == price * (qty as real);
    }
  }

  /** The reference the totals are checked against: every cart entry at its catalogue price. */
  function CartSum(cart: seq<string>, products: seq<Product>): real
  {
    if cart == [] then 0.0 else CartSum(cart[..|cart| - 1], products) + PriceOf(products, cart[|cart| - 1])
  }

  lemma OccurrencesAppend(cart: seq<string>, x: string, id: string)
    ensures Occurrences(cart + [x], id) == Occurrences(cart, id) + (if x == id then 1 else 0)
  {
    assert (cart + [x])[..|cart|] == cart;
  }

  lemma {:induction false} CartTotalEmpty(products: seq<Product>)
    ensures CartTotal(products, []) == 0.0
  {
    if products != [] {
      CartTotalEmpty(products[1..]);
    }
  }

  /** One more unit of x raises cartTotal by x's price (when product ids are distinct). */
  lemma {:induction false} CartTotalAppend(products: seq<Product>, cart: seq<string>, x: string)
    requires ProductIdsDistinct(products)
    ensures CartTotal(products, cart + [x]) == CartTotal(products, cart) + PriceOf(products, x)
  {
    if products != [] {
      var p, rest := products[0], products[1..];
      CartTotalAppend(rest, cart, x);
      OccurrencesAppend(cart, x, p.id);
      if p.id == x {
        assert FindProduct(rest, x).None? by {
          forall i | 0 <= i < |rest| ensures rest[i].id != x {
            assert rest[i] == products[i + 1];
          }
        }
      }
    }
  }

  /** cartTotal equals the sum of every cart entry at its catalogue price. */
  lemma {:induction false} CartTotalIsCartSum(products: seq<Product>, cart: seq<string>)
    requires ProductIdsDistinct(products)
    ensures CartTotal(products, cart) == CartSum(cart, products)
  {
    if cart == [] {
      CartTotalEmpty(products);
    } else {
      var c, x := cart[..|cart| - 1], cart[|cart| - 1];
      CartTotalIsCartSum(products, c);
      assert cart == c + [x];
      CartTotalAppend(products, c, x);
    }
  }

  /** Only the units in the cart matter to cartTotal, not the order they were tapped in. */
  lemma CartTotalIgnoresOrder(products: seq<Product>, c1: seq<string>, c2: seq<string>)
    requires multiset(c1) == multiset(c2)
    ensures CartTotal(products, c1) == CartTotal(products, c2)
  {
    if products != [] {
      CartTotalIgnoresOrder(products[1..], c1, c2);
      OccurrencesMultiplicity(c1, products[0].id);
      OccurrencesMultiplicity(c2, products[0].id);
    }
  }

  /** Adding a unit and removing it again leaves cartTotal where it was. */
  lemma AddThenRemoveKeepsTotal(products: seq<Product>, cart: seq<string>, id: string)
    ensures CartTotal(products, WithRemoved(cart + [id], id)) == CartTotal(products, cart)
  {
    AddThenRemove(cart, id);
    CartTotalIgnoresOrder(products, WithRemoved(cart + [id], id), cart);
  }

  // ---------------------------------------------------------------------
  // Checkout lines

  predicate Distinct(ids: seq<string>)
  {
    forall i, j :: 0 <= i < j < |ids| ==> ids[i] != ids[j]
  }

  /** The keys of countByProduct in the order the loop first met them. */
  function DistinctIds(cart: seq<string>): (r: seq<string>)
    ensures Distinct(r)
    ensures |r| <= |cart|
    ensures forall id :: id in r <==> id in cart
  {
    if cart == [] then []
    else
      var prefix := DistinctIds(cart[..|cart| - 1]);
      var x := cart[|cart| - 1];
      assert cart == cart[..|cart| - 1] + [x];
      if x in prefix then prefix else prefix + [x]
  }

  /** The line for one distinct id: none for an id not in the catalogue. */
  function LineFor(id: string, cart: seq<string>, products: seq<Product>): (r: seq<SaleLine>)
    ensures |r| <= 1
  {
    match FindProduct(products, id)
    case None => []
    case Some(p) =>
      var qty := Occurrences(cart, id);
      [SaleLine(id, qty, p.body.price, Charge(p.body.price, qty))]
  }

  /** The lines for a list of ids: the line of each id in turn. */
  function LinesFor(ids: seq<string>, cart: seq<string>, products: seq<Product>): (r: seq<SaleLine>)
    ensures |r| <= |ids|
  {
    if ids == [] then [] else LinesFor(ids[..|ids| - 1], cart, products) + LineFor(ids[|ids| - 1], cart, products)
  }

  /** A line charges a catalogue product at its price for every unit of it in the cart. */
  predicate ChargesCart(l: SaleLine, cart: seq<string>, products: seq<Product>)
  {
    && FindProduct(products, l.productId).Some?
    && l.quantity == Occurrences(cart, l.productId)
    && l.unitPrice == PriceOf(products, l.productId)
    && l.lineTotal == Charge(l.unitPrice, l.quantity)
  }

  /** Line i charges a catalogue product found among the ids, at its price, for all its units in the cart. */
  lemma {:induction false} LinesForCharge(ids: seq<string>, cart: seq<string>, products: seq<Product>, i: nat)
    requires i < |LinesFor(ids, cart, products)|
    ensures LinesFor(ids, cart, products)[i].productId in ids
    ensures ChargesCart(LinesFor(ids, cart, products)[i], cart, products)
  {
    var prefix, x := ids[..|ids| - 1], ids[|ids| - 1];
    var p := LinesFor(prefix, cart, products);
    assert LinesFor(ids, cart, products) == p + LineFor(x, cart, products);
    assert ids == prefix + [x];
    if i < |p| {
      LinesForCharge(prefix, cart, products, i);
    }
  }

  /** An id found in the catalogue gets a line; an unknown id gets none. */
  lemma {:induction false} LinesForCover(ids: seq<string>, cart: seq<string>, products: seq<Product>, id: string)
    requires id in ids && FindProduct(products, id).Some?
    ensures exists i :: 0 <= i < |LinesFor(ids, cart, products)| && LinesFor(ids, cart, products)[i].productId == id
  {
    var prefix, x := ids[..|ids| - 1], ids[|ids| - 1];
    var p := LinesFor(prefix, cart, products);
    var r := LinesFor(ids, cart, products);
    assert r == p + LineFor(x, cart, products);
    assert ids == prefix + [x];
    if id == x {
      assert r[|p|].productId == id;
    } else {
      LinesForCover(prefix, cart, products, id);
      var i :| 0 <= i < |p| && p[i].productId == id;
      assert r[i] == p[i];
    }
  }

  /** Distinct ids give lines for distinct products. */
  lemma {:induction false} LinesForDistinct(ids: seq<string>, cart: seq<string>, products: seq<Product>, i: nat, j: nat)
    requires Distinct(ids) && i < j < |LinesFor(ids, cart, products)|
    ensures LinesFor(ids, cart, products)[i].productId != LinesFor(ids, cart, products)[j].productId
  {
    var prefix, x := ids[..|ids| - 1], ids[|ids| - 1];
    var p := LinesFor(prefix, cart, products);
    var r := LinesFor(ids, cart, products);
    assert r == p + LineFor(x, cart, products);
    assert Distinct(prefix);
    LinesForCharge(prefix, cart, products, i);
    assert r[i] == p[i];
    if j < |p| {
      LinesForDistinct(prefix, cart, products, i, j);
    } else {
      assert x !in prefix;
    }
  }

  /** The lines checkout builds for a cart. */
  function CartLines(cart: seq<string>, products: seq<Product>): (r: seq<SaleLine>)
    ensures |r| <= |cart|
  {
    LinesFor(DistinctIds(cart), cart, products)
  }

  /**
   * The SALE payload's lines: one per distinct product of the cart found in
   * the catalogue, none for an unknown id, none twice, each charging every
   * unit of its product in the cart at the catalogue price.
   */
  lemma CartLinesShape(cart: seq<string>, products: seq<Product>)
    ensures forall i :: 0 <= i < |CartLines(cart, products)| ==>
              CartLines(cart, products)[i].productId in cart && ChargesCart(CartLines(cart, products)[i], cart, products)
    ensures forall id :: id in cart && FindProduct(products, id).Some? ==>
              exists i :: 0 <= i < |CartLines(cart, products)| && CartLines(cart, products)[i].productId == id
    ensures forall i, j :: 0 <= i < j < |CartLines(cart, products)| ==>
              CartLines(cart, products)[i].productId != CartLines(cart, products)[j].productId
  {
    var d := DistinctIds(cart);
    var r := CartLines(cart, products);
    forall i | 0 <= i < |r| ensures r[i].productId in cart && ChargesCart(r[i], cart, products) {
      LinesForCharge(d, cart, products, i);
    }
    forall id | id in cart && FindProduct(products, id).Some? ensures exists i :: 0 <= i < |r| && r[i].productId == id {
      LinesForCover(d, cart, products, id);
    }
    forall i, j | 0 <= i < j < |r| ensures r[i].productId != r[j].productId {
      LinesForDistinct(d, cart, products, i, j);
    }
  }

  /** `totalAmount += lineTotal` over the lines. */
  function LinesTotal(lines: seq<SaleLine>): real
  {
    if lines == [] then 0.0 else LinesTotal(lines[..|lines| - 1]) + lines[|lines| - 1].lineTotal
  }

  lemma LinesTotalAppend(a: seq<SaleLine>, b: seq<SaleLine>)
    requires |b| <= 1
    ensures LinesTotal(a + b) == LinesTotal(a) + LinesTotal(b)
  {
    if b != [] {
      assert (a + b)[..|a|] == a;
      assert b[..0] == [];
    } else {
      assert a + b == a;
    }
  }

  /** Σ over ids of price x units: what the lines for those ids add up to. */
  function Weighted(ids: seq<string>, cart: seq<string>, products: seq<Product>): real
  {
    if ids == [] then 0.0
    else Weighted(ids[..|ids| - 1], cart, products) +
         Charge(PriceOf(products, ids[|ids| - 1]), Occurrences(cart, ids[|ids| - 1]))
  }

  lemma {:induction false} LinesTotalIsWeighted(ids: seq<string>, cart: seq<string>, products: seq<Product>)
    ensures LinesTotal(LinesFor(ids, cart, products)) == Weighted(ids, cart, products)
  {
    if ids != [] {
      var prefix, x := ids[..|ids| - 1], ids[|ids| - 1];
      LinesTotalIsWeighted(prefix, cart, products);
      var l := LineFor(x, cart, products);
      LinesTotalAppend(LinesFor(prefix, cart, products), l);
      if l != [] {
        assert l[..0] == [];
        assert LinesTotal(l) == l[0].lineTotal;
      } else {
        ChargeZero(Occurrences(cart, x));
      }
    }
  }

  lemma {:induction false} ChargeZero(qty: nat)
    ensures Charge(0.0, qty) == 0.0
  {
    if qty > 0 {
      ChargeZero(qty - 1);
    }
  }

  /** One more unit of x adds x's price to the weighted sum when x is among the (distinct) ids. */
  lemma {:induction false} WeightedAppend(ids: seq<string>, cart: seq<string>, products: seq<Product>, x: string)
    requires Distinct(ids)
    ensures Weighted(ids, cart + [x], products) ==
            Weighted(ids, cart, products) + (if x in ids then PriceOf(products, x) else 0.0)
  {
    if ids != [] {
      var prefix, y := ids[..|ids| - 1], ids[|ids| - 1];
      assert ids == prefix + [y];
      assert Distinct(prefix);
      WeightedAppend(prefix, cart, products, x);
      WeightedLast(ids, cart, products);
      WeightedLast(ids, cart + [x], products);
      OccurrencesAppend(cart, x, y);
      if y == x {
        assert x !in prefix;
      } else {
        assert x in ids <==> x in prefix;
      }
    }
  }

  /** The weighted sum splits into the sum over all ids but the last, plus the last id's charge. */
  lemma WeightedLast(ids: seq<string>, cart: seq<string>, products: seq<Product>)
    requires ids != []
    ensures Weighted(ids, cart, products) ==
            Weighted(ids[..|ids| - 1], cart, products) +
            Charge(PriceOf(products, ids[|ids| - 1]), Occurrences(cart, ids[|ids| - 1]))
  {
  }

  lemma WeightedSnoc(ids: seq<string>, x: string, cart: seq<string>, products: seq<Product>)
    ensures Weighted(ids + [x], cart, products) ==
            Weighted(ids, cart, products) + Charge(PriceOf(products, x), Occurrences(cart, x))
  {
    assert (ids + [x])[..|ids|] == ids;
  }

  /** A new id with a single unit in the cart adds its price once. */
  lemma WeightedNewId(d: seq<string>, c: seq<string>, x: string, products: seq<Product>)
    requires x !in c
    ensures Weighted(d + [x], c + [x], products) == Weighted(d, c + [x], products) + PriceOf(products, x)
  {
    WeightedSnoc(d, x, c + [x], products);
    OccurrencesMultiplicity(c, x);
    OccurrencesAppend(c, x, x);
    assert Charge(PriceOf(products, x), 1) == PriceOf(products, x);
  }

  /** The weighted sum over the cart's distinct ids is the entry-by-entry sum. */
  lemma {:induction false} LinesTotalIsCartSum(cart: seq<string>, products: seq<Product>)
    ensures Weighted(DistinctIds(cart), cart, products) == CartSum(cart, products)
  {
    if cart != [] {
      var c, x := cart[..|cart| - 1], cart[|cart| - 1];
      LinesTotalIsCartSum(c, products);
      var d := DistinctIds(c);
      assert cart == c + [x];
      assert CartSum(cart, products) == CartSum(c, products) + PriceOf(products, x);
      WeightedAppend(d, c, products, x);
      DistinctIdsSnoc(c, x);
      assert x in d <==> x in c;
      if x !in c {
        WeightedNewId(d, c, x, products);
      }
    }
  }

  /**
   * The sale total checkout records equals the cart total the screen shows,
   * for a catalogue with distinct ids: both charge every cart entry found in
   * the catalogue at its price and ignore unknown ids.
   */
  lemma CheckoutTotalIsCartTotal(cart: seq<string>, products: seq<Product>)
    requires ProductIdsDistinct(products)
    ensures LinesTotal(CartLines(cart, products)) == CartTotal(products, cart)
  {
    LinesTotalIsWeighted(DistinctIds(cart), cart, products);
    LinesTotalIsCartSum(cart, products);
    CartTotalIsCartSum(products, cart);
  }

  /** countByProduct holds, for exactly the ids in c, the number of units of each. */
  ghost predicate Counted(counts: map<string, nat>, c: seq<string>)
  {
    && (forall id :: id in counts <==> id in c)
    && (forall id :: id in counts ==> counts[id] == Occurrences(c, id))
  }

  /** `counts[id] = (counts[id] || 0) + 1` counts one more entry. */
  lemma CountedStep(counts: map<string, nat>, c: seq<string>, id: string)
    requires Counted(counts, c)
    ensures Counted(counts[id := (if id in counts then counts[id] else 0) + 1], c + [id])
  {
    forall other ensures Occurrences(c + [id], other) == Occurrences(c, other) + (if other == id then 1 else 0) {
      OccurrencesAppend(c, id, other);
    }
    if id !in counts {
      OccurrencesMultiplicity(c, id);
    }
  }

  lemma DistinctIdsSnoc(c: seq<string>, x: string)
    ensures DistinctIds(c + [x]) == if x in c then DistinctIds(c) else DistinctIds(c) + [x]
  {
    assert (c + [x])[..|c|] == c;
  }

  /** One pass of the count loop, over cart[i]. */
  lemma CountStep(cart: seq<string>, i: nat, counts: map<string, nat>, order: seq<string>)
    requires i < |cart| && order == DistinctIds(cart[..i]) && Counted(counts, cart[..i])
    ensures (if cart[i] in counts then order else order + [cart[i]]) == DistinctIds(cart[..i + 1])
    ensures Counted(counts[cart[i] := (if cart[i] in counts then counts[cart[i]] else 0) + 1], cart[..i + 1])
  {
    assert cart[..i + 1] == cart[..i] + [cart[i]];
    DistinctIdsSnoc(cart[..i], cart[i]);
    CountedStep(counts, cart[..i], cart[i]);
  }

  /** The count loop of checkout: countByProduct and the order its keys were first met in. */
  method CountUnits(cart: seq<string>) returns (counts: map<string, nat>, order: seq<string>)
    ensures order == DistinctIds(cart)
    ensures Counted(counts, cart)
  {
    counts, order := map[], [];
    for i := 0 to |cart|
      invariant order == DistinctIds(cart[..i])
      invariant Counted(counts, cart[..i])
    {
      var id := cart[i];
      CountStep(cart, i, counts, order);
      if id !in counts {
        order := order + [id];
      }
      counts := counts[id := (if id in counts then counts[id] else 0) + 1];
    }
    assert cart[..|cart|] == cart;
  }

  lemma LinesForSnoc(ids: seq<string>, x: string, cart: seq<string>, products: seq<Product>)
    ensures LinesFor(ids + [x], cart, products) == LinesFor(ids, cart, products) + LineFor(x, cart, products)
  {
    assert (ids + [x])[..|ids|] == ids;
  }

  /** One checkout line: `lineTotal = price * qty`. */
  method MakeLine(id: string, price: real, qty: nat) returns (line: SaleLine)
    ensures line == SaleLine(id, qty, price, Charge(price, qty))
  {
    ChargeIsProduct(price, qty);
    line := SaleLine(id, qty, price, price * (qty as real));
  }

  /** One pass of the lines loop, over order[j]: the line it appends and what it adds to the total. */
  lemma LinesStep(cart: seq<string>, products: seq<Product>, counts: map<string, nat>, order: seq<string>, j: nat)
    requires order == DistinctIds(cart) && Counted(counts, cart) && j < |order|
    ensures order[j] in counts
    ensures LinesFor(order[..j + 1], cart, products) == LinesFor(order[..j], cart, products) + LineFor(order[j], cart, products)
    ensures LineFor(order[j], cart, products) ==
            match FindProduct(products, order[j])
            case None => []
            case Some(p) => [SaleLine(order[j], counts[order[j]], p.body.price, Charge(p.body.price, counts[order[j]]))]
    ensures LinesTotal(LinesFor(order[..j + 1], cart, products)) ==
            LinesTotal(LinesFor(order[..j], cart, products)) +
            match FindProduct(products, order[j])
            case None => 0.0
            case Some(p) => Charge(p.body.price, counts[order[j]])
  {
    var id := order[j];
    assert order[..j + 1] == order[..j] + [id];
    LinesForSnoc(order[..j], id, cart, products);
    assert id in cart;
    LinesTotalAppend(LinesFor(order[..j], cart, products), LineFor(id, cart, products));
    if FindProduct(products, id).None? {
      assert LineFor(id, cart, products) == [];
    }
  }

  /** The lines loop of checkout, after the count loop. */
  method BuildLines(cart: seq<string>, products: seq<Product>) returns (lines: seq<SaleLine>, total: real)
    ensures lines == CartLines(cart, products)
    ensures total == LinesTotal(lines)
  {
    var counts, order := CountUnits(cart);
    lines, total := [], 0.0;
    for j := 0 to |order|
      invariant lines == LinesFor(order[..j], cart, products)
      invariant total == LinesTotal(lines)
    {
      var id := order[j];
      LinesStep(cart, products, counts, order, j);
      var product := FindProduct(products, id);
      if product.Some? {
        var line := MakeLine(id, product.value.body.price, counts[id]);
        total := total + line.lineTotal;
        lines := lines + [line];
      }
    }
    assert order[..|order|] == order;
  }

  // ---------------------------------------------------------------------
  // Stock

  /** `inventory.filter(i => i.product_id === productId)`. */
  function RowsFor(inventory: seq<Inventory>, productId: string): (r: seq<Inventory>)
    ensures |r| <= |inventory|
    ensures forall x :: x in r <==> x in inventory && x.body.productId == productId
  {
    if inventory == [] then []
    else
      var prefix := RowsFor(inventory[..|inventory| - 1], productId);
      var x := inventory[|inventory| - 1];
      assert inventory == inventory[..|inventory| - 1] + [x];
      if x.body.productId == productId then prefix + [x] else prefix
  }

  /**
   * The position `rows.reduce((a, b) => a.version_id > b.version_id ? a : b)`
   * ends at: a row of the highest version, and the last such row, since a tie
   * goes to the later row.
   */
  function NewestIndex(rows: seq<Inventory>): (k: nat)
    requires rows != []
    ensures k < |rows|
    ensures forall j :: 0 <= j < |rows| ==> rows[j].versionId <= rows[k].versionId
    ensures forall j :: k < j < |rows| ==> rows[j].versionId < rows[k].versionId
  {
    if |rows| == 1 then 0
    else
      var n := |rows| - 1;
      var k := NewestIndex(rows[..n]);
      assert rows[..n][k] == rows[k];
      if rows[k].versionId > rows[n].versionId then k else n
  }

  /** The row the reduce returns. */
  function Newest(rows: seq<Inventory>): (r: Inventory)
    requires rows != []
    ensures r in rows
    ensures forall x :: x in rows ==> x.versionId <= r.versionId
  {
    rows[NewestIndex(rows)]
  }

  /** getQty: the quantity of the product's newest row, never below 0, and 0 when it has no row. */
  function GetQty(inventory: seq<Inventory>, productId: string): (q: nat)
    ensures (forall x :: x in inventory ==> x.body.productId != productId) ==> q == 0
    ensures (exists x :: x in inventory && x.body.productId == productId) ==>
              exists x :: && x in inventory && x.body.productId == productId
                          && (forall y :: y in inventory && y.body.productId == productId ==> y.versionId <= x.versionId)
                          && q == (if x.body.quantity > 0 then x.body.quantity else 0)
  {
    var rows := RowsFor(inventory, productId);
    if rows == [] then 0
    else
      var x := Newest(rows);
      if x.body.quantity > 0 then x.body.quantity else 0
  }

  /** The index `inventory.find(i => i.product_id === productId)` stops at. */
  function StockIndex(inventory: seq<Inventory>, productId: string): (i: nat)
    ensures i <= |inventory|
    ensures i < |inventory| ==> inventory[i].body.productId == productId
    ensures forall j :: 0 <= j < i ==> inventory[j].body.productId != productId
  {
    if inventory == [] || inventory[0].body.productId == productId then 0
    else 1 + StockIndex(inventory[1..], productId)
  }

  /** `inventory.find(i => i.product_id === productId)`: the first row of the snapshot for the product. */
  function FindStock(inventory: seq<Inventory>, productId: string): (r: Option<Inventory>)
    ensures r.None? <==> forall x :: x in inventory ==> x.body.productId != productId
    ensures r.Some? ==> r.value in inventory && r.value.body.productId == productId
    ensures r.Some? ==> exists i :: && 0 <= i < |inventory| && inventory[i] == r.value
                                    && forall j :: 0 <= j < i ==> inventory[j].body.productId != productId
  {
    var i := StockIndex(inventory, productId);
    if i < |inventory| then Some(inventory[i]) else None
  }

  /**
   * Checkout reads the first row of a product, getQty the newest: with two
   * rows for one product, the row checkout decrements is not the row whose
   * quantity the screen shows.
   */
  lemma CheckoutAndGetQtyReadDifferentRows()
    ensures exists inventory: seq<Inventory>, productId: string ::
              && FindStock(inventory, productId).Some?
              && FindStock(inventory, productId).value != Newest(RowsFor(inventory, productId))
  {
    var older := Record("a", 1, None, InventoryBody("t", "o", "p", 5, None, None));
    var newer := Record("b", 2, None, InventoryBody("t", "o", "p", 7, None, None));
    var inventory := [older, newer];
    assert inventory[..1] == [older];
    assert RowsFor([older], "p") == [older] by {
      assert [older][..0] == [];
    }
    assert RowsFor(inventory, "p") == inventory;
    assert FindStock(inventory, "p") == Some(older);
  }

  // ---------------------------------------------------------------------
  // Checkout's writes

  /** The sale_items row for a line. */
  function ItemRow(id: string, tenantId: string, outletId: string, saleId: string, line: SaleLine): SaleItem
  {
    Record(id, 0, None, SaleItemBody(tenantId, outletId, saleId, line.productId, line.quantity,
                                     line.unitPrice, line.lineTotal, None))
  }

  /** The sale_items adds: line i under the i-th generated id. */
  function WithItems(t: map<string, SaleItem>, itemIds: seq<string>, tenantId: string, outletId: string,
                     saleId: string, lines: seq<SaleLine>): (r: map<string, SaleItem>)
    requires |itemIds| >= |lines|
    ensures Keyed(t) ==> Keyed(r)
  {
    if lines == [] then t
    else
      var n := |lines| - 1;
      WithItems(t, itemIds, tenantId, outletId, saleId, lines[..n])[itemIds[n] := ItemRow(itemIds[n], tenantId, outletId, saleId, lines[n])]
  }

  /** With distinct generated ids, line i is stored under the i-th id. */
  lemma {:induction false} WithItemsLine(t: map<string, SaleItem>, itemIds: seq<string>, tenantId: string, outletId: string,
                                         saleId: string, lines: seq<SaleLine>, i: nat)
    requires |itemIds| >= |lines| && Distinct(itemIds) && i < |lines|
    ensures var r := WithItems(t, itemIds, tenantId, outletId, saleId, lines);
            itemIds[i] in r && r[itemIds[i]] == ItemRow(itemIds[i], tenantId, outletId, saleId, lines[i])
  {
    var n := |lines| - 1;
    if i < n {
      assert itemIds[i] != itemIds[n];
      assert lines[..n][i] == lines[i];
      WithItemsLine(t, itemIds, tenantId, outletId, saleId, lines[..n], i);
    }
  }

  /** A key that is none of the ids used keeps its row, and no other key appears. */
  lemma {:induction false} WithItemsOthers(t: map<string, SaleItem>, itemIds: seq<string>, tenantId: string, outletId: string,
                                           saleId: string, lines: seq<SaleLine>, k: string)
    requires |itemIds| >= |lines| && k !in itemIds[..|lines|]
    ensures var r := WithItems(t, itemIds, tenantId, outletId, saleId, lines);
            (k in r <==> k in t) && (k in t ==> r[k] == t[k])
  {
    if lines != [] {
      var n := |lines| - 1;
      assert itemIds[..|lines|] == itemIds[..n] + [itemIds[n]];
      WithItemsOthers(t, itemIds, tenantId, outletId, saleId, lines[..n], k);
    }
  }

  /** One line's inventory update: its first snapshot row set to the snapshot quantity minus the line's units. */
  function DecrementLine(t: map<string, Inventory>, snapshot: seq<Inventory>, line: SaleLine): (r: map<string, Inventory>)
    ensures r.Keys == t.Keys
  {
    match FindStock(snapshot, line.productId)
    case None => t
    case Some(inv) => SetQuantity(t, inv.id, inv.body.quantity - line.quantity)
  }

  /** The inventory updates of all lines, in order. */
  function Decremented(t: map<string, Inventory>, snapshot: seq<Inventory>, lines: seq<SaleLine>): (r: map<string, Inventory>)
    ensures r.Keys == t.Keys
  {
    if lines == [] then t
    else DecrementLine(Decremented(t, snapshot, lines[..|lines| - 1]), snapshot, lines[|lines| - 1])
  }

  lemma WithItemsPrefix(t: map<string, SaleItem>, itemIds: seq<string>, tenantId: string, outletId: string,
                        saleId: string, lines: seq<SaleLine>, i: nat)
    requires i < |lines| <= |itemIds|
    ensures WithItems(t, itemIds, tenantId, outletId, saleId, lines[..i + 1]) ==
            WithItems(t, itemIds, tenantId, outletId, saleId, lines[..i])[itemIds[i] := ItemRow(itemIds[i], tenantId, outletId, saleId, lines[i])]
  {
    assert lines[..i + 1][..i] == lines[..i];
  }

  lemma DecrementedPrefix(t: map<string, Inventory>, snapshot: seq<Inventory>, lines: seq<SaleLine>, i: nat)
    requires i < |lines|
    ensures Decremented(t, snapshot, lines[..i + 1]) == DecrementLine(Decremented(t, snapshot, lines[..i]), snapshot, lines[i])
  {
    assert lines[..i + 1][..i] == lines[..i];
  }

  /** The live query's rows are distinct table rows: no two share a key. */
  predicate RowIdsDistinct(snapshot: seq<Inventory>)
  {
    forall i, j :: 0 <= i < j < |snapshot| ==> snapshot[i].id != snapshot[j].id
  }

  lemma SameIdSameRow(snapshot: seq<Inventory>, x: Inventory, y: Inventory)
    requires RowIdsDistinct(snapshot) && x in snapshot && y in snapshot && x.id == y.id
    ensures x == y
  {
    var i :| 0 <= i < |snapshot| && snapshot[i] == x;
    var j :| 0 <= j < |snapshot| && snapshot[j] == y;
    assert i == j;
  }

  /**
   * For lines with distinct products, line k's first snapshot row ends at
   * its snapshot quantity minus line k's units.
   */
  lemma {:induction false} DecrementedLine(t: map<string, Inventory>, snapshot: seq<Inventory>, lines: seq<SaleLine>, k: nat)
    requires RowIdsDistinct(snapshot)
    requires forall i, j :: 0 <= i < j < |lines| ==> lines[i].productId != lines[j].productId
    requires k < |lines| && FindStock(snapshot, lines[k].productId).Some?
    requires FindStock(snapshot, lines[k].productId).value.id in t
    ensures var inv := FindStock(snapshot, lines[k].productId).value;
            Decremented(t, snapshot, lines)[inv.id].body.quantity == inv.body.quantity - lines[k].quantity
  {
    var n := |lines| - 1;
    var inv := FindStock(snapshot, lines[k].productId).value;
    var p := Decremented(t, snapshot, lines[..n]);
    if k < n {
      assert lines[..n][k] == lines[k];
      DecrementedLine(t, snapshot, lines[..n], k);
      match FindStock(snapshot, lines[n].productId)
      case None =>
      case Some(last) =>
        assert last.body.productId != inv.body.productId by {
          assert lines[k].productId != lines[n].productId;
        }
        if last.id == inv.id {
          SameIdSameRow(snapshot, last, inv);
        }
    }
  }

  /** A row that is no line's first snapshot row is left untouched. */
  lemma {:induction false} DecrementedUntouched(t: map<string, Inventory>, snapshot: seq<Inventory>, lines: seq<SaleLine>, id: string)
    requires id in t
    requires forall k :: 0 <= k < |lines| ==> FindStock(snapshot, lines[k].productId).None? ||
                                              FindStock(snapshot, lines[k].productId).value.id != id
    ensures Decremented(t, snapshot, lines)[id] == t[id]
  {
    if lines != [] {
      var n := |lines| - 1;
      forall k | 0 <= k < n
        ensures FindStock(snapshot, lines[..n][k].productId).None? ||
                FindStock(snapshot, lines[..n][k].productId).value.id != id
      {
        assert lines[..n][k] == lines[k];
      }
      DecrementedUntouched(t, snapshot, lines[..n], id);
    }
  }

  /** The sales row checkout writes. */
  function SaleRow(saleId: string, tenantId: string, outletId: string, deviceId: string,
                   session: Option<CurrentSession>, deviceTransactionId: string, total: real, createdAt: string): (r: Sale)
    ensures r.id == saleId && r.versionId == 0 && r.deletedAt.None?
    ensures r.body.totalAmount == total
    ensures session.Some? <==> r.body.sessionId.Some?
    ensures session.Some? ==> r.body.sessionId.value == session.value.id
  {
    Record(saleId, 0, None, SaleBody(tenantId, outletId, deviceId, SessionIdOf(session), deviceTransactionId,
                                     total, createdAt, None))
  }

  function SessionIdOf(session: Option<CurrentSession>): Option<string>
  {
    match session
    case None => None
    case Some(s) => Some(s.id)
  }

  /** The sale checkout records counts towards its session's expected balance at close. */
  lemma CheckoutSaleCountsTowardsClose(sales: map<string, Sale>, s: Sale, sessionId: string)
    requires s.id !in sales && s.body.sessionId == Some(sessionId)
    ensures SessionTotal(sales[s.id := s], sessionId) == SessionTotal(sales, sessionId) + s.body.totalAmount
  {
    SessionTotalAdd(sales, sessionId, s);
  }

  // ---------------------------------------------------------------------
  // Add product

  /** The inventory rows under one logical key, the `[tenant_id+outlet_id+product_id]` query. */
  function AtKey(key: StockKey): Inventory -> bool
  {
    (r: Inventory) => KeyOf(r) == key
  }

  /** The stock held under a key: the quantity of the first row with that key, 0 when there is none. */
  ghost function StockUnder(t: map<string, Inventory>, key: StockKey): int
  {
    match FirstMatch(t, AtKey(key))
    case None => 0
    case Some(k) => t[k].body.quantity
  }

  /** addProduct's inventory write: increment the first row under the key, or add a new row. */
  ghost function AddStock(t: map<string, Inventory>, key: StockKey, invId: string, qty: int): (r: map<string, Inventory>)
  {
    match FirstMatch(t, AtKey(key))
    case None => t[invId := Record(invId, 0, None, InventoryBody(key.tenantId, key.outletId, key.productId, qty, None, None))]
    case Some(k) => SetQuantity(t, k, t[k].body.quantity + qty)
  }

  /**
   * With one row per key before, there is still one row per key after, and
   * the stock under the product's key has grown by exactly the quantity added.
   */
  lemma AddStockAddsQuantity(t: map<string, Inventory>, key: StockKey, invId: string, qty: int)
    requires Keyed(t) && SyncEngine.StockKeysUnique(t) && invId !in t
    ensures Keyed(AddStock(t, key, invId, qty))
    ensures SyncEngine.StockKeysUnique(AddStock(t, key, invId, qty))
    ensures StockUnder(AddStock(t, key, invId, qty), key) == StockUnder(t, key) + qty
  {
    var r := AddStock(t, key, invId, qty);
    var row :| row == (match FirstMatch(t, AtKey(key)) case None => invId case Some(k) => k);
    assert row in r && AtKey(key)(r[row]);
    forall j | j in r && j != row ensures r[j] == t[j] && !AtKey(key)(r[j]) {
      match FirstMatch(t, AtKey(key))
      case None =>
      case Some(k) =>
        assert KeyOf(t[k]) == key;
    }
    var m := FirstMatch(r, AtKey(key));
    assert m == Some(row);
    forall i, j | i in r && j in r && i != j ensures KeyOf(r[i]) != KeyOf(r[j]) {
      if i != row && j != row {
        assert r[i] == t[i] && r[j] == t[j];
      }
    }
  }

  lemma AddStockCases(t: map<string, Inventory>, key: StockKey, invId: string, qty: int, m: Option<string>)
    requires m == FirstMatch(t, AtKey(key))
    ensures m.Some? ==> m.value in t
    ensures AddStock(t, key, invId, qty) ==
            match m
            case None => t[invId := Record(invId, 0, None, InventoryBody(key.tenantId, key.outletId, key.productId, qty, None, None))]
            case Some(k) => SetQuantity(t, k, t[k].body.quantity + qty)
  {
  }

  /** The products row addProduct writes. */
  function NewProduct(id: string, tenantId: string, values: ProductFormValues): (r: Product)
    ensures r.id == id && r.versionId == 0 && r.deletedAt.None?
    ensures r.body.description.None? <==> values.description == ""
  {
    Record(id, 0, None, ProductBody(tenantId, values.sku, values.name,
                                    if values.description != "" then Some(values.description) else None,
                                    values.price, None, None))
  }

  // ---------------------------------------------------------------------
  // Search

  /** A product matches a (lower-cased, trimmed) query by name, non-empty SKU or non-empty description. */
  predicate Matches(p: Product, q: string)
  {
    || Contains(ToLower(p.body.name), q)
    || (p.body.sku != "" && Contains(ToLower(p.body.sku), q))
    || (p.body.description.Some? && p.body.description.value != "" && Contains(ToLower(p.body.description.value), q))
  }

  function FilterBy(products: seq<Product>, q: string): (r: seq<Product>)
    ensures |r| <= |products|
    ensures forall p :: p in r <==> p in products && Matches(p, q)
  {
    if products == [] then []
    else
      var prefix := FilterBy(products[..|products| - 1], q);
      var p := products[|products| - 1];
      assert products == products[..|products| - 1] + [p];
      if Matches(p, q) then prefix + [p] else prefix
  }

  /** filteredProducts: all products for a blank query, otherwise those that match it. */
  function FilterProducts(products: seq<Product>, query: string): (r: seq<Product>)
    ensures AllWhitespace(query) ==> r == products
    ensures !AllWhitespace(query) ==> forall p :: p in r <==> p in products && Matches(p, ToLower(Trim(query)))
  {
    TrimEmptyIff(query);
    var q := ToLower(Trim(query));
    if q == "" then products else FilterBy(products, q)
  }

  /** Filtering what was filtered with the same query changes nothing. */
  lemma {:induction false} FilterByIdempotent(products: seq<Product>, q: string)
    ensures FilterBy(FilterBy(products, q), q) == FilterBy(products, q)
  {
    if products != [] {
      var prefix, p := products[..|products| - 1], products[|products| - 1];
      FilterByIdempotent(prefix, q);
      var f := FilterBy(prefix, q);
      if Matches(p, q) {
        assert (f + [p])[..|f|] == f;
      }
    }
  }

  // ---------------------------------------------------------------------
  // The screen

  class PosScreen {
    const tenantId: string
    const outletId: string
    const deviceId: string
    /** A signed-in tenant with an outlet must have an open session to sell. */
    const sessionRequired: bool
    const db: LocalDb
    var cart: seq<string>

    predicate Valid()
      reads this, db
    {
      db.Valid()
    }

    constructor (tenantId: string, outletId: string, deviceId: string, sessionRequired: bool, db: LocalDb)
      requires db.Valid()
      ensures Valid() && cart == []
      ensures this.tenantId == tenantId && this.outletId == outletId && this.deviceId == deviceId
      ensures this.sessionRequired == sessionRequired && this.db == db
    {
      this.tenantId, this.outletId, this.deviceId, this.sessionRequired, this.db :=
        tenantId, outletId, deviceId, sessionRequired, db;
      cart := [];
    }

    /** addToCart: one more unit of the product. */
    method AddToCart(productId: string)
      modifies this`cart
      ensures cart == old(cart) + [productId]
      ensures multiset(cart) == multiset(old(cart)) + multiset{productId}
    {
      cart := cart + [productId];
    }

    /** removeFromCart: one unit fewer, the earliest one. */
    method RemoveFromCart(productId: string)
      modifies this`cart
      ensures cart == WithRemoved(old(cart), productId)
    {
      cart := WithRemoved(cart, productId);
    }

    /**
     * checkout: does nothing without products, with an empty cart, or when a
     * session is required and none is open. Otherwise it queues one pending
     * SALE, then writes the sale, its items and the stock decrements, and
     * empties the cart. `deviceTransactionId`, `queueId`, `saleId`,
     * `itemIds`, `createdAt` and `timestamp` are the generated ids and clock values.
     */
    method Checkout(products: seq<Product>, inventory: seq<Inventory>, session: Option<CurrentSession>,
                    deviceTransactionId: string, queueId: string, saleId: string, itemIds: seq<string>,
                    createdAt: string, timestamp: int) returns (done: bool)
      requires Valid()
      requires !InQueue(db.syncQueue, queueId) && saleId !in db.sales
      requires |itemIds| >= |cart| && Distinct(itemIds) && forall k :: k in itemIds ==> k !in db.saleItems
      modifies this`cart, db`syncQueue, db`sales, db`saleItems, db`inventory
      ensures Valid()
      ensures done <==> |products| > 0 && |old(cart)| > 0 && !(sessionRequired && session.None?)
      ensures !done ==> && cart == old(cart) && db.syncQueue == old(db.syncQueue) && db.sales == old(db.sales)
                        && db.saleItems == old(db.saleItems) && db.inventory == old(db.inventory)
      ensures done ==>
                var lines := CartLines(old(cart), products);
                var total := LinesTotal(lines);
                && db.syncQueue == old(db.syncQueue) +
                     [QueueItem(queueId, SaleAction, SalePayload(deviceTransactionId, total, lines, SessionIdOf(session)),
                                timestamp, Pending, None)]
                && db.sales == old(db.sales)[saleId :=
                     SaleRow(saleId, tenantId, outletId, deviceId, session, deviceTransactionId, total, createdAt)]
                && db.saleItems == WithItems(old(db.saleItems), itemIds, tenantId, outletId, saleId, lines)
                && db.inventory == Decremented(old(db.inventory), inventory, lines)
                && cart == []
      ensures done ==> PendingCount(db.syncQueue) == PendingCount(old(db.syncQueue)) + 1
    {
      if |products| == 0 || |cart| == 0 {
        return false;
      }
      if sessionRequired && session.None? {
        return false;
      }
      var lines, total := BuildLines(cart, products);
      db.Enqueue(QueueItem(queueId, SaleAction, SalePayload(deviceTransactionId, total, lines, SessionIdOf(session)),
                           timestamp, Pending, None));
      RecordSale(lines, total, session, deviceTransactionId, saleId, itemIds, createdAt, inventory);
      cart := [];
      done := true;
    }

    /** The entity writes of checkout, after the queue add: sale, then per line its item and stock update. */
    method RecordSale(lines: seq<SaleLine>, total: real, session: Option<CurrentSession>, deviceTransactionId: string,
                      saleId: string, itemIds: seq<string>, createdAt: string, inventory: seq<Inventory>)
      requires Valid() && saleId !in db.sales
      requires |itemIds| >= |lines|
      modifies db`sales, db`saleItems, db`inventory
      ensures Valid()
      ensures db.sales == old(db.sales)[saleId :=
                SaleRow(saleId, tenantId, outletId, deviceId, session, deviceTransactionId, total, createdAt)]
      ensures db.saleItems == WithItems(old(db.saleItems), itemIds, tenantId, outletId, saleId, lines)
      ensures db.inventory == Decremented(old(db.inventory), inventory, lines)
    {
      db.PutSale(SaleRow(saleId, tenantId, outletId, deviceId, session, deviceTransactionId, total, createdAt));
      ghost var sales1, items0, inv0 := db.sales, db.saleItems, db.inventory;
      for i := 0 to |lines|
        invariant db.Valid() && db.sales == sales1
        invariant db.saleItems == WithItems(items0, itemIds, tenantId, outletId, saleId, lines[..i])
        invariant db.inventory == Decremented(inv0, inventory, lines[..i])
      {
        WithItemsPrefix(items0, itemIds, tenantId, outletId, saleId, lines, i);
        DecrementedPrefix(inv0, inventory, lines, i);
        RecordLine(itemIds[i], saleId, lines[i], inventory);
      }
      assert lines[..|lines|] == lines;
    }

    /** addProduct's inventory step: the first row under the key gains qty, or a new row starts with it. */
    method AddStockRow(key: StockKey, invId: string, qty: int)
      requires Valid() && invId !in db.inventory
      modifies db`inventory
      ensures Valid() && db.inventory == AddStock(old(db.inventory), key, invId, qty)
    {
      ghost var inv0 := db.inventory;
      var existing := First(db.inventory, AtKey(key));
      AddStockCases(inv0, key, invId, qty, existing);
      if existing.None? {
        db.PutInventory(Record(invId, 0, None, InventoryBody(key.tenantId, key.outletId, key.productId, qty, None, None)));
      } else {
        db.UpdateQuantity(existing.value, db.inventory[existing.value].body.quantity + qty);
      }
    }

    /** One line of checkout: its sale_items row, then its first snapshot row decremented (if any). */
    method RecordLine(itemId: string, saleId: string, line: SaleLine, inventory: seq<Inventory>)
      requires Valid()
      modifies db`saleItems, db`inventory
      ensures Valid()
      ensures db.saleItems == old(db.saleItems)[itemId := ItemRow(itemId, tenantId, outletId, saleId, line)]
      ensures db.inventory == DecrementLine(old(db.inventory), inventory, line)
    {
      db.PutSaleItem(ItemRow(itemId, tenantId, outletId, saleId, line));
      var inv := FindStock(inventory, line.productId);
      if inv.Some? {
        db.UpdateQuantity(inv.value.id, inv.value.body.quantity - line.quantity);
      }
    }

    /**
     * addProduct: write the product with version 0 unless its id is taken,
     * add the initial quantity (`parseInt(.., 10) || 0`) to the stock under
     * (tenant, outlet, product) or start a row with it, and queue one
     * pending ADD_PRODUCT. `id`, `invId`, `queueId` and `timestamp` are the
     * generated ids and clock value.
     */
    method AddProduct(values: ProductFormValues, id: string, invId: string, queueId: string, timestamp: int)
      requires Valid() && !InQueue(db.syncQueue, queueId) && invId !in db.inventory
      modifies db`products, db`inventory, db`syncQueue
      ensures Valid()
      ensures var qty := ParseIntOrZero(values.initialQuantity);
              && db.products == (if id in old(db.products) then old(db.products)
                                 else old(db.products)[id := NewProduct(id, tenantId, values)])
              && db.inventory == AddStock(old(db.inventory), StockKey(tenantId, outletId, id), invId, qty)
              && db.syncQueue == old(db.syncQueue) +
                   [QueueItem(queueId, SyncActionType.AddProduct,
                              AddProductPayload(id, values.sku, values.name, values.price, qty), timestamp, Pending, None)]
      ensures PendingCount(db.syncQueue) == PendingCount(old(db.syncQueue)) + 1
    {
      var qty := ParseIntOrZero(values.initialQuantity);
      if id !in db.products {
        db.PutProduct(NewProduct(id, tenantId, values));
      }
      AddStockRow(StockKey(tenantId, outletId, id), invId, qty);
      db.Enqueue(QueueItem(queueId, SyncActionType.AddProduct,
                           AddProductPayload(id, values.sku, values.name, values.price, qty), timestamp, Pending, None));
    }
  }
}
