/**
 * The two category discounts: buy one get one free on Fashion lines and 10%
 * off Electronics lines. Both are evaluated and added up.
 */
module Discount {
  import opened Products

  /** Buy one get one free: every complete pair of a Fashion line has one item free. */
  function FashionDiscount(l: Line): (r: real)
  {
    // Python's `//` floors; for the divisor 2 Dafny's Euclidean `/` agrees on all ints.
    if l.product.category == "Fashion" then (l.quantity / 2) as real * l.product.price else 0.0
  }

  /** 10% off the cost of an Electronics line. */
  function ElectronicsDiscount(l: Line): (r: real)
  {
    if l.product.category == "Electronics" then 0.1 * l.quantity as real * l.product.price else 0.0
  }

  /** What one line contributes to the cart's discount under both rules. */
  function LineDiscount(l: Line): (r: real)
  {
    FashionDiscount(l) + ElectronicsDiscount(l)
  }

  /** The total discount of a cart. */
  ghost function CartDiscount(m: Items): (r: real)
  {
    Sum(m, m.Keys, LineDiscount)
  }

  /**
   * What the customer pays for a line after its discount: the odd item rounded
   * up for Fashion (ceil(q/2) of q are paid), 90% for Electronics, the full
   * cost otherwise.
   */
  lemma NetLineCost(l: Line)
    ensures l.product.category == "Fashion" ==>
              LineCost(l) - LineDiscount(l) == ((l.quantity + 1) / 2) as real * l.product.price
    ensures l.product.category == "Electronics" ==>
              LineCost(l) - LineDiscount(l) == 0.9 * LineCost(l)
    ensures l.product.category != "Fashion" && l.product.category != "Electronics" ==>
              LineDiscount(l) == 0.0
  {
    var q, p := l.quantity, l.product.price;
    assert "Fashion" != "Electronics";
    if l.product.category == "Fashion" {
      assert LineDiscount(l) == (q / 2) as real * p by {
        assert ElectronicsDiscount(l) == 0.0;
      }
      HalfPaid(q, p);
    } else if l.product.category == "Electronics" {
      assert LineDiscount(l) == 0.1 * q as real * p by {
        assert FashionDiscount(l) == 0.0;
      }
      TenthOff(p, q as real);
    }
  }

  /** With a non-negative price and quantity a line's discount lies between zero and its cost. */
  lemma LineDiscountBounded(l: Line)
    requires l.product.price >= 0.0 && l.quantity >= 0
    ensures 0.0 <= LineDiscount(l) <= LineCost(l)
  {
    var q, p := l.quantity, l.product.price;
    assert "Fashion" != "Electronics";
    ScaleBounded(0.0, q as real, p);
    if l.product.category == "Fashion" {
      HalfBounded(q);
      ScaleBounded((q / 2) as real, q as real, p);
    } else if l.product.category == "Electronics" {
      ScaleBounded(0.1 * q as real, q as real, p);
    }
  }

  lemma HalfBounded(q: int)
    requires q >= 0
    ensures 0.0 <= (q / 2) as real <= q as real
  {
  }

  lemma HalfPaid(q: int, p: real)
    ensures q as real * p - (q / 2) as real * p == ((q + 1) / 2) as real * p
  {
    assert q - q / 2 == (q + 1) / 2;
    ScaleDistributes(q, q / 2, p);
  }

  lemma TenthOff(p: real, a: real)
    ensures a * p - 0.1 * a * p == 0.9 * (a * p)
  {
  }

  lemma ScaleBounded(a: real, b: real, p: real)
    requires 0.0 <= a <= b && 0.0 <= p
    ensures 0.0 <= a * p <= b * p
  {
  }

  /** A line of any other category, added under a new key, leaves the discount as it was. */
  lemma OtherCategoryNoDiscount(m: Items, k: string, l: Line)
    requires k !in m
    requires l.product.category != "Fashion" && l.product.category != "Electronics"
    ensures CartDiscount(m[k := l]) == CartDiscount(m)
  {
    SumInsert(m, m.Keys, LineDiscount, k, l);
    assert m[k := l].Keys == m.Keys + {k};
  }

  /**
   * The cart's total discount, computed as the source does: one pass over the
   * lines for the Fashion rule, then one for the Electronics rule. The items
   * are only read.
   */
  method ApplyDiscounts(items: Items) returns (totalDiscount: real)
    ensures totalDiscount == CartDiscount(items)
  {
    totalDiscount := 0.0;
    ghost var fashion := Sum(items, items.Keys, FashionDiscount);
    ghost var electronics := Sum(items, items.Keys, ElectronicsDiscount);

    var rest := items.Keys;
    while rest != {}
      invariant rest <= items.Keys
      invariant totalDiscount + Sum(items, rest, FashionDiscount) == fashion
      decreases rest
    {
      var productId :| productId in rest;
      var product := items[productId].product;
      if product.category == "Fashion" {
        var freeItems := items[productId].quantity / 2;
        var discount := freeItems as real * product.price;
        assert discount == FashionDiscount(items[productId]);
        totalDiscount := totalDiscount + discount;
      } else {
        assert FashionDiscount(items[productId]) == 0.0;
      }
      SumPick(items, rest, FashionDiscount, productId);
      rest := rest - {productId};
    }

    rest := items.Keys;
    while rest != {}
      invariant rest <= items.Keys
      invariant totalDiscount + Sum(items, rest, ElectronicsDiscount) == fashion + electronics
      decreases rest
    {
      var productId :| productId in rest;
      var product := items[productId].product;
      if product.category == "Electronics" {
        var discount := 0.1 * items[productId].quantity as real * product.price;
        assert discount == ElectronicsDiscount(items[productId]);
        totalDiscount := totalDiscount + discount;
      } else {
        assert ElectronicsDiscount(items[productId]) == 0.0;
      }
      SumPick(items, rest, ElectronicsDiscount, productId);
      rest := rest - {productId};
    }

    SumSplit(items, items.Keys, FashionDiscount, ElectronicsDiscount, LineDiscount);
  }
}
