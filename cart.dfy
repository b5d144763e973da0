/**
 * The shopping cart: a table from product id to line that add and remove
 * update in place, with its pre-discount total and its checkout amount.
 */
module Carts {
  import opened Wrappers
  import opened Products
  import Discount

  /** Every stored line has a positive quantity and sits under its own product's id. */
  predicate WellFormed(m: Items)
  {
    forall k :: k in m ==> m[k].quantity >= 1 && m[k].product.id == k
  }

  /** Every stored product has a non-negative price and every line a non-negative quantity. */
  predicate NonNegative(m: Items)
  {
    forall k :: k in m ==> m[k].product.price >= 0.0 && m[k].quantity >= 0
  }

  /** The table after adding quantity of product: a new line, or the old line's quantity increased. */
  function AddLine(m: Items, product: Product, quantity: int): (r: Items)
    ensures r.Keys == m.Keys + {product.id}
    ensures product.id in m ==> r[product.id] == Line(m[product.id].product, m[product.id].quantity + quantity)
    ensures product.id !in m ==> r[product.id] == Line(product, quantity)
    ensures forall k :: k in m && k != product.id ==> r[k] == m[k]
  {
    if product.id in m then
      m[product.id := m[product.id].(quantity := m[product.id].quantity + quantity)]
    else
      m[product.id := Line(product, quantity)]
  }

  /**
   * The table after removing from the line of productId: nothing when it is
   * absent; the whole line when no quantity is given or the quantity covers
   * the line; otherwise the quantity is taken off the line.
   */
  function RemoveLine(m: Items, productId: string, quantity: Option<int>): (r: Items)
    ensures productId !in m ==> r == m
    ensures productId in m && (quantity.None? || m[productId].quantity <= quantity.value) ==>
              r.Keys == m.Keys - {productId}
    ensures productId in m && quantity.Some? && quantity.value < m[productId].quantity ==>
              r.Keys == m.Keys &&
              r[productId] == Line(m[productId].product, m[productId].quantity - quantity.value)
    ensures forall k :: k in m && k != productId ==> k in r && r[k] == m[k]
  {
    if productId !in m then m
    else if quantity.None? || m[productId].quantity <= quantity.value then m - {productId}
    else m[productId := m[productId].(quantity := m[productId].quantity - quantity.value)]
  }

  /** The cart's total before discounts: price times quantity over every line. */
  ghost function CartTotal(m: Items): (r: real)
  {
    Sum(m, m.Keys, LineCost)
  }

  /** Adding a positive quantity keeps the table well formed. */
  lemma AddKeepsWellFormed(m: Items, product: Product, quantity: int)
    requires WellFormed(m) && quantity >= 1
    ensures WellFormed(AddLine(m, product, quantity))
  {
  }

  /** A quantity below one breaks the invariant: the source does not validate it. */
  lemma AddNonPositiveBreaksWellFormed(product: Product, quantity: int)
    requires quantity < 1
    ensures !WellFormed(AddLine(map[], product, quantity))
  {
    assert AddLine(map[], product, quantity)[product.id].quantity == quantity;
  }

  /** Removing keeps the table well formed whatever quantity is asked for. */
  lemma RemoveKeepsWellFormed(m: Items, productId: string, quantity: Option<int>)
    requires WellFormed(m)
    ensures WellFormed(RemoveLine(m, productId, quantity))
  {
  }

  /** Adding q1 and then q2 of a product is adding q1 + q2 of it. */
  lemma AddTwice(m: Items, product: Product, q1: int, q2: int)
    ensures AddLine(AddLine(m, product, q1), product, q2) == AddLine(m, product, q1 + q2)
  {
  }

  /** Removing without a quantity takes out exactly the line that an add created or grew. */
  lemma RemoveAllUndoesAdd(m: Items, product: Product, quantity: int)
    ensures RemoveLine(AddLine(m, product, quantity), product.id, None) == m - {product.id}
  {
  }

  /** On a well-formed table, removing the quantity just added restores the table. */
  lemma RemoveUndoesAdd(m: Items, product: Product, quantity: int)
    requires WellFormed(m)
    ensures RemoveLine(AddLine(m, product, quantity), product.id, Some(quantity)) == m
  {
    var added := AddLine(m, product, quantity);
    var r := RemoveLine(added, product.id, Some(quantity));
    if product.id in m {
      assert added[product.id].quantity == m[product.id].quantity + quantity;
      assert r[product.id] == m[product.id];
    }
    assert r.Keys == m.Keys;
  }

  /** Adding q of a product raises the total by q times its price. */
  lemma AddTotal(m: Items, product: Product, quantity: int)
    requires product.id in m ==> m[product.id].product == product
    ensures CartTotal(AddLine(m, product, quantity)) == CartTotal(m) + quantity as real * product.price
  {
    var r := AddLine(m, product, quantity);
    if product.id in m {
      var line := m[product.id];
      var grown := Line(product, line.quantity + quantity);
      assert LineCost(grown) == LineCost(line) + quantity as real * product.price by {
        ScaleDistributes(line.quantity, quantity, product.price);
      }
      assert CartTotal(r) == CartTotal(m) - LineCost(line) + LineCost(grown) by {
        assert r == m[product.id := grown];
        assert r.Keys == m.Keys;
        SumUpdate(m, m.Keys, LineCost, product.id, grown);
      }
    } else {
      assert CartTotal(r) == CartTotal(m) + LineCost(Line(product, quantity)) by {
        assert r == m[product.id := Line(product, quantity)];
        SumInsert(m, m.Keys, LineCost, product.id, Line(product, quantity));
      }
    }
  }

  /** The items a removal actually takes off the line of productId: all of them, or the quantity asked for. */
  function TakenOff(m: Items, productId: string, quantity: Option<int>): (r: Line)
    requires productId in m
  {
    var line := m[productId];
    if quantity.None? || line.quantity <= quantity.value then line
    else Line(line.product, quantity.value)
  }

  /** Removing lowers the total by the cost of the items actually taken off; an absent id changes nothing. */
  lemma RemoveTotal(m: Items, productId: string, quantity: Option<int>)
    ensures productId in m ==>
              CartTotal(RemoveLine(m, productId, quantity)) == CartTotal(m) - LineCost(TakenOff(m, productId, quantity))
    ensures productId !in m ==> CartTotal(RemoveLine(m, productId, quantity)) == CartTotal(m)
  {
    var r := RemoveLine(m, productId, quantity);
    if productId in m {
      var line := m[productId];
      if quantity.None? || line.quantity <= quantity.value {
        assert r == m - {productId};
        SumDelete(m, m.Keys, LineCost, productId);
      } else {
        var left := Line(line.product, line.quantity - quantity.value);
        assert LineCost(left) == LineCost(line) - LineCost(Line(line.product, quantity.value)) by {
          ScaleDistributes(line.quantity, quantity.value, line.product.price);
        }
        assert r == m[productId := left];
        SumUpdate(m, m.Keys, LineCost, productId, left);
      }
    }
  }

  /** With non-negative prices and quantities the discount never exceeds the total. */
  lemma DiscountWithinTotal(m: Items)
    requires NonNegative(m)
    ensures 0.0 <= Discount.CartDiscount(m) <= CartTotal(m)
  {
    forall k | k in m ensures 0.0 <= Discount.LineDiscount(m[k]) <= LineCost(m[k]) {
      Discount.LineDiscountBounded(m[k]);
    }
    SumMonotone(m, m.Keys, Discount.LineDiscount, LineCost);
    SumMonotone(m, m.Keys, _ => 0.0, Discount.LineDiscount);
    ZeroSum(m, m.Keys);
  }

  /** Summing zero gives zero. */
  lemma {:induction false} ZeroSum(m: Items, keys: set<string>)
    requires keys <= m.Keys
    ensures Sum(m, keys, _ => 0.0) == 0.0
    decreases keys
  {
    if keys != {} {
      ZeroSum(m, keys - {Pick(keys)});
    }
  }

  class Cart {
    var items: Items

    /** The cart's invariant, kept by every operation given positive quantities. */
    predicate Valid()
      reads this
    {
      WellFormed(items)
    }

    constructor ()
      ensures Valid() && items == map[]
    {
      items := map[];
    }

    method AddToCart(product: Product, quantity: int)
      modifies this
      ensures items == AddLine(old(items), product, quantity)
      ensures old(Valid()) && quantity >= 1 ==> Valid()
    {
      if product.id in items {
        var line := items[product.id];
        items := items[product.id := line.(quantity := line.quantity + quantity)];
      } else {
        items := items[product.id := Line(product, quantity)];
      }
      if old(Valid()) && quantity >= 1 {
        AddKeepsWellFormed(old(items), product, quantity);
      }
    }

    method RemoveFromCart(productId: string, quantity: Option<int>)
      modifies this
      ensures items == RemoveLine(old(items), productId, quantity)
      ensures old(Valid()) ==> Valid()
    {
      if productId in items {
        if quantity.None? || items[productId].quantity <= quantity.value {
          items := items - {productId};
        } else {
          var line := items[productId];
          items := items[productId := line.(quantity := line.quantity - quantity.value)];
        }
      }
      if old(Valid()) {
        RemoveKeepsWellFormed(old(items), productId, quantity);
      }
    }

    /** The total before discounts, accumulated one line at a time (the listing is not modelled). */
    method ViewCart() returns (totalCost: real)
      ensures totalCost == CartTotal(items)
    {
      totalCost := 0.0;
      var lines := items;
      var rest := lines.Keys;
      while rest != {}
        invariant rest <= lines.Keys
        invariant totalCost + Sum(lines, rest, LineCost) == CartTotal(lines)
        decreases rest
      {
        var productId :| productId in rest;
        var product := lines[productId].product;
        var quantity := lines[productId].quantity;
        var totalPrice := quantity as real * product.price;
        assert totalPrice == LineCost(lines[productId]);
        SumPick(lines, rest, LineCost, productId);
        totalCost := totalCost + totalPrice;
        rest := rest - {productId};
      }
    }

    /** The amount due: the total minus the discount. The cart keeps its contents. */
    method Checkout() returns (finalTotal: real)
      ensures finalTotal == CartTotal(items) - Discount.CartDiscount(items)
      ensures NonNegative(items) ==> finalTotal >= 0.0
    {
      var totalBeforeDiscount := ViewCart();
      var totalDiscount := Discount.ApplyDiscounts(items);
      finalTotal := totalBeforeDiscount - totalDiscount;
      if NonNegative(items) {
        DiscountWithinTotal(items);
      }
    }
  }
}
