/**
 * The store facade: the fixed catalog and one cart, with the commands that
 * look a product up and hand the work to the cart.
 */
module Ecommerce {
  import opened Wrappers
  import opened Products
  import opened CurrencyConverter
  import Discount
  import opened Carts

  /** The three products the store is seeded with. */
  const Catalog: map<string, Product> := map[
    "P001" := Product("P001", "Laptop", 1000.0, "Electronics"),
    "P002" := Product("P002", "Phone", 500.0, "Electronics"),
    "P003" := Product("P003", "T-Shirt", 20.0, "Fashion")
  ]

  /** Every catalog product sits under its own id and has a non-negative price. */
  lemma CatalogWellKeyed()
    ensures forall k :: k in Catalog ==> Catalog[k].id == k && Catalog[k].price >= 0.0
  {
  }

  /** Every line of m holds the catalog's product for its key. */
  predicate FromCatalog(m: Items)
  {
    forall k :: k in m ==> k in Catalog && m[k].product == Catalog[k]
  }

  /** What the currency follow-up of checkout shows. */
  datatype Conversion = Declined | Unsupported | Converted(amount: real)

  class EcommerceSystem {
    const productCatalog: map<string, Product> := Catalog
    const cart: Cart

    /** The cart is well formed and holds only catalog products. */
    predicate Valid()
      reads this, cart
    {
      cart.Valid() && FromCatalog(cart.items)
    }

    constructor ()
      ensures fresh(cart) && cart.items == map[] && Valid()
    {
      cart := new Cart();
    }

    /** Adds the catalog's product for productId; found is false (and nothing changes) on a catalog miss. */
    method AddToCart(productId: string, quantity: int) returns (found: bool)
      modifies cart
      ensures found == (productId in productCatalog)
      ensures found ==> cart.items == AddLine(old(cart.items), productCatalog[productId], quantity)
      ensures !found ==> cart.items == old(cart.items)
      ensures old(Valid()) && quantity >= 1 ==> Valid()
    {
      found := productId in productCatalog;
      if found {
        var product := productCatalog[productId];
        cart.AddToCart(product, quantity);
      }
    }

    /** Removal is passed to the cart whether or not the product is in it. */
    method RemoveFromCart(productId: string, quantity: Option<int>)
      modifies cart
      ensures cart.items == RemoveLine(old(cart.items), productId, quantity)
      ensures old(Valid()) ==> Valid()
    {
      cart.RemoveFromCart(productId, quantity);
    }

    method ViewCart() returns (total: real)
      ensures total == CartTotal(cart.items)
    {
      total := cart.ViewCart();
    }

    /**
     * Checks the cart out. The prompts are parameters: currency is None when
     * the customer declines a conversion, otherwise the code entered,
     * already upper-cased. A code outside the rate table is reported, not raised.
     */
    method Checkout(currency: Option<string>) returns (finalTotal: real, shown: Conversion)
      ensures finalTotal == CartTotal(cart.items) - Discount.CartDiscount(cart.items)
      ensures Valid() ==> finalTotal >= 0.0
      ensures currency.None? ==> shown == Declined
      ensures currency.Some? && currency.value !in Rates ==> shown == Unsupported
      ensures currency.Some? && currency.value in Rates ==>
                shown == Converted(finalTotal * Rates[currency.value])
    {
      if Valid() {
        CatalogWellKeyed();
        assert NonNegative(cart.items);
      }
      finalTotal := cart.Checkout();
      if currency.None? {
        shown := Declined;
      } else if currency.value in Rates {
        ConvertFromBase(finalTotal, currency.value);
        var converted := Convert(finalTotal, "USD", currency.value);
        shown := Converted(converted.value);
      } else {
        shown := Unsupported;
      }
    }
  }

  /** Three T-shirts and two phones: 1060 before discounts, 120 off (one free T-shirt, 10% off the phones). */
  lemma ReferenceScenario()
    ensures var m := AddLine(AddLine(map[], Catalog["P003"], 3), Catalog["P002"], 2);
            CartTotal(m) == 1060.0 && Discount.CartDiscount(m) == 120.0
  {
    var m := AddLine(AddLine(map[], Catalog["P003"], 3), Catalog["P002"], 2);
    assert "P003" != "P002" by { assert "P003"[3] != "P002"[3]; }
    assert m.Keys == {"P003", "P002"};
    assert m.Keys - {"P003"} == {"P002"};
    assert {"P002"} - {"P002"} == {};
    SumPick(m, m.Keys, LineCost, "P003");
    SumPick(m, {"P002"}, LineCost, "P002");
    SumPick(m, m.Keys, Discount.LineDiscount, "P003");
    SumPick(m, {"P002"}, Discount.LineDiscount, "P002");
  }

  /** The same scenario through the facade, converted to EUR at the end: 940 USD, shown as 799 EUR. */
  method CheckoutScenario() returns (finalTotal: real, shown: Conversion)
    ensures finalTotal == 940.0 && shown == Converted(799.0)
  {
    var system := new EcommerceSystem();
    var found := system.AddToCart("P003", 3);
    found := system.AddToCart("P002", 2);
    ReferenceScenario();
    finalTotal, shown := system.Checkout(Some("EUR"));
  }
}
