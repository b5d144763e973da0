# mini-ecommerce in Dafny

A model of the core of a command-line shopping-cart simulator (`main.py`):
a fixed three-product catalog, a cart that maps a product id to a line
(product and quantity), two category discounts (buy one get one free on
Fashion, 10% off Electronics), the cart total and checkout amount, and a
currency converter over a fixed rate table (USD 1.0, EUR 0.85, GBP 0.75).

Money is an exact `real`, so the reference figures are exact facts:
3 T-shirts at 20 and 2 phones at 500 cost 1060, the discount is 120, the
amount due is 940, and 940 USD are 799 EUR.

Modules, one per component of `main.py`:

- `Products` (`products.dfy`): the `Product` and `Line` values, the item
  table `Items = map<string, Line>`, the cost of a line, and `Sum`, the
  order-independent sum over a table's lines, with the lemmas that any key
  may be summed first, and that an update, insert or delete changes the sum
  by that line alone. Python dictionaries iterate in insertion order; the
  sums do not depend on it, and the loops pick keys in no fixed order.
- `CurrencyConverter` (`currency.dfy`): `Convert` with its error case as a
  `Result`, and the round-trip and composition laws.
- `Discount` (`discount.dfy`): the two rules line by line, the cart
  discount as their sum, and `ApplyDiscounts`, the two accumulation loops of
  the source proved against that sum. It takes the cart's item table, which
  is all the source reads of the cart.
- `Carts` (`cart.dfy`): the pure table updates `AddLine` and `RemoveLine`,
  the invariant `WellFormed` (positive quantities, each line under its own
  product's id), the total `CartTotal`, lemmas tying updates to totals, and
  the class `Cart` whose methods update `items` in place.
- `Ecommerce` (`ecommerce.dfy`): the catalog and the class
  `EcommerceSystem`, whose add looks the id up in the catalog and whose
  remove always passes the request to the cart; checkout with the currency
  follow-up, where the two answers of the prompt are a parameter.
- `Cli` (`cli.dfy`): how the command-line driver turns a typed product id
  into the id it looks up (see Findings).

Conversion between equal codes returns the amount even for a code outside
the rate table, because the equality test (main.py:20) comes before the
table test (main.py:22). Add accepts any quantity, so stored quantities stay
at least one only while every added quantity is positive
(`Carts.AddNonPositiveBreaksWellFormed` shows it is lost otherwise).
Removal keeps them at least one whatever quantity is given.
Checkout does not clear the cart; the model keeps that.

## Model

| member | source | states |
|---|---|---|
| `Products.SumPick` | main.py:81-85 | the sum over a cart's lines is the same whichever line is taken first, so dictionary iteration order does not matter |
| `Products.SumSplit` | main.py:43-55 | two passes over the lines add up to one pass with the summed per-line amount |
| `CurrencyConverter.Convert` | main.py:19-25 | equal codes give the amount back even for unknown codes; it fails with UnsupportedCurrency exactly when the codes differ and one is not in the table; otherwise result times the source rate equals amount times the target rate; non-negative amounts stay non-negative |
| `CurrencyConverter.ConvertRoundTrip` | main.py:12-25 | between supported codes conversion succeeds and converting back returns the original amount exactly |
| `CurrencyConverter.ConvertChain` | main.py:12-25 | converting a to b then b to c equals converting a to c |
| `CurrencyConverter.ConvertFromBase` | main.py:142-143 | converting from USD to a supported code multiplies by that code's rate, and never fails |
| `Discount.NetLineCost` | main.py:45-55 | after discount a Fashion line costs ceil(q/2) items, an Electronics line 90% of its cost, any other line gets no discount |
| `Discount.LineDiscountBounded` | main.py:45-55 | with non-negative price and quantity a line's discount is between zero and the line's cost |
| `Discount.OtherCategoryNoDiscount` | main.py:43-55 | inserting a line of a category other than Fashion or Electronics leaves the cart discount unchanged |
| `Discount.ApplyDiscounts` | main.py:39-57 | the two loops compute the sum over all lines of the Fashion pairs discount plus the Electronics 10%, reading the cart only |
| `Carts.AddLine` | main.py:65-69 | adding to a present id keeps its product and adds to its quantity; a new id gets the line (product, quantity); keys become old keys plus the id; every other line unchanged |
| `Carts.RemoveLine` | main.py:71-76 | absent id: no change; no quantity or quantity at least the current one: the key is deleted; otherwise the quantity decreases by the given amount; every other line unchanged |
| `Carts.AddKeepsWellFormed` | main.py:65-69 | adding a positive quantity keeps every stored quantity at least one and every line under its product's id |
| `Carts.AddNonPositiveBreaksWellFormed` | main.py:65-69 | adding a quantity below one to an empty cart stores a non-positive quantity |
| `Carts.RemoveKeepsWellFormed` | main.py:71-76 | every removal, with any quantity, keeps the invariant |
| `Carts.AddTwice` | main.py:65-69 | adding q1 then q2 of a product equals adding q1 + q2 |
| `Carts.RemoveAllUndoesAdd` | main.py:65-74 | removing without a quantity after an add leaves the cart without that product and otherwise as before |
| `Carts.RemoveUndoesAdd` | main.py:65-76 | on a well-formed cart, removing the quantity just added restores the cart exactly |
| `Carts.AddTotal` | main.py:65-69 | adding q of a product raises the pre-discount total by q times its price |
| `Carts.RemoveTotal` | main.py:71-76 | removal lowers the total by the cost of the items actually taken off (the whole line, or the quantity asked for), and an absent id leaves it unchanged |
| `Carts.DiscountWithinTotal` | main.py:90-93 | with non-negative prices and quantities the discount is between zero and the total |
| `Carts.Cart.constructor` | main.py:62-63 | a new cart is empty and valid |
| `Carts.Cart.AddToCart` | main.py:65-69 | the items become AddLine of the old items; a positive quantity keeps the invariant |
| `Carts.Cart.RemoveFromCart` | main.py:71-76 | the items become RemoveLine of the old items; the invariant is kept |
| `Carts.Cart.ViewCart` | main.py:78-88 | the loop returns the sum of price times quantity over all lines and changes nothing |
| `Carts.Cart.Checkout` | main.py:90-97 | returns total minus discount, leaves the items as they were, and is non-negative for non-negative prices and quantities |
| `Ecommerce.CatalogWellKeyed` | main.py:103-107 | each catalog product is stored under its own id and has a non-negative price |
| `Ecommerce.EcommerceSystem.constructor` | main.py:102-108 | the system starts with a fresh empty cart that holds only catalog products |
| `Ecommerce.EcommerceSystem.AddToCart` | main.py:121-127 | an id outside P001, P002, P003 reports not found and leaves the cart unchanged; a catalog id adds the catalog's product; the invariant is kept for positive quantities |
| `Ecommerce.EcommerceSystem.RemoveFromCart` | main.py:129-131 | always delegates to the cart's removal |
| `Ecommerce.EcommerceSystem.ViewCart` | main.py:133-134 | the pre-discount total the facade prints, obtained from the cart's view |
| `Ecommerce.EcommerceSystem.Checkout` | main.py:136-146 | the amount due is total minus discount and never negative on a valid system; declined: nothing shown; unsupported code: reported; supported code: the amount times its rate |
| `Ecommerce.ReferenceScenario` | main.py:78-97 | three T-shirts and two phones total 1060 with a discount of 120 |
| `Ecommerce.CheckoutScenario` | main.py:121-146 | adding P003 x3 and P002 x2 and checking out gives 940, shown as 799 in EUR |
| `Cli.CatalogIdsUpperCase` | main.py:103-107 | every catalog id starts with a capital letter and has no small letters |
| `Cli.UpperAfterLower` | main.py:155 | upper-casing a lower-cased string is upper-casing the original |
| `Cli.AsWrittenNeverInCatalog` | main.py:155-166 | whatever is typed, the product id the driver passes on is not a catalog id |
| `Cli.CorrectedFindsCatalogIds` | main.py:155-166 | with the id upper-cased again, a catalog id typed in any mix of cases is looked up as that id |
| `Cli.CorrectedFindsListedId` | main.py:155-166 | with the fix, the id exactly as listed is found |

## Findings

| source | as written | input that shows it | evidently intended | confidence | as-written member | corrected member |
|---|---|---|---|---|---|---|
| main.py:155-166 | the driver lower-cases the whole command line, so the product id token is lower-cased before `add_to_cart` and `remove_from_cart` look it up, while every catalog id begins with a capital `P` | `add_to_cart P001 1` looks up `p001` and reports the product as not found; no typed id can ever reach the catalog, and removal likewise can never match | the id as listed (`P001`) finds the product | high; not executed | `Cli.AsWrittenNeverInCatalog` | `Cli.CorrectedFindsCatalogIds` |

## Left out

- All printing: the listings of `view_cart`, `list_products` and `list_discounts`, the two-decimal formatting and the confirmation messages; the facade's found/not-found message is the boolean result of `AddToCart`.
- Ecommerce.EcommerceSystem.ViewCart, Ecommerce.EcommerceSystem.Checkout: the source's facade returns nothing; the totals and the conversion it prints are the model's results.
- `Discount.list_discounts`: a constant list of two strings with no logic.
- The read-eval loop of `main()`: reading lines, splitting, `int()` conversion and its exception, usage messages. Only the case mapping of the product id is modelled, in `Cli`, for ASCII letters.
- The prompts of `EcommerceSystem.checkout`: reading the answers and their `lower()`/`upper()` folding; the answers enter `Checkout` as a parameter.
- Floating point: prices, rates and the 0.1 factor are exact reals, so the model says nothing about float rounding.
- Dictionary iteration order: totals and discounts are stated as order-independent sums over the keys.
- Object identity: Python's cart lines are small dictionaries and products are objects; here both are values, which changes nothing observable because the cart's lines are never shared.
- Discount.ApplyDiscounts: takes the cart's item table instead of the cart object, because the source only reads `cart.items`.
