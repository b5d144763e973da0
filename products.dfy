/**
 * The value types of the store: a catalog product and a cart line, plus the
 * order-independent sum over the lines of a cart that the totals and the
 * discounts are built from.
 */
module Products {

  /** A catalog entry. Prices are exact reals: no binary floating point. */
  datatype Product = Product(id: string, name: string, price: real, category: string)

  /** One entry of a cart: the product and how many of it. */
  datatype Line = Line(product: Product, quantity: int)

  /** A cart's contents: product id to line, as the Python dictionary holds them. */
  type Items = map<string, Line>

  /** The price of a line before any discount. */
  function LineCost(l: Line): (r: real)
  {
    l.quantity as real * l.product.price
  }

  /** Multiplying quantities by a price distributes over their sum and difference. */
  lemma ScaleDistributes(a: int, b: int, p: real)
    ensures (a + b) as real * p == a as real * p + b as real * p
    ensures (a - b) as real * p == a as real * p - b as real * p
  {
  }

  /** Some key of a non-empty key set; fixes the order in which Sum folds. */
  ghost function Pick(keys: set<string>): (k: string)
    requires keys != {}
    ensures k in keys
  {
    var k :| k in keys; k
  }

  /** The sum of f over the lines of m stored under keys, in no particular order. */
  ghost function Sum(m: Items, keys: set<string>, f: Line -> real): (r: real)
    requires keys <= m.Keys
    decreases keys
  {
    if keys == {} then 0.0
    else
      var k := Pick(keys);
      f(m[k]) + Sum(m, keys - {k}, f)
  }

  /** Any key may be taken out first: the sum does not depend on the order. */
  lemma {:induction false} SumPick(m: Items, keys: set<string>, f: Line -> real, k: string)
    requires keys <= m.Keys && k in keys
    ensures Sum(m, keys, f) == f(m[k]) + Sum(m, keys - {k}, f)
    decreases keys
  {
    var j := Pick(keys);
    if j != k {
      SumPick(m, keys - {j}, f, k);
      SumPick(m, keys - {k}, f, j);
      assert keys - {j} - {k} == keys - {k} - {j};
    }
  }

  /** Two maps whose lines give the same f on keys give the same sum. */
  lemma {:induction false} SumAgree(m: Items, m': Items, keys: set<string>, f: Line -> real)
    requires keys <= m.Keys && keys <= m'.Keys
    requires forall k :: k in keys ==> f(m[k]) == f(m'[k])
    ensures Sum(m, keys, f) == Sum(m', keys, f)
    decreases keys
  {
    if keys != {} {
      var k := Pick(keys);
      SumAgree(m, m', keys - {k}, f);
    }
  }

  /** Replacing the line under a present key changes the sum by the difference. */
  lemma SumUpdate(m: Items, keys: set<string>, f: Line -> real, k: string, l: Line)
    requires keys <= m.Keys && k in keys
    ensures Sum(m[k := l], keys, f) == Sum(m, keys, f) - f(m[k]) + f(l)
  {
    SumPick(m, keys, f, k);
    SumPick(m[k := l], keys, f, k);
    SumAgree(m, m[k := l], keys - {k}, f);
  }

  /** Inserting a line under a new key adds its value to the sum. */
  lemma SumInsert(m: Items, keys: set<string>, f: Line -> real, k: string, l: Line)
    requires keys <= m.Keys && k !in keys
    ensures Sum(m[k := l], keys + {k}, f) == Sum(m, keys, f) + f(l)
  {
    SumPick(m[k := l], keys + {k}, f, k);
    assert keys + {k} - {k} == keys;
    SumAgree(m, m[k := l], keys, f);
  }

  /** Deleting a key takes its line's value out of the sum. */
  lemma SumDelete(m: Items, keys: set<string>, f: Line -> real, k: string)
    requires keys <= m.Keys && k in keys
    ensures Sum(m - {k}, keys - {k}, f) == Sum(m, keys, f) - f(m[k])
  {
    SumPick(m, keys, f, k);
    SumAgree(m, m - {k}, keys - {k}, f);
  }

  /** The sum of a pointwise sum is the sum of the two sums. */
  lemma {:induction false} SumSplit(m: Items, keys: set<string>, f: Line -> real, g: Line -> real, h: Line -> real)
    requires keys <= m.Keys
    requires forall l :: h(l) == f(l) + g(l)
    ensures Sum(m, keys, h) == Sum(m, keys, f) + Sum(m, keys, g)
    decreases keys
  {
    if keys != {} {
      var k := Pick(keys);
      SumSplit(m, keys - {k}, f, g, h);
    }
  }

  /** A pointwise bound on the lines carries over to the sums. */
  lemma {:induction false} SumMonotone(m: Items, keys: set<string>, f: Line -> real, g: Line -> real)
    requires keys <= m.Keys
    requires forall k :: k in keys ==> f(m[k]) <= g(m[k])
    ensures Sum(m, keys, f) <= Sum(m, keys, g)
    decreases keys
  {
    if keys != {} {
      var k := Pick(keys);
      SumMonotone(m, keys - {k}, f, g);
    }
  }
}
