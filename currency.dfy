/** Conversion of an amount between the three supported currencies. */
module CurrencyConverter {

  /** Rates relative to the base currency, USD. */
  const Rates: map<string, real> := map["USD" := 1.0, "EUR" := 0.85, "GBP" := 0.75]

  datatype ConversionError = UnsupportedCurrency(fromCurrency: string, toCurrency: string)

  datatype Result = Ok(value: real) | Err(error: ConversionError)

  /**
   * Converts through the base currency. The same-currency test comes first,
   * so an unknown code converted to itself is not an error.
   */
  function Convert(amount: real, fromCurrency: string, toCurrency: string): (r: Result)
    ensures fromCurrency == toCurrency ==> r == Ok(amount)
    ensures r.Err? <==> fromCurrency != toCurrency && (fromCurrency !in Rates || toCurrency !in Rates)
    ensures r.Err? ==> r.error == UnsupportedCurrency(fromCurrency, toCurrency)
    ensures r.Ok? && fromCurrency in Rates && toCurrency in Rates ==>
              r.value * Rates[fromCurrency] == amount * Rates[toCurrency]
    ensures r.Ok? && amount >= 0.0 ==> r.value >= 0.0
  {
    if fromCurrency == toCurrency then Ok(amount)
    else if fromCurrency !in Rates || toCurrency !in Rates then Err(UnsupportedCurrency(fromCurrency, toCurrency))
    else
      var usdAmount := amount / Rates[fromCurrency];
      Ok(usdAmount * Rates[toCurrency])
  }

  /** Converting there and back gives the amount back exactly. */
  lemma ConvertRoundTrip(amount: real, a: string, b: string)
    requires a in Rates && b in Rates
    ensures Convert(amount, a, b).Ok?
    ensures Convert(Convert(amount, a, b).value, b, a) == Ok(amount)
  {
    if a != b {
      var there := Convert(amount, a, b).value;
      assert there * Rates[a] == amount * Rates[b];
      assert Convert(there, b, a).value * Rates[b] == there * Rates[a];
    }
  }

  /** Converting in two steps is the same as converting directly. */
  lemma ConvertChain(amount: real, a: string, b: string, c: string)
    requires a in Rates && b in Rates && c in Rates
    ensures Convert(amount, a, b).Ok?
    ensures Convert(Convert(amount, a, b).value, b, c) == Convert(amount, a, c)
  {
    var there := Convert(amount, a, b).value;
    var direct := Convert(amount, a, c).value;
    var twoSteps := Convert(there, b, c).value;
    assert there * Rates[a] == amount * Rates[b];
    assert twoSteps * Rates[b] == there * Rates[c];
    assert direct * Rates[a] == amount * Rates[c];
    assert twoSteps * Rates[b] * Rates[a] == direct * Rates[a] * Rates[b];
  }

  /** From the base currency the amount is multiplied by the target's rate. */
  lemma ConvertFromBase(amount: real, code: string)
    requires code in Rates
    ensures Convert(amount, "USD", code) == Ok(amount * Rates[code])
  {
  }
}
