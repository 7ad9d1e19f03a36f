/**
 * The price per gram the profile screen (src/app/components/ProfileConfig.tsx)
 * computes with its own inline copy of the calculator. That copy multiplies by
 * `(discount - 1)` where both calculators multiply by `(1 - discount)`, so it
 * shows every computable price with its sign flipped.
 */
module ProfileConfig {
  import opened AppCalculadora

  /** The profile screen's price per gram in USD, as written. */
  function PricePerGramUSDAsWritten(oz: real, pur: real, discount: real): (p: real)
    ensures p * APP_OUNCE_GRAMS == oz * pur * (discount - 1.0)
  {
    ((oz / APP_OUNCE_GRAMS) * pur) * (discount - 1.0)
  }

  /** The copy is the calculator's price negated. */
  lemma AsWrittenIsNegated(oz: real, rate: real, pur: real, g: real, discount: real)
    requires oz > 0.0 && rate > 0.0 && pur > 0.0
    ensures PricePerGramUSDAsWritten(oz, pur, discount)
         == -Calcular(oz, rate, pur, g, discount).pricePerGramUSD
  {
    var p := oz / APP_OUNCE_GRAMS;
    assert p * pur * (discount - 1.0) == -(p * pur * (1.0 - discount));
  }

  /** For any ordinary discount (under 100%) the screen shows a negative price
      where the calculator gives a positive one; the worked example (1980.45 USD
      an ounce, 3.75 PEN per USD, purity 0.75, 5% off) is one such input. */
  lemma AsWrittenIsNegative(oz: real, rate: real, pur: real, g: real, discount: real)
    requires oz > 0.0 && rate > 0.0 && pur > 0.0 && discount < 1.0
    ensures PricePerGramUSDAsWritten(oz, pur, discount) < 0.0
    ensures Calcular(oz, rate, pur, g, discount).pricePerGramUSD > 0.0
  {
    PositivePrice(oz, rate, pur, g, discount);
    AsWrittenIsNegated(oz, rate, pur, g, discount);
  }

  lemma SampleIsNegative()
    ensures PricePerGramUSDAsWritten(1980.45, 0.75, 0.05) < 0.0
    ensures Calcular(1980.45, 3.75, 0.75, 10.0, 0.05).pricePerGramUSD > 0.0
  {
    AsWrittenIsNegative(1980.45, 3.75, 0.75, 10.0, 0.05);
  }
}
