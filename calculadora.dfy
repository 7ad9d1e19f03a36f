/**
 * The calculator's records and the variant of `calcularValores` in
 * src/app/utils/calculadora.ts: it converts with 31.1035 grams per troy ounce
 * and multiplies the totals by the weight whatever its sign.
 */
module AppCalculadora {
  import opened Numeros

  /** The five text fields as the operator typed them. */
  datatype ValoresEntrada = ValoresEntrada(
    pricePerOz: string,
    exchangeRate: string,
    purity: string,
    grams: string,
    discountPercentage: string)

  /** Prices per gram and totals in dollars (USD) and soles (PEN). */
  datatype ValoresCalculados = ValoresCalculados(
    pricePerGramUSD: real,
    pricePerGramPEN: real,
    totalUSD: real,
    totalPEN: real,
    valido: bool)

  const APP_OUNCE_GRAMS: real := 31.1035

  /** What both calculators return when the price cannot be computed. */
  const Invalid := ValoresCalculados(0.0, 0.0, 0.0, 0.0, false)

  /** The parsed fields, each through the calculator's `parse`. */
  function Oz(e: ValoresEntrada): real { ParseField(e.pricePerOz) }
  function Rate(e: ValoresEntrada): real { ParseField(e.exchangeRate) }
  function Purity(e: ValoresEntrada): real { ParseField(e.purity) }
  function Grams(e: ValoresEntrada): real { ParseField(e.grams) }
  function Discount(e: ValoresEntrada): real { ParseField(e.discountPercentage) / 100.0 }

  /** The validity gate shared by both calculators: ounce price, exchange rate
      and purity all positive; weight and discount play no part. */
  predicate CanCalculatePrice(e: ValoresEntrada) {
    Oz(e) > 0.0 && Rate(e) > 0.0 && Purity(e) > 0.0
  }

  /** The arithmetic of `calcularValores` once the five fields are read; `discount`
      is already a fraction (the percentage over 100). */
  function Calcular(oz: real, rate: real, pur: real, g: real, discount: real): (r: ValoresCalculados)
    ensures r.valido <==> oz > 0.0 && rate > 0.0 && pur > 0.0
    ensures !r.valido ==> r == Invalid
    // one troy ounce (31.1035 g here) of the metal costs the spot price scaled by purity and discount
    ensures r.valido ==> r.pricePerGramUSD * APP_OUNCE_GRAMS == oz * pur * (1.0 - discount)
    ensures r.pricePerGramPEN == r.pricePerGramUSD * rate
    ensures r.totalUSD == r.pricePerGramUSD * g
    ensures r.totalPEN == r.totalUSD * rate
  {
    if oz <= 0.0 || rate <= 0.0 || pur <= 0.0 then Invalid
    else
      var pricePerGramUSD := (oz / APP_OUNCE_GRAMS) * pur * (1.0 - discount);
      var pricePerGramPEN := pricePerGramUSD * rate;
      var totalUSD := pricePerGramUSD * g;
      var totalPEN := totalUSD * rate;
      ValoresCalculados(pricePerGramUSD, pricePerGramPEN, totalUSD, totalPEN, true)
  }

  /** `calcularValores`: read the five fields, then compute. */
  function CalcularValores(e: ValoresEntrada): (r: ValoresCalculados)
    ensures r.valido <==> CanCalculatePrice(e)
    ensures !r.valido ==> r == Invalid
  {
    Calcular(Oz(e), Rate(e), Purity(e), Grams(e), Discount(e))
  }

  lemma PositiveProduct(a: real, b: real, c: real)
    requires a > 0.0 && b > 0.0 && c > 0.0
    ensures a * b * c > 0.0
  {
    assert a * b > 0.0;
  }

  /** With a discount under 100% a computable price is positive in both currencies. */
  lemma PositivePrice(oz: real, rate: real, pur: real, g: real, discount: real)
    requires oz > 0.0 && rate > 0.0 && pur > 0.0 && discount < 1.0
    ensures Calcular(oz, rate, pur, g, discount).pricePerGramUSD > 0.0
    ensures Calcular(oz, rate, pur, g, discount).pricePerGramPEN > 0.0
  {
    var r := Calcular(oz, rate, pur, g, discount);
    PositiveProduct(oz / APP_OUNCE_GRAMS, pur, 1.0 - discount);
    assert r.pricePerGramUSD > 0.0;
    assert r.pricePerGramUSD * rate > 0.0;
  }

  /** Nothing gates the totals on the weight: a negative weight gives negative totals. */
  lemma NegativeWeightNegativeTotals(oz: real, rate: real, pur: real, g: real, discount: real)
    requires oz > 0.0 && rate > 0.0 && pur > 0.0 && discount < 1.0 && g < 0.0
    ensures Calcular(oz, rate, pur, g, discount).totalUSD < 0.0
    ensures Calcular(oz, rate, pur, g, discount).totalPEN < 0.0
  {
    var r := Calcular(oz, rate, pur, g, discount);
    PositivePrice(oz, rate, pur, g, discount);
    assert r.pricePerGramUSD * g < 0.0;
    assert r.totalUSD * rate < 0.0;
  }
}

/**
 * `calcularValores` in src/utils/calculadora.ts, the one the registration screen
 * uses: the exact troy ounce (31.1034768 g) and totals only for a positive weight.
 */
module Calculadora {
  import opened Numeros
  import opened AppCalculadora

  const TROY_OUNCE_GRAMS: real := 31.1034768

  /** The arithmetic of `calcularValores` once the five fields are read. */
  function Calcular(oz: real, rate: real, pur: real, g: real, discount: real): (r: ValoresCalculados)
    ensures r.valido <==> oz > 0.0 && rate > 0.0 && pur > 0.0
    ensures !r.valido ==> r == Invalid
    // one troy ounce of the metal costs the spot price scaled by purity and discount
    ensures r.valido ==> r.pricePerGramUSD * TROY_OUNCE_GRAMS == oz * pur * (1.0 - discount)
    ensures r.pricePerGramPEN == r.pricePerGramUSD * rate
    ensures g > 0.0 ==> r.totalUSD == r.pricePerGramUSD * g && r.totalPEN == r.pricePerGramPEN * g
    ensures g <= 0.0 ==> r.totalUSD == 0.0 && r.totalPEN == 0.0
    ensures r.totalPEN == r.totalUSD * rate
  {
    var canCalculateGrams := g > 0.0;
    var canCalculatePrice := oz > 0.0 && rate > 0.0 && pur > 0.0;
    if !canCalculatePrice then Invalid
    else
      var pricePerGramUSD := (oz / TROY_OUNCE_GRAMS) * pur * (1.0 - discount);
      var pricePerGramPEN := pricePerGramUSD * rate;
      var totalUSD := if canCalculateGrams then pricePerGramUSD * g else 0.0;
      var totalPEN := if canCalculateGrams then pricePerGramPEN * g else 0.0;
      ValoresCalculados(pricePerGramUSD, pricePerGramPEN, totalUSD, totalPEN, true)
  }

  /** `calcularValores`: read the five fields, then compute. */
  function CalcularValores(e: ValoresEntrada): (r: ValoresCalculados)
    ensures r.valido <==> CanCalculatePrice(e)
    ensures !r.valido ==> r == Invalid
    ensures Grams(e) <= 0.0 ==> r.totalUSD == 0.0 && r.totalPEN == 0.0
  {
    Calcular(Oz(e), Rate(e), Purity(e), Grams(e), Discount(e))
  }

  /** Empty or unreadable weight text gives zero totals even for a valid price. */
  lemma EmptyWeightZeroTotals(e: ValoresEntrada)
    requires forall i :: 0 <= i < |e.grams| ==> !IsDigit(e.grams[i])
    ensures CalcularValores(e).totalUSD == 0.0 && CalcularValores(e).totalPEN == 0.0
    ensures CalcularValores(e).valido == CanCalculatePrice(e)
  {
  }

  /** The two calculators agree on validity and, up to their ounce constants, on the
      price per gram; for a positive weight their totals differ only by that constant. */
  lemma VariantsAgree(oz: real, rate: real, pur: real, g: real, discount: real)
    ensures Calcular(oz, rate, pur, g, discount).valido
         == AppCalculadora.Calcular(oz, rate, pur, g, discount).valido
    ensures Calcular(oz, rate, pur, g, discount).pricePerGramUSD * TROY_OUNCE_GRAMS
         == AppCalculadora.Calcular(oz, rate, pur, g, discount).pricePerGramUSD * APP_OUNCE_GRAMS
    ensures g > 0.0 ==>
      Calcular(oz, rate, pur, g, discount).totalUSD * TROY_OUNCE_GRAMS
        == AppCalculadora.Calcular(oz, rate, pur, g, discount).totalUSD * APP_OUNCE_GRAMS
  {
    var r1 := Calcular(oz, rate, pur, g, discount);
    var r2 := AppCalculadora.Calcular(oz, rate, pur, g, discount);
    if r1.valido && g > 0.0 {
      calc {
        r1.totalUSD * TROY_OUNCE_GRAMS;
        (r1.pricePerGramUSD * TROY_OUNCE_GRAMS) * g;
        (r2.pricePerGramUSD * APP_OUNCE_GRAMS) * g;
        r2.totalUSD * APP_OUNCE_GRAMS;
      }
    }
  }

  /** For a negative weight the variants part ways: zero totals here, negative
      totals in the other one. */
  lemma VariantsPartOnNegativeWeight(oz: real, rate: real, pur: real, g: real, discount: real)
    requires oz > 0.0 && rate > 0.0 && pur > 0.0 && discount < 1.0 && g < 0.0
    ensures Calcular(oz, rate, pur, g, discount).totalUSD == 0.0
    ensures AppCalculadora.Calcular(oz, rate, pur, g, discount).totalUSD < 0.0
  {
    NegativeWeightNegativeTotals(oz, rate, pur, g, discount);
  }
}

/** The worked example: an ounce at 1980.45 USD, 3.75 PEN per USD, purity 0.75,
    10 g and a 5% discount. */
module Example {
  import opened Numeros
  import opened AppCalculadora
  import Calculadora

  const Sample := ValoresEntrada("1980.45", "3.75", "0.75", "10", "5")

  lemma ReadsRate()
    ensures ParseField("3.75") == 3.75
  {
    assert "3.75" == "3" + ['.'] + "75" && AllDigits("3") && AllDigits("75");
    ReadsDecimal("3", "75");
    assert DigitsValue("3") == 3.0;
    assert FractionValue("75") == 0.75 by { assert "75"[1..] == "5"; assert "5"[1..] == ""; }
  }

  lemma ReadsPurity()
    ensures ParseField("0.75") == 0.75
  {
    assert "0.75" == "0" + ['.'] + "75" && AllDigits("0") && AllDigits("75");
    ReadsDecimal("0", "75");
    assert DigitsValue("0") == 0.0;
    assert FractionValue("75") == 0.75 by { assert "75"[1..] == "5"; assert "5"[1..] == ""; }
  }

  lemma ReadsGrams()
    ensures ParseField("10") == 10.0
  {
    assert AllDigits("10");
    ReadsWhole("10");
    assert DigitsValue("10") == 10.0 by { assert "10"[..1] == "1"; }
  }

  lemma ReadsDiscount()
    ensures ParseField("5") == 5.0
  {
    assert AllDigits("5");
    ReadsWhole("5");
    assert DigitsValue("5") == 5.0;
  }

  lemma ReadsSample()
    ensures Oz(Sample) == 1980.45 && Rate(Sample) == 3.75 && Purity(Sample) == 0.75
    ensures Grams(Sample) == 10.0 && Discount(Sample) == 0.05
  {
    PointExample();
    ReadsRate();
    ReadsPurity();
    ReadsGrams();
    ReadsDiscount();
  }

  /** The example prices about 45.367 USD (170.126 PEN) per gram, 453.67 USD
      (1701.26 PEN) for the 10 g. */
  lemma SamplePrices()
    ensures Calculadora.CalcularValores(Sample).valido
    ensures 45.366 < Calculadora.CalcularValores(Sample).pricePerGramUSD < 45.368
    ensures 170.12 < Calculadora.CalcularValores(Sample).pricePerGramPEN < 170.13
    ensures 453.66 < Calculadora.CalcularValores(Sample).totalUSD < 453.68
    ensures 1701.26 < Calculadora.CalcularValores(Sample).totalPEN < 1701.27
  {
    ReadsSample();
    var r := Calculadora.Calcular(1980.45, 3.75, 0.75, 10.0, 0.05);
    assert Calculadora.CalcularValores(Sample) == r;
  }

  /** With the weight field left empty the price is still valid but the totals are 0. */
  lemma SampleWithoutWeight()
    ensures Calculadora.CalcularValores(Sample.(grams := "")).valido
    ensures Calculadora.CalcularValores(Sample.(grams := "")).totalUSD == 0.0
    ensures Calculadora.CalcularValores(Sample.(grams := "")).totalPEN == 0.0
  {
    ReadsSample();
  }

  /** With an ounce price of 0 nothing is priced, whatever the other fields say. */
  lemma ZeroOuncePrice(e: ValoresEntrada)
    requires e.pricePerOz == "0"
    ensures Calculadora.CalcularValores(e) == Invalid
  {
    assert AllDigits("0");
    ReadsWhole("0");
    assert DigitsValue("0") == 0.0;
  }
}
