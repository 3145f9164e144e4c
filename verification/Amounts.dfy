/**
 * Quote, fee and conversion arithmetic. All amounts are integers in the smallest unit of a token and
 * prices carry 18 decimals, so every product is floored on the way back.
 */
module Amounts {
  import opened Sums

  const SCALE: nat := 1_000_000_000_000_000_000

  /** The highest price at which a buyer's fee, charged in base units, can never exceed the fill. */
  const FEE_SAFE_PRICE: nat := 400 * SCALE

  function Quote(quantity: nat, price: nat): nat {
    quantity * price / SCALE
  }

  function Fee(quantity: nat, price: nat): nat {
    Quote(quantity, price) * 25 / 10000
  }

  // ---- Floors ----

  lemma FloorOfSum(a: nat, b: nat, d: nat)
    requires d > 0
    ensures a / d + b / d <= (a + b) / d <= a / d + b / d + 1
  {
    var x, y := a / d, b / d;
    assert a == x * d + a % d && b == y * d + b % d;
    var z := (a + b) / d;
    assert a + b == z * d + (a + b) % d;
    assert z * d < (x + y + 2) * d;
    assert (x + y) * d < (z + 1) * d;
    TimesMonotone(x + y + 2, z, d);
    TimesMonotone(z + 1, x + y, d);
  }

  lemma TimesMonotone(a: int, b: int, d: nat)
    ensures a <= b ==> a * d <= b * d
  {
    if a <= b {
      assert 0 <= (b - a) * d;
    }
  }

  lemma FloorMonotone(a: nat, b: nat, d: nat)
    requires d > 0 && a <= b
    ensures a / d <= b / d
  {
    FloorOfSum(a, b - a, d);
  }

  lemma FloorCharacterized(a: nat, d: nat, k: int)
    requires d > 0
    ensures k <= a / d <==> k * d <= a
  {
    var q := a / d;
    assert q * d <= a < (q + 1) * d by {
      assert a == q * d + a % d;
    }
    TimesMonotone(k, q, d);
    TimesMonotone(q + 1, k, d);
  }

  lemma {:induction false} FloorOfFloor(a: nat, d: nat, e: nat)
    requires d > 0 && e > 0
    ensures d * e > 0
    ensures a / d / e == a / (d * e)
  {
    assert d * e > 0;
    var k := a / d / e;
    FloorCharacterized(a / d, e, k);
    FloorCharacterized(a, d, k * e);
    FloorCharacterized(a, d * e, k);
    assert k * e * d == k * (d * e);
    FloorCharacterized(a / d, e, k + 1);
    FloorCharacterized(a, d, (k + 1) * e);
    FloorCharacterized(a, d * e, k + 1);
    assert (k + 1) * e * d == (k + 1) * (d * e);
  }

  /** The fraction a floor drops is less than one. */
  lemma FloorBounds(a: nat, d: nat)
    requires d > 0
    ensures a / d * d <= a < (a / d + 1) * d
  {
    FloorCharacterized(a, d, a / d);
    FloorCharacterized(a, d, a / d + 1);
  }

  // ---- Fills ----

  /** A quote is the product at 18 decimals, rounded down; at a price of one it is the quantity. */
  lemma QuoteIsFloor(quantity: nat, price: nat)
    ensures Quote(quantity, price) * 1_000_000_000_000_000_000 <= quantity * price
    ensures quantity * price < (Quote(quantity, price) + 1) * 1_000_000_000_000_000_000
    ensures Quote(quantity, 1_000_000_000_000_000_000) == quantity
  {
    FloorBounds(quantity * price, SCALE);
    FloorCharacterized(quantity * SCALE, SCALE, quantity);
    FloorCharacterized(quantity * SCALE, SCALE, quantity + 1);
  }

  /** A fee is a quarter of a percent of the quote, rounded down. */
  lemma FeeIsQuarterPercent(quantity: nat, price: nat)
    ensures 400 * Fee(quantity, price) <= Quote(quantity, price) < 400 * (Fee(quantity, price) + 1)
  {
  }

  /** Splitting a quantity at one price loses at most one unit of quote, and never gains one. */
  lemma QuoteSplit(a: nat, b: nat, price: nat)
    ensures Quote(a, price) + Quote(b, price) <= Quote(a + b, price) <= Quote(a, price) + Quote(b, price) + 1
  {
    assert (a + b) * price == a * price + b * price;
    FloorOfSum(a * price, b * price, SCALE);
  }

  lemma QuoteMonotone(quantity: nat, low: nat, high: nat)
    requires low <= high
    ensures Quote(quantity, low) <= Quote(quantity, high)
  {
    assert quantity * low + quantity * (high - low) == quantity * high;
    FloorMonotone(quantity * low, quantity * high, SCALE);
  }

  /** Splitting a fill at one price never raises the total fee. */
  lemma FeeSplit(a: nat, b: nat, price: nat)
    ensures Fee(a, price) + Fee(b, price) <= Fee(a + b, price)
  {
    QuoteSplit(a, b, price);
    var x, y, z := Quote(a, price), Quote(b, price), Quote(a + b, price);
    FloorOfSum(x * 25, y * 25, 10000);
    FloorMonotone(x * 25 + y * 25, z * 25, 10000);
  }

  lemma FeeWithinFill(quantity: nat, price: nat)
    requires price <= FEE_SAFE_PRICE
    ensures Fee(quantity, price) <= quantity
  {
    QuoteMonotone(quantity, price, FEE_SAFE_PRICE);
    assert quantity * FEE_SAFE_PRICE == (400 * quantity) * SCALE;
    FloorCharacterized((400 * quantity) * SCALE, SCALE, 400 * quantity + 1);
  }

  /** The buyer's credit in base units is nonnegative for every quantity exactly up to the safe price. */
  lemma BuyerCreditNonNegativeIff(price: nat)
    ensures (forall quantity: nat :: Fee(quantity, price) <= quantity) <==> price <= FEE_SAFE_PRICE
    ensures FEE_SAFE_PRICE == 400_000_000_000_000_000_000
  {
    if price <= FEE_SAFE_PRICE {
      forall quantity: nat ensures Fee(quantity, price) <= quantity {
        FeeWithinFill(quantity, price);
      }
    } else {
      var quantity := 400 * SCALE;
      var product := quantity * price;
      assert quantity * (price - 400 * SCALE) >= quantity;
      assert product == quantity * (price - 400 * SCALE) + 400 * quantity * SCALE;
      FloorCharacterized(product, SCALE, 400 * (quantity + 1));
      assert Fee(quantity, price) > quantity;
    }
  }

  // ---- Swap quotes ----

  datatype SwapFees = SwapFees(platform: nat, bridge: nat, network: nat)

  function QuoteFees(amount: nat): SwapFees {
    SwapFees(amount * 25 / 10000, amount * 15 / 10000, 1000)
  }

  function TotalFee(amount: nat): nat {
    var fees := QuoteFees(amount);
    fees.platform + fees.bridge + fees.network
  }

  function Pow10(n: nat): (r: nat)
    ensures r > 0
  {
    if n == 0 then 1 else 10 * Pow10(n - 1)
  }

  function ConvertAmount(amount: nat, sourceDecimals: nat, targetDecimals: nat): nat {
    if sourceDecimals == targetDecimals then amount
    else if sourceDecimals > targetDecimals then ScaleDown(amount, Pow10(sourceDecimals - targetDecimals))
    else ScaleUp(amount, Pow10(targetDecimals - sourceDecimals))
  }

  function ScaleDown(amount: nat, factor: nat): nat
    requires factor > 0
  {
    amount / factor
  }

  function ScaleUp(amount: nat, factor: nat): nat {
    amount * factor
  }

  /** None stands for the error thrown when the amount is not positive or does not cover its fees. */
  function BuildQuote(amount: nat, sourceDecimals: nat, targetDecimals: nat): Option<nat> {
    if amount == 0 || TotalFee(amount) >= amount then None
    else Some(ConvertAmount(amount - TotalFee(amount), sourceDecimals, targetDecimals))
  }

  /** The fees of a swap: a quarter of a percent, fifteen hundredths of a percent, and a flat thousand. */
  lemma QuoteFeeRates(amount: nat)
    ensures
      var fees := QuoteFees(amount);
      && 10_000 * fees.platform <= 25 * amount < 10_000 * (fees.platform + 1)
      && 10_000 * fees.bridge <= 15 * amount < 10_000 * (fees.bridge + 1)
      && fees.network == 1000 && TotalFee(amount) == fees.platform + fees.bridge + fees.network
  {
  }

  /** A quote exists exactly above 1003 units. */
  lemma QuoteExistsIff(amount: nat, sourceDecimals: nat, targetDecimals: nat)
    ensures BuildQuote(amount, sourceDecimals, targetDecimals).Some? <==> amount > 1003
  {
    if amount > 1003 {
      assert TotalFee(amount) < amount;
    }
  }

  /** Paying more never nets more than one unit less; 1999 against 2000 shows that the unit is needed. */
  lemma NetAlmostMonotone(a: nat, b: nat)
    requires a <= b
    ensures a - TotalFee(a) <= b - TotalFee(b) + 1
    ensures 1999 - TotalFee(1999) == 2000 - TotalFee(2000) + 1
  {
    var d := b - a;
    FloorOfSum(a * 25, d * 25, 10000);
    FloorOfSum(a * 15, d * 15, 10000);
    if d >= 1 {
      assert d * 25 / 10000 + d * 15 / 10000 + 2 <= d + 1;
    }
  }

  // ---- Round trips ----

  lemma {:induction false} Pow10Add(m: nat, n: nat)
    ensures Pow10(m + n) == Pow10(m) * Pow10(n)
  {
    if m > 0 {
      Pow10Add(m - 1, n);
      assert Pow10(m + n) == 10 * Pow10(m - 1 + n);
    }
  }

  /** One decimal more is a factor of ten. */
  lemma ConvertOneDecimal(amount: nat, decimals: nat)
    ensures ConvertAmount(amount, decimals, decimals) == amount
    ensures ConvertAmount(amount, decimals, decimals + 1) == 10 * amount
    ensures ConvertAmount(amount, decimals + 1, decimals) == amount / 10
  {
    assert Pow10(1) == 10 * Pow10(0);
  }

  /** Going down in two stages gives what going down at once gives, and so does going up. */
  lemma ConvertStaged(amount: nat, high: nat, middle: nat, low: nat)
    requires low <= middle <= high
    ensures ConvertAmount(ConvertAmount(amount, high, middle), middle, low) == ConvertAmount(amount, high, low)
    ensures ConvertAmount(ConvertAmount(amount, low, middle), middle, high) == ConvertAmount(amount, low, high)
  {
    Pow10Add(high - middle, middle - low);
    if low < middle < high {
      FloorOfFloor(amount, Pow10(high - middle), Pow10(middle - low));
      TimesAssociates(amount, Pow10(middle - low), Pow10(high - middle));
    }
  }

  lemma TimesAssociates(a: nat, b: nat, c: nat)
    ensures a * b * c == a * (c * b)
  {
  }

  /** Between the 6 decimals of a stable coin and the 18 of other tokens: a factor of a million million. */
  lemma ConvertSixEighteen(amount: nat)
    ensures ConvertAmount(amount, 6, 18) == amount * 1_000_000_000_000
    ensures ConvertAmount(amount, 18, 6) == amount / 1_000_000_000_000
    ensures 0 <= amount - ConvertAmount(ConvertAmount(amount, 18, 6), 6, 18) < 1_000_000_000_000
  {
    TwelveTens();
    FloorBounds(amount, 1_000_000_000_000);
  }

  lemma TwelveTens()
    ensures Pow10(12) == 1_000_000_000_000
  {
    assert Pow10(4) == 10_000;
    assert Pow10(8) == 100_000_000;
  }

  /** Rescaling up and back is exact; down and back never gains and loses less than one coarse unit. */
  lemma ConvertRoundTrip(amount: nat, fine: nat, coarse: nat)
    requires coarse <= fine
    ensures ConvertAmount(ConvertAmount(amount, coarse, fine), fine, coarse) == amount
    ensures 0 <= amount - ConvertAmount(ConvertAmount(amount, fine, coarse), coarse, fine) < Pow10(fine - coarse)
  {
    if coarse < fine {
      var d := Pow10(fine - coarse);
      FloorCharacterized(amount * d, d, amount);
      FloorCharacterized(amount * d, d, amount + 1);
      assert amount == amount / d * d + amount % d;
    }
  }

  /** rate is in hundredths, as after Math.floor(parseFloat(exchangeRate) * 100). */
  function UsdcAmount(tokens: nat, rate: nat): nat {
    tokens * rate / 100
  }

  function TokenAmount(usdc: nat, rate: nat): nat
    requires rate > 0
  {
    usdc * 100 / rate
  }

  /** At a rate of r hundredths, 100 tokens are worth r, and amounts in between round down. */
  lemma WrapRates(amount: nat, rate: nat)
    requires rate > 0
    ensures UsdcAmount(100 * amount, rate) == amount * rate && TokenAmount(amount * rate, rate) == 100 * amount
    ensures 100 * UsdcAmount(amount, rate) <= amount * rate < 100 * (UsdcAmount(amount, rate) + 1)
    ensures rate * TokenAmount(amount, rate) <= 100 * amount < rate * (TokenAmount(amount, rate) + 1)
  {
    FloorBounds(amount * rate, 100);
    FloorBounds(amount * 100, rate);
    assert 100 * amount * rate == amount * rate * 100;
    FloorCharacterized(amount * rate * 100, rate, 100 * amount);
    FloorCharacterized(amount * rate * 100, rate, 100 * amount + 1);
    assert amount * rate * 100 == 100 * amount * rate && (100 * amount + 1) * rate == 100 * amount * rate + rate;
  }

  /** Wrapping and unwrapping never gains, loses at most 100 / rate rounded up, and nothing when 100 divides rate. */
  lemma WrapRoundTrip(tokens: nat, rate: nat)
    requires rate > 0
    ensures 0 <= tokens - TokenAmount(UsdcAmount(tokens, rate), rate) <= (100 + rate - 1) / rate
    ensures rate % 100 == 0 ==> TokenAmount(UsdcAmount(tokens, rate), rate) == tokens
  {
    var product := tokens * rate;
    var paid := product / 100 * 100;
    assert product - 100 < paid <= product;
    FloorCharacterized(paid, rate, tokens + 1);
    assert (tokens + 1) * rate == product + rate;
    var loss := (100 + rate - 1) / rate;
    RoundedUp(rate, loss);
    assert (tokens - loss) * rate == product - loss * rate;
    FloorCharacterized(paid, rate, tokens - loss);
    if rate % 100 == 0 {
      assert product == (tokens * (rate / 100)) * 100;
      FloorCharacterized(paid, rate, tokens);
    }
  }

  lemma RoundedUp(rate: nat, loss: nat)
    requires rate > 0 && loss == (100 + rate - 1) / rate
    ensures loss * rate >= 100
  {
    FloorCharacterized(100 + rate - 1, rate, loss + 1);
    assert (loss + 1) * rate == loss * rate + rate;
  }
}
