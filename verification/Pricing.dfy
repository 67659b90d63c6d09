/** Price and discount arithmetic, exact over the reals. */
module Pricing {
  import opened Common

  datatype Currency = USD | XTR | RUB

  datatype Price = Price(original: real, discount: int, final: real)

  datatype Offer = Offer(currency: Currency, price: real)

  datatype PriceError = Negative | NoSuchPrice

  // ---------------------------------------------------------------- currency rules

  /** Decimal's ROUND_DOWN: toward zero. */
  function TowardZero(x: real): int {
    if x >= 0.0 then x.Floor else -((-x).Floor)
  }

  /** Decimal's default rounding: to the nearest, ties to even. */
  function HalfEven(x: real): int {
    var n := x.Floor;
    var part := x - n as real;
    if part < 0.5 || (part == 0.5 && n % 2 == 0) then n else n + 1
  }

  function Minimum(currency: Currency): real {
    if currency == XTR || currency == RUB then 1.0 else 0.01
  }

  /** XTR and RUB have no cents. */
  function Rounded(amount: real, currency: Currency): real {
    if currency == XTR || currency == RUB then TowardZero(amount) as real
    else HalfEven(100.0 * amount) as real / 100.0
  }

  function ApplyRules(amount: real, currency: Currency): real {
    if Rounded(amount, currency) < Minimum(currency) then Minimum(currency) else Rounded(amount, currency)
  }

  /** Of a numeric text that denotes `amount`. */
  function ParsePrice(amount: real, currency: Currency): Result<real, PriceError> {
    if amount < 0.0 then Err(Negative)
    else if amount == 0.0 then Ok(0.0)
    else Ok(ApplyRules(amount, currency))
  }

  // ---------------------------------------------------------------- discounts

  function OrZero(discount: Option<int>): int {
    if discount.Some? then discount.value else 0
  }

  function EffectiveDiscount(purchase: Option<int>, personal: Option<int>): int {
    Min(Max(OrZero(purchase), OrZero(personal)), 100)
  }

  /** `calculate`, for the discount in force. */
  function Calculate(price: real, discount: int, currency: Currency): Price {
    if price <= 0.0 then Price(0.0, 0, 0.0)
    else if discount >= 100 then Price(price, 100, 0.0)
    else
      var final := ApplyRules(price * (100.0 - discount as real) / 100.0, currency);
      Price(price, if final == price then 0 else discount, final)
  }

  function PriceIn(offers: seq<Offer>, currency: Currency): Option<real>
    decreases |offers|
  {
    if offers == [] then None
    else if offers[0].currency == currency then Some(offers[0].price)
    else PriceIn(offers[1..], currency)
  }

  /** `calculate_for_duration`. */
  function CalculateForDuration(offers: seq<Offer>, discount: int, currency: Currency): Result<Price, PriceError> {
    var price := PriceIn(offers, currency);
    if discount >= 100 && price.None? then
      Ok(Calculate(if offers == [] then 0.0 else offers[0].price, discount, currency))
    else if price.None? then Err(NoSuchPrice)
    else Ok(Calculate(price.value, discount, currency))
  }

  // ---------------------------------------------------------------- rounding

  /** The one integer within a half, or the even one of two. */
  lemma HalfEvenIsNearest(x: real, n: int)
    ensures n == HalfEven(x) <==>
              -0.5 <= x - n as real <= 0.5 && (x - n as real == 0.5 || x - n as real == -0.5 ==> n % 2 == 0)
  {
  }

  lemma HalfEvenGrows(x: real, y: real)
    requires x <= y
    ensures HalfEven(x) <= HalfEven(y)
  {
  }

  lemma TowardZeroGrows(x: real, y: real)
    requires x <= y
    ensures TowardZero(x) <= TowardZero(y)
  {
  }

  lemma RulesGrow(x: real, y: real, currency: Currency)
    requires x <= y
    ensures ApplyRules(x, currency) <= ApplyRules(y, currency)
  {
    HalfEvenGrows(100.0 * x, 100.0 * y);
    TowardZeroGrows(x, y);
  }

  /** Applying the rules twice is applying them once. */
  lemma RulesAreIdempotent(amount: real, currency: Currency)
    ensures ApplyRules(ApplyRules(amount, currency), currency) == ApplyRules(amount, currency)
  {
    var n := HalfEven(100.0 * amount);
    assert HalfEven(n as real) == n;
    assert 100.0 * (n as real / 100.0) == n as real;
    assert HalfEven(1.0) == 1;
    assert TowardZero(TowardZero(amount) as real) == TowardZero(amount);
  }

  // ---------------------------------------------------------------- prices that the rules accept

  /** A price as `parse_price` leaves it. */
  predicate Settled(price: real, currency: Currency) {
    price == 0.0 || (price > 0.0 && ApplyRules(price, currency) == price)
  }

  lemma ParsedIsSettled(amount: real, currency: Currency)
    ensures ParsePrice(amount, currency).Ok? <==> amount >= 0.0
    ensures amount >= 0.0 ==>
              && Settled(ParsePrice(amount, currency).value, currency)
              && (ParsePrice(amount, currency).value == 0.0 <==> amount == 0.0)
              && ParsePrice(ParsePrice(amount, currency).value, currency) == ParsePrice(amount, currency)
  {
    RulesAreIdempotent(amount, currency);
  }

  /** The settled prices are exactly the whole amounts of XTR and RUB, and the whole cents of USD. */
  lemma SettledIff(price: real, currency: Currency)
    ensures Settled(price, currency) <==>
              price >= 0.0 && if currency == USD then (100.0 * price).Floor as real == 100.0 * price
                              else price.Floor as real == price
  {
    if currency == USD {
      var n := HalfEven(100.0 * price);
      if price > 0.0 && (100.0 * price).Floor as real == 100.0 * price {
        assert n == (100.0 * price).Floor;
        assert n as real / 100.0 == price;
        assert n >= 1;
      }
      if price > 0.0 && ApplyRules(price, currency) == price {
        assert Rounded(price, currency) >= 0.01 ==> 100.0 * price == n as real;
      }
    }
  }

  // ---------------------------------------------------------------- a discounted price

  function Discounted(price: real, discount: int): real {
    price * (100.0 - discount as real) / 100.0
  }

  lemma DiscountsLower(price: real, less: int, more: int)
    requires price >= 0.0 && less <= more
    ensures Discounted(price, more) <= Discounted(price, less) && Discounted(price, 0) == price
  {
    Product(price, 100.0 - more as real, 100.0 - less as real);
  }

  lemma Product(p: real, x: real, y: real)
    requires p >= 0.0 && x <= y
    ensures p * x <= p * y
  {
  }

  /** The final amount never exceeds the original. */
  lemma FinalAtMostOriginal(price: real, discount: nat, currency: Currency)
    requires Settled(price, currency)
    ensures 0.0 <= Calculate(price, discount, currency).final <= Calculate(price, discount, currency).original
    ensures Calculate(price, discount, currency).original == price
  {
    hide ApplyRules;
    if price > 0.0 && discount < 100 {
      DiscountsLower(price, 0, discount);
      RulesGrow(Discounted(price, discount), price, currency);
      RulesArePositive(Discounted(price, discount), currency);
    }
  }

  lemma RulesArePositive(amount: real, currency: Currency)
    ensures ApplyRules(amount, currency) >= Minimum(currency) >= 0.01
  {
  }

  /** A larger discount never costs more. */
  lemma FinalFallsWithDiscount(price: real, less: int, more: int, currency: Currency)
    requires less <= more
    ensures Calculate(price, more, currency).final <= Calculate(price, less, currency).final
  {
    hide ApplyRules;
    if price > 0.0 {
      DiscountsLower(price, less, more);
      RulesGrow(Discounted(price, more), Discounted(price, less), currency);
      RulesArePositive(Discounted(price, less), currency);
    }
  }

  /** A dearer plan never ends up cheaper. */
  lemma FinalGrowsWithPrice(price: real, dearer: real, discount: nat, currency: Currency)
    requires price <= dearer
    ensures Calculate(price, discount, currency).final <= Calculate(dearer, discount, currency).final
  {
    hide ApplyRules;
    if price > 0.0 && discount < 100 {
      Product(100.0 - discount as real, price, dearer);
      RulesGrow(Discounted(price, discount), Discounted(dearer, discount), currency);
    }
    RulesArePositive(Discounted(dearer, discount), currency);
  }

  /** It is free exactly when the price is zero or everything is taken off: no rounding makes a payment free. */
  lemma FreeIff(price: real, discount: int, currency: Currency)
    requires price >= 0.0
    ensures Calculate(price, discount, currency).final == 0.0 <==> price == 0.0 || discount >= 100
  {
    RulesArePositive(Discounted(price, discount), currency);
  }

  /** Discount 0 is reported exactly when nothing was taken off; otherwise the discount in force, at most 100, is. */
  lemma NothingOffIff(price: real, discount: nat, currency: Currency)
    requires Settled(price, currency)
    ensures var p := Calculate(price, discount, currency);
            && (p.discount == 0 <==> p.final == p.original)
            && (p.discount != 0 ==> p.discount == Min(discount, 100))
  {
    hide ApplyRules;
    if price > 0.0 && discount == 0 {
      DiscountsLower(price, 0, 0);
    }
  }

  /** What the recovery snapshot's parser demands of a pricing. */
  predicate Recoverable(p: Price) {
    0.0 <= p.original && 0.0 <= p.final <= p.original && 0 <= p.discount <= 100
  }

  lemma PricesAreRecoverable(price: real, discount: nat, currency: Currency)
    requires Settled(price, currency)
    ensures Recoverable(Calculate(price, discount, currency))
  {
    FinalAtMostOriginal(price, discount, currency);
    NothingOffIff(price, discount, currency);
  }

  /** For other prices, exactly those that the rules do not raise have a final amount within the original at every discount. */
  lemma FinalAtMostOriginalIff(price: real, currency: Currency)
    requires price > 0.0
    ensures (forall discount: nat :: Calculate(price, discount, currency).final <= price)
            <==> ApplyRules(price, currency) <= price
  {
    hide ApplyRules;
    assert Calculate(price, 0, currency).final == ApplyRules(price, currency) by {
      DiscountsLower(price, 0, 0);
    }
    forall discount: nat
      ensures Calculate(price, discount, currency).final <= Calculate(price, 0, currency).final
    {
      FinalFallsWithDiscount(price, 0, discount, currency);
    }
  }

  /** A user's effective discount is the larger of those there are, capped, and zero if there is none. */
  lemma EffectiveDiscountIsTheLargest(purchase: Option<int>, personal: Option<int>)
    requires (purchase.Some? ==> purchase.value >= 0) && (personal.Some? ==> personal.value >= 0)
    ensures var d := EffectiveDiscount(purchase, personal);
            && 0 <= d <= 100
            && (purchase.Some? && d < 100 ==> d >= purchase.value)
            && (personal.Some? && d < 100 ==> d >= personal.value)
            && (d > 0 ==> (purchase.Some? && purchase.value >= d) || (personal.Some? && personal.value >= d))
  {
  }

  /** Whole units of XTR and RUB, rounded down but at least one; the nearest whole cents of USD, but at least one. */
  lemma RulesAre(amount: real, currency: Currency)
    ensures var price := ApplyRules(amount, currency);
            if currency != USD then price == if amount < 2.0 then 1.0 else amount.Floor as real
            else if amount < 0.015 then price == 0.01
            else
              var cents := (100.0 * price).Floor;
              && 100.0 * price == cents as real && -0.5 <= 100.0 * amount - cents as real <= 0.5
              && (100.0 * amount - cents as real in {-0.5, 0.5} ==> cents % 2 == 0)
  {
    if currency == USD {
      var n := HalfEven(100.0 * amount);
      assert 100.0 * (n as real / 100.0) == n as real;
    }
  }

  /** Below a full discount the final amount is the price less its share, after the rules. */
  lemma FinalIs(price: real, discount: nat, currency: Currency)
    requires price > 0.0 && discount < 100
    ensures Calculate(price, discount, currency).final == ApplyRules(price - price * discount as real / 100.0, currency)
  {
    assert price * (100.0 - discount as real) == price * 100.0 - price * discount as real;
  }

  /** A duration is priced in the first offer of the currency; a full discount without one shows the first offer there is. */
  lemma PricedInItsCurrency(offers: seq<Offer>, i: nat, discount: int, currency: Currency)
    requires i < |offers| && offers[i].currency == currency && forall j :: 0 <= j < i ==> offers[j].currency != currency
    ensures CalculateForDuration(offers, discount, currency) == Ok(Calculate(offers[i].price, discount, currency))
  {
    FirstOffer(offers, i, currency);
  }

  lemma {:induction false} FirstOffer(offers: seq<Offer>, i: nat, currency: Currency)
    requires i < |offers| && offers[i].currency == currency && forall j :: 0 <= j < i ==> offers[j].currency != currency
    ensures PriceIn(offers, currency) == Some(offers[i].price)
    decreases i
  {
    if i > 0 {
      FirstOffer(offers[1..], i - 1, currency);
    }
  }

  lemma FallsBackToTheFirst(offers: seq<Offer>, discount: int, currency: Currency)
    requires discount >= 100 && forall i :: 0 <= i < |offers| ==> offers[i].currency != currency
    ensures CalculateForDuration(offers, discount, currency)
            == Ok(Calculate(if offers == [] then 0.0 else offers[0].price, discount, currency))
  {
    PriceInIff(offers, currency);
  }

  /** A full discount makes every plan duration free, whatever currencies it has prices in; no other discount hides a missing price. */
  lemma FullDiscountAlwaysPrices(offers: seq<Offer>, discount: int, currency: Currency)
    requires forall i :: 0 <= i < |offers| ==> offers[i].price >= 0.0
    ensures CalculateForDuration(offers, discount, currency).Err? <==>
              discount < 100 && forall i :: 0 <= i < |offers| ==> offers[i].currency != currency
    ensures discount >= 100 ==> CalculateForDuration(offers, discount, currency).value.final == 0.0
  {
    PriceInIff(offers, currency);
  }

  lemma {:induction false} PriceInIff(offers: seq<Offer>, currency: Currency)
    ensures PriceIn(offers, currency).None? <==> forall i :: 0 <= i < |offers| ==> offers[i].currency != currency
    decreases |offers|
  {
    if offers != [] {
      PriceInIff(offers[1..], currency);
      assert offers == [offers[0]] + offers[1..];
    }
  }
}
