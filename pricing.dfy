/**
 * The pricing policy of the checkout: 7% sales tax on the sum of the car
 * prices, then a tiered discount on the post-tax subtotal, and the share of
 * tax, discount and final total that each car of the cart is charged.
 *
 * Money is `real`: the model computes exactly where the program rounds every
 * step to an IEEE double.
 */
module Pricing {

  /** `Main.TAX_RATE`. */
  const TaxRate: real := 0.07

  /** The discount tiers, highest first. */
  datatype Tier = Twenty | Ten | Five | NoDiscount

  /** The tier a subtotal falls into: lower bounds inclusive, the highest bound that is met wins. */
  function TierOf(total: real): Tier
  {
    if total >= 100000.0 then Twenty
    else if total >= 50000.0 then Ten
    else if total >= 25000.0 then Five
    else NoDiscount
  }

  /** What is left of a subtotal after the tier's discount. */
  function Factor(t: Tier): real
  {
    match t
    case Twenty => 0.8
    case Ten => 0.9
    case Five => 0.95
    case NoDiscount => 1.0
  }

  /** The message shown for a tier. */
  function Describe(t: Tier): string
  {
    match t
    case Twenty => "20% discount applied"
    case Ten => "10% discount applied"
    case Five => "5% discount applied"
    case NoDiscount => "No discount applied"
  }

  /**
   * `calculateDiscountedTotal`: the subtotal after its tier's discount. For a
   * non-negative subtotal the result lies between 80% of it and all of it.
   */
  function DiscountedTotal(total: real): (r: real)
    ensures r == total * Factor(TierOf(total))
    ensures total >= 0.0 ==> 0.8 * total <= r <= total
    ensures total < 25000.0 <==> r == total
  {
    if total >= 100000.0 then total * 0.8
    else if total >= 50000.0 then total * 0.9
    else if total >= 25000.0 then total * 0.95
    else total
  }

  /** `getDiscountDescription`: names the tier that `DiscountedTotal` applies to the same subtotal. */
  function DiscountDescription(total: real): (r: string)
    ensures r == Describe(TierOf(total))
    ensures r == "No discount applied" <==> DiscountedTotal(total) == total
  {
    if total >= 100000.0 then "20% discount applied"
    else if total >= 50000.0 then "10% discount applied"
    else if total >= 25000.0 then "5% discount applied"
    else "No discount applied"
  }

  /** The discount amount, `subtotal - finalTotal`. */
  function Discount(subtotal: real): real
  {
    subtotal - DiscountedTotal(subtotal)
  }

  /** Exactly one tier applies to any subtotal, and its bounds are the ones the code tests. */
  lemma ExactlyOneTier(total: real)
    ensures TierOf(total) == Twenty <==> 100000.0 <= total
    ensures TierOf(total) == Ten <==> 50000.0 <= total < 100000.0
    ensures TierOf(total) == Five <==> 25000.0 <= total < 50000.0
    ensures TierOf(total) == NoDiscount <==> total < 25000.0
  {
  }

  /** Different tiers are reported with different messages, so the message identifies the tier. */
  lemma DescriptionIdentifiesTier(s1: real, s2: real)
    ensures DiscountDescription(s1) == DiscountDescription(s2) <==> TierOf(s1) == TierOf(s2)
  {
  }

  /** For a non-negative subtotal the discount is at least 0 and at most a fifth of it. */
  lemma DiscountBounds(subtotal: real)
    requires subtotal >= 0.0
    ensures 0.0 <= Discount(subtotal) <= 0.2 * subtotal
  {
  }

  /** The discount amount never decreases as the subtotal grows, across tier boundaries too. */
  lemma DiscountMonotone(s1: real, s2: real)
    requires s1 <= s2
    ensures Discount(s1) <= Discount(s2)
  {
    var t1, t2 := TierOf(s1), TierOf(s2);
    if t1 != t2 {
      // crossing a boundary upwards: the lower tier's discount is below the bound's,
      // the higher tier's discount is at least the bound's
      if t2 == Twenty { assert Discount(s2) >= 20000.0; assert Discount(s1) <= 10000.0; }
      else if t2 == Ten { assert Discount(s2) >= 5000.0; assert Discount(s1) <= 2500.0; }
      else { assert t2 == Five && t1 == NoDiscount; }
    }
  }

  /** The discounted total itself is not monotone: it drops when the 20% tier starts. */
  lemma DiscountedTotalNotMonotone()
    ensures exists s1: real, s2: real :: s1 < s2 && DiscountedTotal(s1) > DiscountedTotal(s2)
  {
    assert DiscountedTotal(99999.0) > DiscountedTotal(100000.0);
  }

  /** The figures of an order summary, in the order the code computes them. */
  datatype Quote = Quote(base: real, tax: real, subtotal: real, discount: real, finalTotal: real)

  /**
   * The pricing pipeline of `updateCartSummary` and of the checkout handler:
   * tax on the base, then the discount tier chosen on the post-tax subtotal.
   */
  function QuoteFor(base: real): Quote
  {
    var tax := base * TaxRate;
    var subtotal := base + tax;
    var finalTotal := DiscountedTotal(subtotal);
    Quote(base, tax, subtotal, subtotal - finalTotal, finalTotal)
  }

  /**
   * What a quote promises: a subtotal of 107% of the base, a discount and
   * final total that split the subtotal between them, the tier of the
   * subtotal applied, and for a non-negative base a discount of at most 20%.
   */
  lemma QuoteFigures(base: real)
    ensures var q := QuoteFor(base);
      && q.base == base && q.subtotal == base * 1.07
      && q.discount + q.finalTotal == q.subtotal
      && q.finalTotal == q.subtotal * Factor(TierOf(q.subtotal))
      && (base >= 0.0 ==> 0.0 <= q.discount <= 0.2 * q.subtotal && 0.0 <= q.finalTotal <= q.subtotal)
  {
  }

  /** Two carts worked through: one below every tier, one in the 20% tier. */
  lemma QuoteExamples()
    ensures QuoteFor(20000.0) == Quote(20000.0, 1400.0, 21400.0, 0.0, 21400.0)
    ensures QuoteFor(110000.0) == Quote(110000.0, 7700.0, 117700.0, 23540.0, 94160.0)
  {
  }


  /** Sum of a list of amounts, added left to right as the code's loops do. */
  function Sum(xs: seq<real>): real
  {
    if xs == [] then 0.0 else Sum(xs[..|xs| - 1]) + xs[|xs| - 1]
  }

  lemma SumSnoc(xs: seq<real>, x: real)
    ensures Sum(xs + [x]) == Sum(xs) + x
  {
    assert (xs + [x])[..|xs|] == xs;
  }

  lemma {:induction false} SumPositive(xs: seq<real>)
    requires forall i :: 0 <= i < |xs| ==> xs[i] > 0.0
    ensures xs != [] ==> Sum(xs) > 0.0
    ensures Sum(xs) >= 0.0
  {
    if xs != [] {
      SumPositive(xs[..|xs| - 1]);
    }
  }

  /** Each car's share of the base total, `price / base`. */
  function Proportions(prices: seq<real>, base: real): (r: seq<real>)
    requires base != 0.0
    ensures |r| == |prices|
    ensures forall i :: 0 <= i < |prices| ==> r[i] == prices[i] / base
  {
    if prices == [] then [] else Proportions(prices[..|prices| - 1], base) + [prices[|prices| - 1] / base]
  }

  lemma {:induction false} SumProportions(prices: seq<real>, base: real)
    requires base != 0.0
    ensures Sum(Proportions(prices, base)) == Sum(prices) / base
  {
    if prices != [] {
      var init, last := prices[..|prices| - 1], prices[|prices| - 1];
      var r := Proportions(prices, base);
      assert r == Proportions(init, base) + [last / base];
      assert r[..|r| - 1] == Proportions(init, base);
      assert Sum(r) == Sum(Proportions(init, base)) + last / base;
      SumProportions(init, base);
      DivideSum(Sum(init), last, base);
    }
  }

  lemma DivideSum(a: real, b: real, c: real)
    requires c != 0.0
    ensures (a + b) / c == a / c + b / c
  {
  }

  lemma DivideSelf(c: real)
    requires c != 0.0
    ensures c / c == 1.0
  {
  }

  /** When the base total is not zero, the proportions of all the cars add up to one. */
  lemma {:induction false} ProportionsSumToOne(prices: seq<real>)
    requires Sum(prices) != 0.0
    ensures Sum(Proportions(prices, Sum(prices))) == 1.0
  {
    var base := Sum(prices);
    SumProportions(prices, base);
    DivideSelf(base);
  }

  /** A car's part `amount * (price / base)` of a cart-wide amount. */
  function Part(amount: real, price: real, base: real): real
    requires base != 0.0
  {
    amount * (price / base)
  }

  /** The parts of two prices add up to the part of their sum. */
  lemma PartsAdd(amount: real, p1: real, p2: real, base: real)
    requires base != 0.0
    ensures Part(amount, p1, base) + Part(amount, p2, base) == Part(amount, p1 + p2, base)
  {
    DivideSum(p1, p2, base);
  }

  /** The part of the whole base is the whole amount. */
  lemma PartOfWhole(amount: real, base: real)
    requires base != 0.0
    ensures Part(amount, base, base) == amount
  {
    DivideSelf(base);
  }

  /** Each car's part of a cart-wide amount, in cart order. */
  function Shares(amount: real, prices: seq<real>, base: real): (r: seq<real>)
    requires base != 0.0
    ensures |r| == |prices|
    ensures forall i :: 0 <= i < |prices| ==> r[i] == Part(amount, prices[i], base)
  {
    if prices == [] then [] else Shares(amount, prices[..|prices| - 1], base) + [Part(amount, prices[|prices| - 1], base)]
  }

  lemma SharesSnoc(amount: real, prices: seq<real>, price: real, base: real)
    requires base != 0.0
    ensures Shares(amount, prices + [price], base) == Shares(amount, prices, base) + [Part(amount, price, base)]
  {
    var all := prices + [price];
    assert all[..|all| - 1] == prices;
    assert all[|all| - 1] == price;
  }

  /** The sum of the shares of a list of prices grows by the share of its last price. */
  lemma SumSharesSnoc(amount: real, prices: seq<real>, base: real)
    requires base != 0.0 && prices != []
    ensures Sum(Shares(amount, prices, base))
         == Sum(Shares(amount, prices[..|prices| - 1], base)) + Part(amount, prices[|prices| - 1], base)
  {
    var n := |prices| - 1;
    assert prices == prices[..n] + [prices[n]];
    SharesSnoc(amount, prices[..n], prices[n], base);
    SumSnoc(Shares(amount, prices[..n], base), Part(amount, prices[n], base));
  }

  /** The shares of a list of prices add up to the part of their sum. */
  lemma {:induction false} SumShares(amount: real, prices: seq<real>, base: real)
    requires base != 0.0
    ensures Sum(Shares(amount, prices, base)) == Part(amount, Sum(prices), base)
  {
    if prices != [] {
      var n := |prices| - 1;
      SumSharesSnoc(amount, prices, base);
      SumShares(amount, prices[..n], base);
      PartsAdd(amount, Sum(prices[..n]), prices[n], base);
    }
  }

  /**
   * Split by the proportions of a non-zero base total, an amount is handed out
   * in full: the shares add up to exactly the amount.
   */
  lemma {:induction false} SharesSumToAmount(amount: real, prices: seq<real>)
    requires Sum(prices) != 0.0
    ensures Sum(Shares(amount, prices, Sum(prices))) == amount
  {
    SumShares(amount, prices, Sum(prices));
    PartOfWhole(amount, Sum(prices));
  }

  /** The final total of the second example, split between a 60000 and a 50000 car. */
  lemma SharesExample()
    ensures Shares(94160.0, [60000.0, 50000.0], 110000.0) == [51360.0, 42800.0]
  {
    assert [60000.0, 50000.0][..1] == [60000.0];
    assert [60000.0][..0] == [];
  }
}
