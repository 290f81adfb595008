/**
 * Profit projections from the aggregate: the selling price, gross and net profit
 * at a markup percentage, and the reverse solve from a desired selling price to
 * the markup percentage. Rounding to four decimals is not modelled.
 */
module Profit {
  import opened Options
  import opened Lots
  import opened Pricing

  /** A sale amount after the sell fee: reduced by the fee's percentage when the fee is on. */
  function AfterSellFee(amount: real, fees: FeeConfig): (net: real)
    ensures !fees.sellFeeEnabled ==> net == amount
    ensures fees.sellFeeEnabled ==> amount - net == amount * (fees.sellFeePercent / 100.0)
  {
    if fees.sellFeeEnabled then amount * (1.0 - fees.sellFeePercent / 100.0) else amount
  }

  /** The selling price at `percentage` markup over the average, less the sell fee when it is on. */
  function ProfitPrice(agg: Aggregate, percentage: real, fees: FeeConfig): (r: Option<real>)
    ensures r.None? <==> agg.averagePrice.None?
    ensures r.Some? ==> r.value == AfterSellFee(agg.averagePrice.value * (1.0 + percentage / 100.0), fees)
  {
    match agg.averagePrice
    case None => None
    case Some(averagePrice) =>
      var profitPrice := averagePrice * (1.0 + percentage / 100.0);
      if fees.sellFeeEnabled then
        var feeAmount := profitPrice * (fees.sellFeePercent / 100.0);
        Some(profitPrice - feeAmount)
      else
        Some(profitPrice)
  }

  /** The proceeds of selling the whole held quantity at the projected price. */
  function ProfitGross(agg: Aggregate, percentage: real, fees: FeeConfig): (r: Option<real>)
    ensures r.None? <==> agg.averagePrice.None?
    ensures r.Some? ==> r.value == ProfitPrice(agg, percentage, fees).value * agg.totalHeldQuantity
  {
    match ProfitPrice(agg, percentage, fees)
    case None => None
    case Some(profitPrice) => Some(profitPrice * agg.totalHeldQuantity)
  }

  /** The gross proceeds less the cost basis of the held quantity: the per-unit margin times the held quantity. */
  function ProfitNet(agg: Aggregate, percentage: real, fees: FeeConfig): (r: Option<real>)
    ensures r.None? <==> agg.averagePrice.None?
    ensures r.Some? ==>
      r.value == (ProfitPrice(agg, percentage, fees).value - agg.averagePrice.value) * agg.totalHeldQuantity
  {
    var profitGross := ProfitGross(agg, percentage, fees);
    if agg.averagePrice.None? || profitGross.None? then None
    else Some(profitGross.value - agg.averagePrice.value * agg.totalHeldQuantity)
  }

  /**
   * The outcome of the reverse solve. `NonFinite` stands for the infinite or
   * not-a-number percentage that dividing by a zero average produces.
   */
  datatype Percentage = Absent | Percent(value: real) | NonFinite

  /**
   * The markup percentage that takes the average price to the desired price,
   * the desired price being taken after the sell fee when the fee is on.
   */
  function ProfitPercentage(agg: Aggregate, desiredPrice: string, parse: Parser, fees: FeeConfig): (r: Percentage)
    ensures r.Absent? <==> agg.averagePrice.None? || desiredPrice == "" || parse(desiredPrice).None?
    ensures r.NonFinite? <==>
      agg.averagePrice.Some? && agg.averagePrice.value == 0.0 && desiredPrice != "" && parse(desiredPrice).Some?
    ensures r.Percent? ==>
      agg.averagePrice.value * (1.0 + r.value / 100.0) == AfterSellFee(parse(desiredPrice).value, fees)
  {
    if agg.averagePrice.None? || desiredPrice == "" then Absent
    else
      match parse(desiredPrice)
      case None => Absent
      case Some(desiredPriceNum) =>
        var effectiveDesiredPrice :=
          if fees.sellFeeEnabled then desiredPriceNum * (1.0 - fees.sellFeePercent / 100.0) else desiredPriceNum;
        var averagePrice := agg.averagePrice.value;
        if averagePrice == 0.0 then NonFinite
        else
          MarkupInverse(averagePrice, effectiveDesiredPrice);
          Percent((effectiveDesiredPrice - averagePrice) / averagePrice * 100.0)
  }

  /** Applying the markup `(e - a) / a` percent to `a` gives back `e`. */
  lemma MarkupInverse(a: real, e: real)
    requires a != 0.0
    ensures a * (1.0 + ((e - a) / a * 100.0) / 100.0) == e
  {
    var m := (e - a) / a;
    assert m * a == e - a;
    assert (m * 100.0) / 100.0 == m;
    assert a * (1.0 + m) == a + m * a;
  }

  /**
   * Without a sell fee, the net profit at `percentage` is exactly that
   * percentage of what was spent, for any aggregate whose average times its
   * held quantity is its spend (as every computed aggregate's is).
   */
  lemma FeeFreeNetIsPercentOfSpent(agg: Aggregate, fees: FeeConfig, percentage: real)
    requires !fees.sellFeeEnabled
    requires agg.averagePrice.Some? && agg.averagePrice.value * agg.totalHeldQuantity == agg.totalSpent
    ensures ProfitNet(agg, percentage, fees) == Some(agg.totalSpent * percentage / 100.0)
  {
    MarginOfMarkup(ProfitPrice(agg, percentage, fees).value, agg.averagePrice.value,
                   agg.totalHeldQuantity, agg.totalSpent, percentage);
    assert ProfitNet(agg, percentage, fees).Some?;
    assert ProfitNet(agg, percentage, fees).value == agg.totalSpent * percentage / 100.0;
  }

  /** The margin of a `percentage` markup, over the held quantity, is that percentage of the spend. */
  lemma MarginOfMarkup(price: real, average: real, held: real, spent: real, percentage: real)
    requires price == average * (1.0 + percentage / 100.0)
    requires average * held == spent
    ensures (price - average) * held == spent * percentage / 100.0
  {
    calc {
      (price - average) * held;
      (average * percentage / 100.0) * held;
      (average * held) * percentage / 100.0;
    }
  }

  /** The net profit of a lot list without sell fee is the markup percentage of what was spent on it. */
  lemma FeeFreeNetOfLots(parse: Parser, lots: seq<Lot>, fees: FeeConfig, percentage: real)
    requires !fees.sellFeeEnabled
    requires AggregateOf(parse, lots, fees).averagePrice.Some?
    ensures ProfitNet(AggregateOf(parse, lots, fees), percentage, fees)
         == Some(AggregateOf(parse, lots, fees).totalSpent * percentage / 100.0)
  {
    FeeFreeNetIsPercentOfSpent(AggregateOf(parse, lots, fees), fees, percentage);
  }

  /**
   * The selling price projected at the solved percentage is the desired price
   * with the sell fee taken off twice: once by the solve, once by the projection.
   */
  lemma TargetThenProject(agg: Aggregate, desiredPrice: string, parse: Parser, fees: FeeConfig)
    requires ProfitPercentage(agg, desiredPrice, parse, fees).Percent?
    ensures ProfitPrice(agg, ProfitPercentage(agg, desiredPrice, parse, fees).value, fees)
         == Some(AfterSellFee(AfterSellFee(parse(desiredPrice).value, fees), fees))
  {
  }

  /**
   * The gross proceeds shown beside the solved percentage also carry the sell
   * fee twice: the held quantity sold at the desired price, less the fee twice.
   */
  lemma SolvedGross(agg: Aggregate, desiredPrice: string, parse: Parser, fees: FeeConfig, percentage: real)
    requires ProfitPercentage(agg, desiredPrice, parse, fees) == Percent(percentage)
    ensures ProfitGross(agg, percentage, fees)
         == Some(AfterSellFee(AfterSellFee(parse(desiredPrice).value, fees), fees) * agg.totalHeldQuantity)
  {
    TargetThenProject(agg, desiredPrice, parse, fees);
    assert ProfitPrice(agg, percentage, fees).value
        == AfterSellFee(AfterSellFee(parse(desiredPrice).value, fees), fees);
    assert ProfitGross(agg, percentage, fees).value
        == AfterSellFee(AfterSellFee(parse(desiredPrice).value, fees), fees) * agg.totalHeldQuantity;
  }

  /**
   * Without a sell fee, the selling price projected at the solved percentage
   * is the desired price: the reverse solve inverts the forward projection.
   */
  lemma TargetRoundTrip(agg: Aggregate, desiredPrice: string, parse: Parser, fees: FeeConfig)
    requires !fees.sellFeeEnabled
    requires ProfitPercentage(agg, desiredPrice, parse, fees).Percent?
    ensures ProfitPrice(agg, ProfitPercentage(agg, desiredPrice, parse, fees).value, fees) == parse(desiredPrice)
  {
    TargetThenProject(agg, desiredPrice, parse, fees);
  }

  /**
   * Without a sell fee, solving from the price projected at `percentage` gives
   * `percentage` back (for a non-zero average).
   */
  lemma PercentRoundTrip(agg: Aggregate, percentage: real, desiredPrice: string, parse: Parser, fees: FeeConfig)
    requires !fees.sellFeeEnabled
    requires agg.averagePrice.Some? && agg.averagePrice.value != 0.0
    requires desiredPrice != "" && parse(desiredPrice) == ProfitPrice(agg, percentage, fees)
    ensures ProfitPercentage(agg, desiredPrice, parse, fees) == Percent(percentage)
  {
    CancelFactor(agg.averagePrice.value,
                 1.0 + ProfitPercentage(agg, desiredPrice, parse, fees).value / 100.0,
                 1.0 + percentage / 100.0);
  }

  lemma CancelFactor(a: real, x: real, y: real)
    requires a != 0.0 && a * x == a * y
    ensures x == y
  {
    assert a * (x - y) == 0.0;
  }

  /** Average 150, 20 held, no sell fee, 10% markup: price 165, gross 3300, net 300; 165 solves back to 10%. */
  lemma TenPercentExample(parse: Parser, fees: FeeConfig)
    requires !fees.sellFeeEnabled && parse("165") == Some(165.0)
    ensures ProfitPrice(Aggregate(Some(150.0), 20.0, 3000.0), 10.0, fees) == Some(165.0)
    ensures ProfitGross(Aggregate(Some(150.0), 20.0, 3000.0), 10.0, fees) == Some(3300.0)
    ensures ProfitNet(Aggregate(Some(150.0), 20.0, 3000.0), 10.0, fees) == Some(300.0)
    ensures ProfitPercentage(Aggregate(Some(150.0), 20.0, 3000.0), "165", parse, fees) == Percent(10.0)
  {
    PercentRoundTrip(Aggregate(Some(150.0), 20.0, 3000.0), 10.0, "165", parse, fees);
  }
}
