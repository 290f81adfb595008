/**
 * The pricing engine: the aggregate over the lot list (average buy price, held
 * quantity, total spent) and the per-lot spend rows. Numbers are exact reals;
 * the engine's rounding to four decimals is not modelled.
 */
module Pricing {
  import opened Options
  import opened Lots

  /** The number parser applied to each text field; `None` stands for a NaN result. */
  type Parser = string -> Option<real>

  /** The fee settings as numbers: each percentage is in percent units (0.02 means 0.02%). */
  datatype FeeConfig = FeeConfig(
    buyFeeEnabled: bool, buyFeePercent: real,
    sellFeeEnabled: bool, sellFeePercent: real)

  /** A lot whose two fields both parsed. */
  datatype Quote = Quote(price: real, quantity: real)

  /** Both fields of a lot as numbers, or `None` when either fails to parse. */
  function ParseLot(parse: Parser, lot: Lot): (r: Option<Quote>)
    ensures r.Some? <==> parse(lot.price).Some? && parse(lot.quantity).Some?
    ensures r.Some? ==> r.value.price == parse(lot.price).value && r.value.quantity == parse(lot.quantity).value
  {
    match (parse(lot.price), parse(lot.quantity))
    case (Some(p), Some(q)) => Some(Quote(p, q))
    case _ => None
  }

  /** Units kept of a bought quantity: the buy fee, when on, takes its percentage of the units. */
  function HeldOf(quantity: real, fees: FeeConfig): (held: real)
    ensures !fees.buyFeeEnabled ==> held == quantity
    ensures fees.buyFeeEnabled ==> quantity - held == quantity * fees.buyFeePercent / 100.0
  {
    if fees.buyFeeEnabled then quantity * (1.0 - fees.buyFeePercent / 100.0) else quantity
  }

  /** The lots that parse, in list order: the lots the aggregate is taken over. */
  function Quotes(parse: Parser, lots: seq<Lot>): (quotes: seq<Quote>)
    ensures |quotes| <= |lots|
    decreases |lots|
  {
    if lots == [] then []
    else
      var last := match ParseLot(parse, lots[|lots| - 1]) case Some(q) => [q] case None => [];
      Quotes(parse, lots[..|lots| - 1]) + last
  }

  /** Running sums: cost, raw parsed quantity and fee-adjusted held quantity. */
  datatype Totals = Totals(spent: real, units: real, held: real)

  const Zero: Totals := Totals(0.0, 0.0, 0.0)

  function Plus(a: Totals, b: Totals): Totals
  {
    Totals(a.spent + b.spent, a.units + b.units, a.held + b.held)
  }

  /** What one parsed lot adds to the sums. */
  function QuoteTotals(q: Quote, fees: FeeConfig): Totals
  {
    Totals(q.price * q.quantity, q.quantity, HeldOf(q.quantity, fees))
  }

  /** The sums over parsed lots, one lot at a time from the front. */
  function Accumulated(quotes: seq<Quote>, fees: FeeConfig): Totals
    decreases |quotes|
  {
    if quotes == [] then Zero
    else Plus(Accumulated(quotes[..|quotes| - 1], fees), QuoteTotals(quotes[|quotes| - 1], fees))
  }

  /** The sums over a lot list: lots that fail to parse are skipped. */
  function TotalsOf(parse: Parser, lots: seq<Lot>, fees: FeeConfig): Totals
  {
    Accumulated(Quotes(parse, lots), fees)
  }

  /** The derived aggregate: `averagePrice` is absent when no quantity is held. */
  datatype Aggregate = Aggregate(averagePrice: Option<real>, totalHeldQuantity: real, totalSpent: real)

  const NoData: Aggregate := Aggregate(None, 0.0, 0.0)

  /** The aggregate of a lot list: total cost over the fee-adjusted held quantity. */
  function AggregateOf(parse: Parser, lots: seq<Lot>, fees: FeeConfig): (r: Aggregate)
    ensures r.averagePrice.None? <==> TotalsOf(parse, lots, fees).held == 0.0
    ensures r.averagePrice.None? ==> r == NoData
    ensures r.averagePrice.Some? ==>
      && r.totalHeldQuantity == TotalsOf(parse, lots, fees).held
      && r.totalSpent == TotalsOf(parse, lots, fees).spent
      && r.averagePrice.value * r.totalHeldQuantity == r.totalSpent
  {
    var t := TotalsOf(parse, lots, fees);
    if t.held == 0.0 then NoData else Aggregate(Some(t.spent / t.held), t.held, t.spent)
  }

  /** The accumulator loop over the lots that computes the aggregate. */
  method CalculateAveragePrice(parse: Parser, lots: seq<Lot>, fees: FeeConfig) returns (agg: Aggregate)
    ensures agg == AggregateOf(parse, lots, fees)
  {
    var totalCost := 0.0;
    var totalQuantity := 0.0;
    var heldQuantity := 0.0;
    for i := 0 to |lots|
      invariant totalCost == TotalsOf(parse, lots[..i], fees).spent
      invariant totalQuantity == heldQuantity == TotalsOf(parse, lots[..i], fees).held
    {
      var price := parse(lots[i].price);
      var quantity := parse(lots[i].quantity);
      TotalsStep(parse, lots, i, fees);
      if price.Some? && quantity.Some? {
        var cost := price.value * quantity.value;
        totalCost := totalCost + cost;
        var held := if fees.buyFeeEnabled then quantity.value * (1.0 - fees.buyFeePercent / 100.0) else quantity.value;
        totalQuantity := totalQuantity + held;
        heldQuantity := heldQuantity + held;
        assert LotTotals(parse, lots[i], fees) == Totals(cost, quantity.value, held);
      }
    }
    assert lots[..|lots|] == lots;
    if totalQuantity == 0.0 {
      return NoData;
    }
    var average := totalCost / totalQuantity;
    agg := Aggregate(Some(average), heldQuantity, totalCost);
  }

  /** What one lot adds to the sums: nothing when either field fails to parse. */
  function LotTotals(parse: Parser, lot: Lot, fees: FeeConfig): Totals
  {
    match ParseLot(parse, lot)
    case None => Zero
    case Some(q) => QuoteTotals(q, fees)
  }

  /** The sums over a non-empty list are the sums over all but its last lot, plus what the last lot adds. */
  lemma TotalsLast(parse: Parser, lots: seq<Lot>, fees: FeeConfig)
    requires lots != []
    ensures TotalsOf(parse, lots, fees)
         == Plus(TotalsOf(parse, lots[..|lots| - 1], fees), LotTotals(parse, lots[|lots| - 1], fees))
  {
    var prefix := Quotes(parse, lots[..|lots| - 1]);
    match ParseLot(parse, lots[|lots| - 1])
    case None =>
      assert Quotes(parse, lots) == prefix;
    case Some(q) =>
      assert Quotes(parse, lots) == prefix + [q];
      assert (prefix + [q])[..|prefix|] == prefix;
  }

  /** The sums over the first `i + 1` lots extend those over the first `i` by what lot `i` adds. */
  lemma TotalsStep(parse: Parser, lots: seq<Lot>, i: int, fees: FeeConfig)
    requires 0 <= i < |lots|
    ensures TotalsOf(parse, lots[..i + 1], fees) == Plus(TotalsOf(parse, lots[..i], fees), LotTotals(parse, lots[i], fees))
  {
    assert lots[..i + 1][..i] == lots[..i];
    TotalsLast(parse, lots[..i + 1], fees);
  }

  /** Parsing distributes over concatenation. */
  lemma {:induction false} QuotesAppend(parse: Parser, a: seq<Lot>, b: seq<Lot>)
    ensures Quotes(parse, a + b) == Quotes(parse, a) + Quotes(parse, b)
    decreases |b|
  {
    if b == [] {
      assert a + b == a;
    } else {
      var n := |b| - 1;
      assert (a + b)[..|a + b| - 1] == a + b[..n];
      assert (a + b)[|a + b| - 1] == b[n];
      QuotesAppend(parse, a, b[..n]);
    }
  }

  /** A lot that fails to parse, placed between any two lists, is skipped by parsing. */
  lemma UnparsedLotSkipped(parse: Parser, front: seq<Lot>, lot: Lot, back: seq<Lot>)
    requires ParseLot(parse, lot).None?
    ensures Quotes(parse, front + [lot] + back) == Quotes(parse, front + back)
  {
    assert [lot][..0] == [];
    assert Quotes(parse, [lot]) == [];
    QuotesAppend(parse, front + [lot], back);
    QuotesAppend(parse, front, [lot]);
    QuotesAppend(parse, front, back);
  }

  /** A lot that parses, placed between any two lists, keeps its quote in its place. */
  lemma ParsedLotKept(parse: Parser, front: seq<Lot>, lot: Lot, back: seq<Lot>, q: Quote)
    requires ParseLot(parse, lot) == Some(q)
    ensures Quotes(parse, front + [lot] + back) == Quotes(parse, front) + [q] + Quotes(parse, back)
  {
    assert [lot][..0] == [];
    QuotesAppend(parse, front + [lot], back);
    QuotesAppend(parse, front, [lot]);
  }

  /** The aggregate depends on the lot list only through the lots that parse. */
  lemma SameQuotesSameAggregate(parse: Parser, a: seq<Lot>, b: seq<Lot>, fees: FeeConfig)
    requires Quotes(parse, a) == Quotes(parse, b)
    ensures AggregateOf(parse, a, fees) == AggregateOf(parse, b, fees)
  {
    assert TotalsOf(parse, a, fees) == TotalsOf(parse, b, fees);
  }

  /** Inserting a lot that fails to parse, anywhere, leaves the aggregate as it was. */
  lemma UnparsedLotAddsNothing(parse: Parser, lots: seq<Lot>, i: int, lot: Lot, fees: FeeConfig)
    requires 0 <= i <= |lots|
    requires ParseLot(parse, lot).None?
    ensures AggregateOf(parse, lots[..i] + [lot] + lots[i..], fees) == AggregateOf(parse, lots, fees)
  {
    UnparsedLotSkipped(parse, lots[..i], lot, lots[i..]);
    assert lots[..i] + lots[i..] == lots;
    SameQuotesSameAggregate(parse, lots[..i] + [lot] + lots[i..], lots, fees);
  }

  /** Dropping a lot that fails to parse leaves the parsed lots as they were. */
  lemma UnparsedLotDropped(parse: Parser, lots: seq<Lot>, i: int)
    requires 0 <= i < |lots|
    requires ParseLot(parse, lots[i]).None?
    ensures Quotes(parse, DropAt(lots, i)) == Quotes(parse, lots)
  {
    var front, back := lots[..i], lots[i + 1..];
    assert front + [lots[i]] + back == lots;
    UnparsedLotSkipped(parse, front, lots[i], back);
  }

  /** Removing a lot that fails to parse leaves the aggregate as it was. */
  lemma UnparsedLotRemoval(parse: Parser, lots: seq<Lot>, i: int, fees: FeeConfig)
    requires 0 <= i < |lots|
    requires ParseLot(parse, lots[i]).None?
    ensures AggregateOf(parse, DropAt(lots, i), fees) == AggregateOf(parse, lots, fees)
  {
    UnparsedLotDropped(parse, lots, i);
    SameQuotesSameAggregate(parse, DropAt(lots, i), lots, fees);
  }

  /** With no lot that parses (an empty list included) the aggregate reports no data. */
  lemma {:induction false} NothingParsedIsNoData(parse: Parser, lots: seq<Lot>, fees: FeeConfig)
    requires forall i | 0 <= i < |lots| :: ParseLot(parse, lots[i]).None?
    ensures Quotes(parse, lots) == []
    ensures AggregateOf(parse, lots, fees) == NoData
    decreases |lots|
  {
    if lots != [] {
      NothingParsedIsNoData(parse, lots[..|lots| - 1], fees);
    }
  }

  /** With the buy fee off, the held total is the plain sum of the parsed quantities. */
  lemma {:induction false} FeeFreeHeldIsUnits(quotes: seq<Quote>, fees: FeeConfig)
    requires !fees.buyFeeEnabled
    ensures Accumulated(quotes, fees).held == Accumulated(quotes, fees).units
    decreases |quotes|
  {
    if quotes != [] {
      FeeFreeHeldIsUnits(quotes[..|quotes| - 1], fees);
    }
  }

  /** With the buy fee on, the held total is the parsed quantity total scaled down by the fee. */
  lemma {:induction false} BuyFeeScalesHeld(quotes: seq<Quote>, fees: FeeConfig)
    requires fees.buyFeeEnabled
    ensures Accumulated(quotes, fees).held
         == Accumulated(quotes, fees).units * (1.0 - fees.buyFeePercent / 100.0)
    decreases |quotes|
  {
    if quotes != [] {
      BuyFeeScalesHeld(quotes[..|quotes| - 1], fees);
    }
  }

  /** The fees never change what was spent, nor the parsed quantity. */
  lemma {:induction false} SpentIgnoresFees(quotes: seq<Quote>, fees: FeeConfig, other: FeeConfig)
    ensures Accumulated(quotes, fees).spent == Accumulated(quotes, other).spent
    ensures Accumulated(quotes, fees).units == Accumulated(quotes, other).units
    decreases |quotes|
  {
    if quotes != [] {
      SpentIgnoresFees(quotes[..|quotes| - 1], fees, other);
    }
  }

  /**
   * The buy fee divides the average price by the fraction of units kept: the
   * average is taken over held units, so the fee raises the cost per unit.
   */
  lemma BuyFeeRaisesAverage(parse: Parser, lots: seq<Lot>, fees: FeeConfig)
    requires fees.buyFeeEnabled && fees.buyFeePercent != 100.0
    requires AggregateOf(parse, lots, fees.(buyFeeEnabled := false)).averagePrice.Some?
    ensures AggregateOf(parse, lots, fees).averagePrice
         == Some(AggregateOf(parse, lots, fees.(buyFeeEnabled := false)).averagePrice.value
                 / (1.0 - fees.buyFeePercent / 100.0))
  {
    var free := fees.(buyFeeEnabled := false);
    var quotes := Quotes(parse, lots);
    SpentIgnoresFees(quotes, fees, free);
    FeeFreeHeldIsUnits(quotes, free);
    BuyFeeScalesHeld(quotes, fees);
    var t, u := Accumulated(quotes, fees), Accumulated(quotes, free);
    DilutedRatio(t.spent, t.held, u.spent, u.units, 1.0 - fees.buyFeePercent / 100.0);
  }

  /** Dividing by a quantity scaled by `kept` divides the ratio by `kept`. */
  lemma DilutedRatio(spent: real, held: real, spent0: real, units: real, kept: real)
    requires spent == spent0 && held == units * kept && units != 0.0 && kept != 0.0
    ensures held != 0.0 && spent / held == (spent0 / units) / kept
  {
  }

  /** One display row of the lot table: blank unless both fields parse. */
  datatype Spend = Blank | Spend(original: real, heldQuantity: real)

  function SpendOf(parse: Parser, lot: Lot, fees: FeeConfig): (row: Spend)
    ensures row.Blank? <==> ParseLot(parse, lot).None?
    ensures row.Spend? ==>
      row.original == parse(lot.price).value * parse(lot.quantity).value
      && row.heldQuantity == HeldOf(parse(lot.quantity).value, fees)
  {
    match ParseLot(parse, lot)
    case None => Blank
    case Some(q) => Spend(q.price * q.quantity, HeldOf(q.quantity, fees))
  }

  /** The spend row of every lot, position by position. */
  function SpendingAmounts(parse: Parser, lots: seq<Lot>, fees: FeeConfig): (rows: seq<Spend>)
    ensures |rows| == |lots|
    ensures forall i | 0 <= i < |lots| :: rows[i].Blank? <==> ParseLot(parse, lots[i]).None?
    ensures forall i | 0 <= i < |lots| && ParseLot(parse, lots[i]).Some? ::
      rows[i].original == ParseLot(parse, lots[i]).value.price * ParseLot(parse, lots[i]).value.quantity
      && rows[i].heldQuantity == HeldOf(ParseLot(parse, lots[i]).value.quantity, fees)
  {
    seq(|lots|, i requires 0 <= i < |lots| => SpendOf(parse, lots[i], fees))
  }

  /** The column sums of the spend rows, blank rows counting as nothing. */
  function RowSums(rows: seq<Spend>): (real, real)
    decreases |rows|
  {
    if rows == [] then (0.0, 0.0)
    else
      var (spent, held) := RowSums(rows[..|rows| - 1]);
      match rows[|rows| - 1]
      case Blank => (spent, held)
      case Spend(o, h) => (spent + o, held + h)
  }

  /** The rows of all lots but the last, followed by the last lot's row are the prefix of the rows, and the next row is that lot's. */
  lemma RowsLast(parse: Parser, lots: seq<Lot>, fees: FeeConfig)
    requires lots != []
    ensures SpendingAmounts(parse, lots, fees)
         == SpendingAmounts(parse, lots[..|lots| - 1], fees) + [SpendOf(parse, lots[|lots| - 1], fees)]
  {
  }

  /** Appending a row adds its amounts to the column sums, a blank row adding nothing. */
  lemma RowSumsSnoc(rows: seq<Spend>, row: Spend)
    ensures RowSums(rows + [row]).0 == RowSums(rows).0 + (if row.Spend? then row.original else 0.0)
    ensures RowSums(rows + [row]).1 == RowSums(rows).1 + (if row.Spend? then row.heldQuantity else 0.0)
  {
    assert (rows + [row])[..|rows|] == rows;
  }

  /** The spend row of a lot carries exactly what that lot adds to the running sums. */
  lemma RowIsLotTotals(parse: Parser, lot: Lot, fees: FeeConfig)
    ensures (if SpendOf(parse, lot, fees).Spend? then SpendOf(parse, lot, fees).original else 0.0)
         == LotTotals(parse, lot, fees).spent
    ensures (if SpendOf(parse, lot, fees).Spend? then SpendOf(parse, lot, fees).heldQuantity else 0.0)
         == LotTotals(parse, lot, fees).held
  {
  }

  /** The spend rows add up to the aggregate's totals: the table and the summary agree. */
  lemma {:induction false} RowsAddUpToTotals(parse: Parser, lots: seq<Lot>, fees: FeeConfig)
    ensures RowSums(SpendingAmounts(parse, lots, fees))
         == (TotalsOf(parse, lots, fees).spent, TotalsOf(parse, lots, fees).held)
    decreases |lots|
  {
    if lots != [] {
      var n := |lots| - 1;
      RowsAddUpToTotals(parse, lots[..n], fees);
      RowsLast(parse, lots, fees);
      RowSumsSnoc(SpendingAmounts(parse, lots[..n], fees), SpendOf(parse, lots[n], fees));
      RowIsLotTotals(parse, lots[n], fees);
      TotalsLast(parse, lots, fees);
    }
  }

  /** When an average exists, the summary's held quantity and spend are the sums of the rows. */
  lemma SummaryMatchesRows(parse: Parser, lots: seq<Lot>, fees: FeeConfig)
    requires AggregateOf(parse, lots, fees).averagePrice.Some?
    ensures RowSums(SpendingAmounts(parse, lots, fees))
         == (AggregateOf(parse, lots, fees).totalSpent, AggregateOf(parse, lots, fees).totalHeldQuantity)
  {
    RowsAddUpToTotals(parse, lots, fees);
  }

  lemma TwoLotsParse(parse: Parser)
    requires parse("100") == Some(100.0) && parse("200") == Some(200.0) && parse("10") == Some(10.0)
    ensures Quotes(parse, [Lot("100", "10"), Lot("200", "10")]) == [Quote(100.0, 10.0), Quote(200.0, 10.0)]
  {
    var lots := [Lot("100", "10"), Lot("200", "10")];
    assert lots[..1][..0] == [];
  }

  /** Two lots, 10 at 100 and 10 at 200, no fees: average 150, 20 held, 3000 spent. */
  lemma TwoLotsWithoutFees(parse: Parser, fees: FeeConfig)
    requires parse("100") == Some(100.0) && parse("200") == Some(200.0) && parse("10") == Some(10.0)
    requires !fees.buyFeeEnabled
    ensures AggregateOf(parse, [Lot("100", "10"), Lot("200", "10")], fees) == Aggregate(Some(150.0), 20.0, 3000.0)
  {
    var lots := [Lot("100", "10"), Lot("200", "10")];
    TwoLotsParse(parse);
    var quotes := [Quote(100.0, 10.0), Quote(200.0, 10.0)];
    assert quotes[..1][..0] == [];
    assert Accumulated(quotes[..1], fees) == Totals(1000.0, 10.0, 10.0);
  }

  /** The same two lots with a 10% buy fee: 9 held per lot, average 3000 / 18. */
  lemma TwoLotsWithBuyFee(parse: Parser, fees: FeeConfig)
    requires parse("100") == Some(100.0) && parse("200") == Some(200.0) && parse("10") == Some(10.0)
    requires fees.buyFeeEnabled && fees.buyFeePercent == 10.0
    ensures AggregateOf(parse, [Lot("100", "10"), Lot("200", "10")], fees) == Aggregate(Some(3000.0 / 18.0), 18.0, 3000.0)
  {
    var lots := [Lot("100", "10"), Lot("200", "10")];
    TwoLotsParse(parse);
    var quotes := [Quote(100.0, 10.0), Quote(200.0, 10.0)];
    assert quotes[..1][..0] == [];
    assert Accumulated(quotes[..1], fees) == Totals(1000.0, 10.0, 9.0);
  }
}
