# Stock average-price calculator, modelled in Dafny

This project models the core of a stock average-price calculator. The user keeps
a list of purchase lots, each a price text and a quantity text. From the lots
that parse, the calculator derives three figures:

- the average buy price;
- the held quantity, which is reduced by an optional buy fee;
- the total spent.

From that aggregate it projects a selling price, gross proceeds and net profit
at a markup percentage. It also solves backwards from a desired selling price
to the markup percentage, with an optional sell fee taken off. A label
summarises the two fee settings.

Modules:

- `Options`: the `Option` type, standing for JavaScript `null` and for a parse
  that yields NaN.
- `Lots`: the lot list as a class, `Purchases`, whose field `lots` the edit
  operations replace. The pure functions `ChangedLots`, `DropAt` and
  `DefaultLots` specify those operations.
- `Pricing`:
  - the aggregate, as the specification function `AggregateOf`;
  - the accumulator loop `CalculateAveragePrice`, proved equal to `AggregateOf`;
  - the per-lot spend rows;
  - lemmas about skipped lots, the buy fee, and the agreement between the
    rows and the aggregate.
- `Profit`: the forward projections, the reverse solve, and their round trips.
- `FeeLabels`: the fee label and its inverse, which reads a label back into
  its two parts.

With the sell fee on, the reverse solve and the forward projection each take the
fee off. Projecting at the solved percentage therefore returns the desired price
times (1 - fee/100)², not the desired price. The gross proceeds shown at the
solved percentage carry the fee twice in the same way. `Profit.TargetThenProject`
and `Profit.SolvedGross` state this as the code behaves.

Number parsing is a parameter, `Parser = string -> Option<real>`, where `None`
means NaN. All arithmetic is on exact reals.

## Model

| member | source | states |
|---|---|---|
| Lots.DefaultLots | src/components/StockCalculator.tsx:41-49 | the default list is exactly three lots, each with an empty price and an empty quantity |
| Lots.Purchases.constructor | src/components/StockCalculator.tsx:41-49 | the list starts as the stored list when one was stored, and as the three-blank default otherwise |
| Lots.WithField | src/components/StockCalculator.tsx:68 | the edited field holds the new value and the other field of the lot is kept |
| Lots.ChangedLots | src/components/StockCalculator.tsx:66-70 | an edit keeps the length, sets the chosen field of lot `index`, keeps that lot's other field, and leaves every other lot unchanged |
| Lots.Purchases.HandlePurchaseChange | src/components/StockCalculator.tsx:66-70 | the new list is the old list with that one field changed, as `ChangedLots` states |
| Lots.Purchases.AddPurchase | src/components/StockCalculator.tsx:72-74 | one blank lot is appended; the old lots stay as a prefix and the length grows by one |
| Lots.Purchases.ClearPurchases | src/components/StockCalculator.tsx:76-82 | whatever the list held, it becomes the three-blank default |
| Lots.DropAt | src/components/StockCalculator.tsx:86 | the position filter removes exactly element `index` (the list before it followed by the list after it) when `index` is in range, and removes nothing when it is not |
| Lots.Purchases.RemovePurchase | src/components/StockCalculator.tsx:84-89 | with more than one lot, the list becomes the filtered list; a list of one lot is never emptied; an in-range index shortens the list by exactly one |
| Pricing.ParseLot | src/components/StockCalculator.tsx:97-100 | a lot yields a quote exactly when both its price and its quantity parse, and the quote holds those two numbers |
| Pricing.HeldOf | src/components/StockCalculator.tsx:103 | without the buy fee the held quantity is the bought quantity; with it, the units given up are the fee's percentage of the bought quantity |
| Pricing.Quotes | src/components/StockCalculator.tsx:96-100 | the lots that parse are at most as many as the lots; `ParsedLotKept` and `UnparsedLotSkipped` state which quotes it holds |
| Pricing.ParsedLotKept | src/components/StockCalculator.tsx:96-100 | a lot that parses, wherever it stands, contributes its quote in its place between the quotes of the lots before it and after it |
| Pricing.AggregateOf | src/components/StockCalculator.tsx:100-119 | there is no average exactly when the summed held quantity is zero, and then all figures are zero; otherwise held and spent are the sums over the parsed lots, and the average times the held quantity is the spend |
| Pricing.CalculateAveragePrice | src/components/StockCalculator.tsx:91-120 | the accumulator loop returns exactly the aggregate `AggregateOf` specifies |
| Pricing.TotalsLast | src/components/StockCalculator.tsx:96-106 | the sums over a list are the sums over all but its last lot plus what the last lot adds |
| Pricing.TotalsStep | src/components/StockCalculator.tsx:96-106 | one loop step adds the lot's cost, quantity and held quantity when both fields parse, and nothing otherwise |
| Pricing.QuotesAppend | src/components/StockCalculator.tsx:96-100 | the parsed lots of two concatenated lists are the parsed lots of each, in order |
| Pricing.UnparsedLotSkipped | src/components/StockCalculator.tsx:100 | a lot with a field that does not parse drops out of the parsed lots wherever it stands |
| Pricing.SameQuotesSameAggregate | src/components/StockCalculator.tsx:96-119 | the aggregate depends on the lot list only through the lots that parse |
| Pricing.UnparsedLotAddsNothing | src/components/StockCalculator.tsx:96-107 | inserting an unparsable lot anywhere leaves the aggregate unchanged |
| Pricing.UnparsedLotDropped | src/components/StockCalculator.tsx:86-100 | dropping an unparsable lot from the list leaves the parsed lots unchanged |
| Pricing.UnparsedLotRemoval | src/components/StockCalculator.tsx:84-107 | removing an unparsable lot leaves the aggregate unchanged |
| Pricing.NothingParsedIsNoData | src/components/StockCalculator.tsx:109-114 | when no lot parses, the aggregate has no average and zero held quantity and spend |
| Pricing.FeeFreeHeldIsUnits | src/components/StockCalculator.tsx:103 | without the buy fee, the held quantity is the parsed quantity |
| Pricing.BuyFeeScalesHeld | src/components/StockCalculator.tsx:103-105 | with the buy fee, the held total is the parsed quantity total times (1 - fee/100) |
| Pricing.SpentIgnoresFees | src/components/StockCalculator.tsx:101-102 | the fee settings never change the total spent or the parsed quantity |
| Pricing.BuyFeeRaisesAverage | src/components/StockCalculator.tsx:103-116 | the buy fee divides the fee-free average price by (1 - fee/100) |
| Pricing.SpendOf | src/components/StockCalculator.tsx:123-134 | a lot's row is blank exactly when a field fails to parse; otherwise it holds price times quantity and the fee-adjusted quantity |
| Pricing.SpendingAmounts | src/components/StockCalculator.tsx:122-135 | one row per lot, in order; a row is blank exactly when the lot does not parse, and otherwise holds price times quantity and the fee-adjusted quantity |
| Pricing.RowsLast | src/components/StockCalculator.tsx:123 | the rows of a list are the rows of all but its last lot followed by the last lot's row |
| Pricing.RowIsLotTotals | src/components/StockCalculator.tsx:101-105 | a lot's row carries exactly the spend and held quantity that the lot adds to the running sums |
| Pricing.RowsAddUpToTotals | src/components/StockCalculator.tsx:101-105 | the spend rows sum to the loop's total spent and held quantity |
| Pricing.SummaryMatchesRows | src/components/StockCalculator.tsx:118-135 | when an average exists, the table's rows add up to the summary's spend and held quantity |
| Pricing.TwoLotsParse | src/components/StockCalculator.tsx:96-100 | lots 100×10 and 200×10 parse to those two quotes |
| Pricing.TwoLotsWithoutFees | src/components/StockCalculator.tsx:100-119 | those lots without a buy fee give average 150, 20 held, 3000 spent |
| Pricing.TwoLotsWithBuyFee | src/components/StockCalculator.tsx:100-119 | with a 10% buy fee they give 18 held, 3000 spent, average 3000/18 |
| Profit.AfterSellFee | src/components/StockCalculator.tsx:142-144 | without the sell fee an amount is kept whole; with it, the amount taken off is the fee's percentage of the amount |
| Profit.ProfitPrice | src/components/StockCalculator.tsx:139-147 | absent exactly when there is no average; otherwise the average marked up by the percentage, less the sell fee when it is on |
| Profit.ProfitGross | src/components/StockCalculator.tsx:149-153 | absent exactly when there is no average; otherwise the projected price times the held quantity |
| Profit.ProfitNet | src/components/StockCalculator.tsx:155-159 | absent exactly when there is no average; otherwise the per-unit margin over the average times the held quantity |
| Profit.ProfitPercentage | src/components/StockCalculator.tsx:161-177 | absent exactly when there is no average, the desired price is empty, or it does not parse; non-finite exactly when the average is zero and the desired price parses; otherwise the average marked up by the result is the desired price less the sell fee |
| Profit.FeeFreeNetIsPercentOfSpent | src/components/StockCalculator.tsx:139-159 | without a sell fee, for any aggregate whose average times held quantity is its spend, the net profit at p% is p% of the spend |
| Profit.FeeFreeNetOfLots | src/components/StockCalculator.tsx:91-159 | the same holds for every aggregate computed from a lot list |
| Profit.TargetThenProject | src/components/StockCalculator.tsx:141-144 | projecting at the solved percentage gives the desired price with the sell fee taken off twice |
| Profit.SolvedGross | src/components/StockCalculator.tsx:149-153 | the gross proceeds at the solved percentage are the held quantity times the desired price with the sell fee taken off twice |
| Profit.TargetRoundTrip | src/components/StockCalculator.tsx:171-175 | without a sell fee, projecting at the solved percentage gives back the desired price |
| Profit.PercentRoundTrip | src/components/StockCalculator.tsx:171-175 | without a sell fee and with a non-zero average, solving from the price projected at p% gives back p% |
| Profit.TenPercentExample | src/components/StockCalculator.tsx:139-175 | average 150 with 20 held at 10% gives price 165, gross 3300, net 300, and 165 solves back to 10% |
| FeeLabels.Shown | src/components/StockCalculator.tsx:180 | a fee that is on shows its percentage text, and a fee that is off shows a dash |
| FeeLabels.FeeLabel | src/components/StockCalculator.tsx:179-181 | the label's length is the two shown parts plus three; with both fees off the label is the initial title "- / -" of line 60 |
| FeeLabels.LabelParts | src/components/StockCalculator.tsx:179-181 | a label that is read back is its buy part, a spaced slash and its sell part, and the sell part holds no slash |
| FeeLabels.SplitJoined | src/components/StockCalculator.tsx:180 | any two texts joined by a spaced slash split back into those texts when the second holds no '/' |
| FeeLabels.LabelRoundTrip | src/components/StockCalculator.tsx:179-181 | when the sell part holds no slash, the label reads back into exactly the two shown texts, each the percentage text or a dash |
| FeeLabels.LabelExamples | src/components/StockCalculator.tsx:60-62 | both fees off gives "- / -"; both at the default "0.02" gives "0.02 / 0.02"; a disabled sell fee reads back as "-" |

## Left out

- The React hooks, effects, memoisation and JSX are left out. Each derived value is a function of the state it reads.
- Local storage is left out: the JSON store (`StorageService`) and the writes of the list, custom profit and desired price. The constructor takes what the store returned as an `Option`.
- Rounding to four decimals is left out, and the model uses exact reals throughout.
  - The summary figures (average, held quantity, spend) and the solved percentage are stored in the source as numbers re-parsed from their four-decimal text.
  - The spend rows and the projected price, gross and net are returned by the source as four-decimal text and shown as is. A blank row holds two empty strings.
  - In the model these results are reals: `Spend` rows (`Blank` for the empty strings) and `Option<real>` projections.
  - The source's gross multiplies the re-parsed four-decimal price text, and its net subtracts from the re-parsed gross text. The model uses the exact values.
- IEEE floating point is left out: overflow and signed zeros are not modelled. A NaN fee percentage, from fee text that does not parse, is not modelled either, because fee percentages enter `Pricing` as reals.
- The rules of `parseFloat` are left out. It is the abstract `Parser` parameter.
- Lots.Purchases.HandlePurchaseChange: the source copies the list shallowly and writes into the shared lot object, so the previous list is mutated too. The model replaces the lot by value and does not capture that aliasing.
- An out-of-range index to the edit throws in the source. The model requires an in-range index instead.
- The page's fallback of an absent figure to zero, and its treatment of an empty custom percentage, are left out.
- The fixed percentage list 1-5 of line 137 is left out. Any percentage is a parameter.
- The build configuration is not part of this model.
