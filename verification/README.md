# Quantified portfolio model

A Dafny model of the portfolio domain of a small Python onboarding project.
The project turns target allocations into positions and then values and trades them:

- An `Asset` is a target allocation: id, weight, price and date.
- `quantify` turns an asset and an initial investment into a `QuantifiedAsset` holding `weight * initial / price` units.
- A `QuantifiedPortfolio` keeps its holdings in a list. At construction it builds a date index, `date -> holdings of that day`. It answers:
  - `assets_on(day)`: the holdings of one day.
  - `total(day)`: their summed value.
  - `weight(id, day)`: one holding's share of its day's value.
  - `daily_positions(start, end)`: the sparse, inclusive, day-ordered projection.
- `buy` and `sell` take a monetary amount. They convert it into units at the holding's price and change, in place, the quantity of the first holding with that id on that exact day. They raise when there is no such holding, when the amount is negative, or (for `sell`) when more units would be sold than are held.
- `to_quantified_portfolio` quantifies a list of assets in order and builds a portfolio. It does no validation.

The model is functional:

- Holdings are immutable datatypes. Prices, weights, quantities and amounts are exact `real`s. Dates are `int` day ordinals (2025-01-01 is 739252).
- A portfolio is a value `QuantifiedPortfolio(assets: seq<QuantifiedAsset>)`.
- `Sell` and `Buy` return `Result<QuantifiedPortfolio, PortfolioError>`. On success the result is the updated portfolio; on failure it is the error Python raises, and the portfolio is untouched.
- The Python code updates a holding object in place. Both the list and the date index share that object. When every list position holds its own object, that is a functional update of one list element, and this model makes it one. `SellKeepsIndex`/`BuyKeepsIndex` prove that rebuilding the index from the updated list equals updating the shared entry of the old index in place. A list that holds one object at several positions is outside the model; see "Left out".

Modules:

- `Wrappers` (`wrappers.dfy`): Option and Result.
- `Holdings` (`holdings.dfy`): `Asset`, `QuantifiedAsset`, `Amount` and `Quantify`.
- `DayIndex` (`day_index.dfy`): the following, with the lemmas that relate them:
  - `OnDay`, the order-preserving selection of one day.
  - `BuildIndex`, the index built once over the list.
  - `FirstWithId`, the first-match search over one day's list.
  - `FirstMatch`, the position of that holding in the whole list.
- `Portfolio` (`portfolio.dfy`): the portfolio operations.
- `PortfolioLemmas` (`portfolio_lemmas.dfy`): properties that span several operations.
- `Service` (`service.dfy`): `to_quantified_portfolio`.
- `Scenarios` (`scenarios.dfy`): the unit tests' concrete cases, restated over the model.

Errors are `NotFound(id, day)`, `NegativeAmount(amount)`, `ZeroPrice(id, day)` and `InsufficientQuantity(requested, available)`.
Python raises a `ValueError` for the first, second and fourth, and a `ZeroDivisionError` when the price is zero. The checks run in the same order as in `domain.py`: lookup, sign, division, quantity.

## Model

| member | source | states |
|---|---|---|
| Holdings.Quantify | domain.py:14-21 | The quantified holding keeps the asset's id, price and date. Its value `price * quantity` equals `weight * initial_amount`. |
| Holdings.AmountUnits | domain.py:30-31 | Of `amount()`: at a non-zero price the units held are the value divided by the price. A long position at a non-negative price is worth at least nothing. |
| Holdings.AmountAfterDelta | domain.py:30-31 | Converting a monetary delta into units at the holding's price and adding (removing) them raises (lowers) `amount()` by exactly that delta. |
| DayIndex.BuildIndex | domain.py:38-41 | The index built by appending every holding to its day's list has an entry exactly for the days that have holdings. Each entry is that day's holdings in list order. |
| DayIndex.OnDayMembers | domain.py:43-44 | A day's list holds exactly the portfolio's holdings that carry that date. |
| DayIndex.OnDayConcat | domain.py:39-41 | Selecting a day distributes over concatenation: the selection keeps insertion order. |
| Portfolio.AssetsOn | domain.py:43-44 | A holding is in the day's list exactly when it is one of the portfolio's holdings and carries that date. |
| Portfolio.Index | domain.py:36-44 | The index built at construction, read with `.get(day, [])`, gives every day's holdings in insertion order. It has a key exactly for the days that have holdings, so a day with none reads as the empty list. |
| DayIndex.FirstWithId | domain.py:46-50 | The `next(..., None)` search: a found position carries the id and no earlier position does. Nothing is found exactly when no element carries the id. |
| DayIndex.FirstMatchOnDay | domain.py:46-50 | The first holding with the id in the day's list is the first holding of the whole list with that id and that date. It is absent exactly when no holding has that id on that day, so the lookup is date-scoped. |
| Portfolio.AssetOn | domain.py:46-50 | The lookup returns nothing exactly when no holding has that id on that day. Otherwise it returns the first holding of the list with that id and date. |
| Portfolio.Total | domain.py:52-53 | A day without holdings is worth 0. |
| PortfolioLemmas.TotalAfterQuantityChange | domain.py:52-53 | Changing one holding's quantity moves its day's total by that holding's change in value. Every other day's total stays as it was. |
| Portfolio.Sell | domain.py:55-69 | `NotFound` exactly when no holding has the id on that day. `NegativeAmount` for a negative amount on an existing holding. Success exactly when the amount is non-negative, the price non-zero and `amount/price <= quantity`. On success only the first matching holding changes, and only its quantity, which drops by `amount/price`. |
| Portfolio.Buy | domain.py:71-81 | `NotFound` exactly when no holding has the id on that day, so a buy cannot open a position. `NegativeAmount` for a negative amount. Success exactly when the amount is non-negative and the price non-zero. On success only the first matching holding's quantity changes, rising by `amount/price`. |
| PortfolioLemmas.SellMovesTotal | domain.py:64-69 | A successful sell lowers its day's total by exactly the amount. Other days are unchanged. |
| PortfolioLemmas.BuyMovesTotal | domain.py:80-81 | A successful buy raises its day's total by exactly the amount. Other days are unchanged. |
| PortfolioLemmas.SellBound | domain.py:64-67 | At a positive price a sell succeeds exactly when `0 <= amount <= amount()` of the holding. A non-negative amount above the holding's value fails with `InsufficientQuantity`. |
| PortfolioLemmas.SellEverything | domain.py:66-69 | Selling exactly `quantity*price` of a long holding at a positive price succeeds and leaves quantity 0, because the check is strict. |
| PortfolioLemmas.BuyNothing | domain.py:77-81 | Buying 0 of an existing holding with a non-zero price succeeds and leaves the portfolio unchanged. |
| PortfolioLemmas.SellThenBuy | domain.py:64-81 | Selling an amount and then buying it back restores the portfolio. |
| PortfolioLemmas.BuyThenSell | domain.py:64-81 | Buying an amount of a long holding and then selling it restores the portfolio. |
| PortfolioLemmas.SellKeepsLong | domain.py:64-69 | A successful sell keeps every positively priced holding at quantity >= 0. |
| PortfolioLemmas.BuyKeepsLong | domain.py:77-81 | A successful buy keeps every positively priced holding at quantity >= 0. |
| DayIndex.IndexesAfterUpdate | domain.py:38-41 | For any map that indexes a list and any map that indexes the list with one holding replaced by a same-dated one: the second is the first with that day's entry updated at the old holding's position. That position lies inside the entry. |
| DayIndex.IndexAfterUpdate | domain.py:36-41 | Replacing one holding by one with the same date gives the index of the new list: the old index with the new holding at the old one's place in its day's entry. |
| PortfolioLemmas.SellKeepsIndex | domain.py:56-69 | After a sell, the rebuilt index equals the old index with the holding found through it updated in place. |
| PortfolioLemmas.BuyKeepsIndex | domain.py:72-81 | After a buy, the rebuilt index equals the old index with the holding found through it updated in place. |
| Portfolio.Weight | domain.py:83-85 | Given a matching holding and a non-zero day total, the weight times the day's total is the matched holding's value. What a weight means is stated by `WeightBounds` and `WeightsSumToOne`. |
| PortfolioLemmas.WeightBounds | domain.py:83-85 | On a day where no holding is worth less than nothing, every weight lies between 0 and 1. |
| PortfolioLemmas.WeightsSumToOne | domain.py:83-85 | On a day whose holdings carry distinct ids and whose total is not zero, `weight` finds each holding of the day. Each weight is that holding's share of the day's total, and the shares add up to exactly 1. |
| Portfolio.DailyPositions | domain.py:87-97 | Every entry is a day in `[start, end]` that has holdings, paired with that day's total and holdings. Entries are in strictly ascending day order. Every day in the range that has holdings has an entry. |
| PortfolioLemmas.DailyPositionDays | domain.py:87-97 | A day has an entry exactly when it lies in the inclusive range and some holding carries it. |
| PortfolioLemmas.NoHoldingsInRange | domain.py:87-97 | A range with no holdings projects to nothing. This includes `end < start` and an empty portfolio. |
| Service.QuantifyAll | service.py:12-13 | One holding per input asset. Each keeps its asset's id, price and date and is worth `weight * initial_amount`. |
| Service.ToQuantifiedPortfolio | service.py:6-15 | The loop yields the same list as `QuantifyAll`: the same length as the input, with element `k` equal to `quantify(assets[k])`, in input order. |
| Service.SameDayTotal | service.py:12-15 | When every asset has day `d`, the portfolio's `total(d)` is `initial_amount` times the sum of the weights. |
| Scenarios.QuantifyExample | tests/test_to_quantified_portfolio.py:15-43 | Weight 0.4 of 1000 at price 100 is 4 units. |
| Scenarios.ServiceExample | tests/test_to_quantified_portfolio.py:15-43 | Weights 0.4 and 0.6 at price 100 with 1000 invested give 4 and 6 units. |
| Scenarios.NoValidationExample | service.py:10-15 | Nothing is validated: an empty input gives an empty list. A repeated id on two days, with weights summing past one, is quantified asset by asset. |
| Scenarios.SameDayAggregationExample | tests/test_quantified_portfolio.py:122-154 | (2,50), (3,100), (1,200) on one day total 600, and the day has 3 holdings. |
| Scenarios.SingleDayProjectionExample | tests/test_quantified_portfolio.py:8-25 | A one-day range over one holding of 10 at 100 gives that day, worth 1000, with that holding. |
| Scenarios.SellExample | tests/test_quantified_portfolio_sell.py:18-28 | Selling 300 of 10 units at 100 leaves 7 units and a total of 700. Selling 1500 is refused. |
| Scenarios.RefusalExamples | tests/test_quantified_portfolio_buy.py:25-45 | Unknown ids, another day, and negative amounts are refused. |
| Scenarios.BuyExample | tests/test_quantified_portfolio_buy.py:18-23 | Buying 300 of 10 units at 100 gives 13 units and a total of 1300. |
| Scenarios.RepeatedBuyExample | tests/test_quantified_portfolio_buy.py:47-53 | Buying 200 and then 300 gives 15 units worth 1500. |
| Scenarios.BuyBesideOtherAssetExample | tests/test_quantified_portfolio_buy.py:55-82 | Buying ASSET1 leaves ASSET2 at 5 units. The day is then worth 2500. |
| Scenarios.MultiDayProjectionExample | tests/test_quantified_portfolio.py:54-87 | Holdings on three consecutive days project to three entries in day order, worth 1000, 1000 and 450. |
| Scenarios.EmptyRangeExample | tests/test_quantified_portfolio.py:199-216 | A January range misses a February holding. |

## Left out

- `etl.py` (spreadsheet reading with pandas, date parsing) is not part of this model. It is the loader that produces the asset list. It also imports a `Holding` class that `domain.py` does not define.
- `tests/test_math_utils.py` targets a `math_utils` module that is not part of this model.
- Floating point: all arithmetic is exact `real` arithmetic. Python's float rounding, and the tests' `assertAlmostEqual` tolerance, are not modelled. `sum` in `total` adds left to right from `0`; with exact reals the grouping does not matter.
- Object aliasing: `assets_on` returns a fresh list of shared holding objects, so earlier query results see later trades. Here every query returns a value, and a trade returns a new portfolio.
- Repeated holding objects: when the input list holds one object at several positions, Python's `__post_init__` indexes it once per position. A trade then changes every one of those positions. For example, `QuantifiedPortfolio([a, a]).sell("X", d, 300)` with 10 units of `a` at 100 lowers `total(d)` from 2000 to 1400. The model changes only the first position, giving 1700. `Sell`, `Buy`, `SellMovesTotal`, `BuyMovesTotal`, `SellThenBuy`, `BuyThenSell`, `SellKeepsIndex` and `BuyKeepsIndex` describe lists in which every position holds its own object. `to_quantified_portfolio` only builds such lists, because `quantify` creates a fresh holding for each asset.
- Calendar arithmetic (`timedelta`, `.days`) is replaced by integer day ordinals. `daily_positions` steps one ordinal at a time.
- Portfolio.Weight: the source calls `.amount()` on `None` when nothing matches and divides by a zero total unguarded. Both crashes are preconditions here rather than modelled errors.
- Holdings.Quantify: a zero price is a precondition, and so is `Service.Priced` for the service. The source would raise `ZeroDivisionError`.
- Portfolio.Total: its contract states only the empty-day case. What a trade does to the total is stated by `TotalAfterQuantityChange`, `SellMovesTotal` and `BuyMovesTotal`, and the concrete sums by the scenarios.
- Errors carry no message text. The source's messages name the id and day, and `NotFound` carries the same id and day.
- Not-a-number and infinite prices or amounts do not exist among reals and are not modelled.
