# Two-track allocation engine

This is a model of the rule engine behind the investment dashboard `investment_app.py`. The dashboard splits a capital amount into two tracks. The tactical track gets 20% of the capital. It reads a volatility-breakout strength (0..100) and holds 0%, 20%, 60% or 100% of its share in equity. The strategic track gets 80% of the capital and works the contrarian way. It blends the market sentiment (70%) with the analyst consensus rescaled from 1..5 to 0..100 (30%) into a risk score, and the higher that score, the more cash it keeps back: 0%, 5%, 15% or 30%.

The strategic equity is spread over a fixed table of eight holdings. Their weights sum to 0.95, and each line is divided by 0.95. The portfolio table then gets one tactical line when the tactical equity is positive, plus one cash line that holds both tracks' cash. Finally the table is ordered by amount, largest first. The three headline amounts (tactical equity, tactical cash and strategic equity) are shown through a won formatter.

The model has three modules:

- `Tracks` (`tracks.dfy`) covers the two tracks. It has their tier tables and functions that split the capital. `Evaluate` runs both tracks on the panel's inputs.
- `Portfolio` (`portfolio.dfy`) covers the portfolio list. The loop over the holding table is an imperative method, and so is the method that appends the tactical and cash lines. `Allocate` and `Simulate` are the script's run from inputs to table. The descending order by amount is an insertion sort on sequences.
- `Currency` (`currency.dfy`) covers the won formatter: truncation toward zero, decimal digits and comma grouping by threes. It also has a reader that parses a formatted amount back.

Modelling choices:

- Amounts are exact reals, while the application's arithmetic is binary floating point.
- The tracks read the capital from a global variable in the source. Here the capital and the track ratio are parameters, and the application's constants 0.2 and 0.8 are passed in by `Evaluate`.
- The input panel's ranges are stated as `Tracks.ValidContext`: capital at least 1,000,000, strength and sentiment 0..100, consensus 1..5. The tier functions themselves are total, as in the source. Only the facts that depend on the ranges require the predicate, such as non-negative amounts, a risk score in 0..100, and percents that add up to 100.
- The signal label and colour of each branch are folded into a `Tier` (Low, Medium, High, Extreme). The doc comment of `Tracks.Tier` lists the labels.
- Holding and line names are enumerations. `Portfolio.DisplayName` gives the text the table shows.

Two facts about the code that the model states as the code has them:

- **Grossing-up.** Each core amount is divided by 0.95 (line 195), the weight total of the fixed table, so the core lines together receive the whole strategic equity. In particular, a single holding of weight 0.95 out of an equity of 95 gets 95. `Portfolio.GrossUpSingleHolding` states this value.
- **Sort order.** The `sort_values` call at line 225 uses the default sort kind, which does not promise to keep the order of ties. The model therefore promises only a permutation with non-increasing amounts.

## Model

| member | source | states |
|---|---|---|
| Tracks.ValidContext | investment_app.py:22-53 | the input panel's ranges: capital at least 1,000,000, strength and sentiment 0..100, consensus 1..5; every range-dependent contract requires it; a valid capital is positive, so percents never divide by zero |
| Tracks.PanelDefaultsValid | investment_app.py:22-53 | the widgets' initial values (100,000,000, 50, 50, 3) satisfy the ranges |
| Tracks.TacticalTier | investment_app.py:87-101 | the four tactical tiers partition the strength exactly: at least 80, 60..79, 21..59, at most 20, each as an if-and-only-if |
| Tracks.EquityRatio | investment_app.py:83-101 | every tier's equity ratio lies between 0 and 1 |
| Tracks.TacticalRatioMonotone | investment_app.py:87-101 | a larger strength never gives a lower tier or a lower equity ratio |
| Tracks.RunTactical | investment_app.py:82-108 | the tactical share splits exactly into equity plus cash; equity is the share times the tier's ratio; strength at least 80 is all equity; strength at most 20 is all cash; both parts are non-negative for a non-negative share |
| Tracks.TacticalStockMonotone | investment_app.py:82-108 | with a non-negative share, more strength never gives less tactical equity |
| Tracks.RiskScore | investment_app.py:112-113 | for inputs in the panel's ranges the risk score lies in 0..100; neutral inputs (50, 3) score exactly 50 |
| Tracks.RiskScoreMonotone | investment_app.py:112-113 | the score grows with each input, and strictly with the sentiment |
| Tracks.StrategicTier | investment_app.py:119-133 | the four strategic tiers partition the risk score: at least 80, [60, 80), (20, 60), at most 20, as if-and-only-ifs |
| Tracks.TargetCashRatio | investment_app.py:115-133 | every tier's cash ratio lies between 0 and 0.30 |
| Tracks.CashRatioMonotone | investment_app.py:119-133 | a higher risk score never gives a lower tier or a lower cash ratio |
| Tracks.RunStrategic | investment_app.py:111-140 | the result carries the risk score and its tier; the strategic share splits exactly into cash plus equity; cash is the share times the tier's ratio; a score of at most 20 keeps no cash; both parts are bounded by the share |
| Tracks.StrategicCashMonotone | investment_app.py:111-140 | the contrarian rule: a greedier market (higher sentiment or consensus) never lowers the strategic cash |
| Tracks.Evaluate | investment_app.py:143-144 | both tracks are run with the fixed 0.2 and 0.8 ratios, and their four amounts add up to the capital |
| Tracks.Complementarity | investment_app.py:78-79 | the ratios 0.2 and 0.8 cover the capital exactly; for valid inputs every amount is non-negative and the risk score is in 0..100; tactical equity is positive exactly when the strength exceeds 20 |
| Tracks.PlanTotals | investment_app.py:205-215 | what the table relies on: tactical equity is positive exactly when the strength exceeds 20, and the positive tactical equity with the other three amounts adds up to the capital |
| Tracks.ScenarioMidMarket | investment_app.py:82-140 | capital 100,000,000 with inputs 50/50/3 gives tactical 4,000,000 / 16,000,000 and strategic 76,000,000 / 4,000,000 with risk score 50 |
| Tracks.ScenarioOverheated | investment_app.py:82-140 | inputs 90/90/5 give all-equity tactical 20,000,000 and strategic 56,000,000 equity with 24,000,000 cash at risk score 93 |
| Portfolio.CoreLine | investment_app.py:195-201 | a holding's line is named after the holding, in the core category, and its amount times 0.95 equals the strategic equity times the weight |
| Portfolio.BuildCoreLines | investment_app.py:193-202 | the loop yields one line per holding in table order; the amounts times 0.95 add up to the strategic equity times the table's total weight; every percent is the amount's share of the capital |
| Portfolio.BuildPortfolio | investment_app.py:190-222 | the list holds the core lines, then the tactical line exactly when tactical equity is positive, then one cash line of both tracks' cash; the length follows from that; every percent is the amount's share of the capital; the amounts' total is the core total plus the positive tactical equity plus both cash amounts; the percents add up to the total's share |
| Portfolio.Allocate | investment_app.py:143-222 | for valid inputs and a holding table weighing 0.95: line k is holding k's grossed-up line; when the strength exceeds 20 the next line is the tactical line, and only then is it present; the last line is the combined cash of both tracks; the core lines add up to exactly the strategic equity, all amounts to the capital and all percents to 100 |
| Portfolio.Simulate | investment_app.py:143-225 | over the fixed holding table, the built list has the same shape as in `Allocate` (each holding's line, the tactical line exactly when the strength exceeds 20, the combined cash line last), and the displayed table is a permutation of those lines ordered by amount from largest down; both add up to the capital and to 100 percent |
| Portfolio.InsertByAmount | investment_app.py:225 | inserting a line adds exactly that line (multiset) and keeps or takes the head |
| Portfolio.SortByAmountDesc | investment_app.py:225 | the result is a permutation of the lines with non-increasing amounts |
| Portfolio.InsertKeepsOrder | investment_app.py:225 | inserting into a non-increasing table keeps it non-increasing |
| Portfolio.SortTotals | investment_app.py:225 | ordering the table keeps its amount and percent totals |
| Portfolio.CoreStocksWeight | investment_app.py:67-76 | the fixed holding table's weights add up to exactly 0.95 |
| Portfolio.GrossUpRestoresEquity | investment_app.py:193-195 | over a holding table weighing 0.95, as the fixed one does, grossed-up core amounts whose total times 0.95 is the equity times the total weight add up to exactly the strategic equity |
| Portfolio.DisplayName | investment_app.py:68-75 | the name column's text for every holding, the tactical line (line 207) and the cash line (line 217); every name is non-empty |
| Portfolio.DisplayNamesDistinct | investment_app.py:68-75 | no two lines share a display name |
| Portfolio.GrossUpSingleHolding | investment_app.py:195 | a single holding of weight 0.95 out of equity 95 gets 95, the whole equity |
| Portfolio.TotalPercentOfShares | investment_app.py:195-219 | when every percent is its amount's share of the capital, the percents add up to the total amount's share |
| Currency.Truncate | investment_app.py:14-15 | `int()` truncates toward zero: for a non-negative value the result is the floor, for a negative value the ceiling |
| Currency.FormatCurrency | investment_app.py:14-15 | the text starts with the won sign and has at least one more character |
| Currency.GroupThousandsLength | investment_app.py:14-15 | grouping adds one comma per three digits after the first group |
| Currency.GroupThousandsCommas | investment_app.py:14-15 | commas stand exactly where the distance to the end is a multiple of four, so every group after the first has three digits |
| Currency.GroupThousandsUngroup | investment_app.py:14-15 | dropping the commas of a grouped digit string gives the digits back |
| Currency.DigitsRoundTrip | investment_app.py:14-15 | reading the decimal digits of n gives n |
| Currency.FormatCurrencyRoundTrip | investment_app.py:14-15 | for every real, reading the formatted text back gives exactly the truncated integer, sign included |
| Currency.FormatCurrencyLayout | investment_app.py:14-15 | a non-negative value prints as the won sign followed by its digits grouped by threes, with the length and comma positions that implies |
| Currency.FormatSmallExample | investment_app.py:14-15 | 999 prints as ₩999 and -0.5 as ₩0 |
| Currency.FormatGroupedExample | investment_app.py:14-15 | 1234.7 prints as ₩1,234 |

## Left out

- Streamlit input widgets, layout, metrics, charts, tabs and check-lists are presentation; only the widgets' numeric ranges are kept, as `Tracks.ValidContext`.
- The signal and stance texts and the status colours are not modelled as strings; each branch is identified by its `Tier`.
- The holdings' rationale texts and the rationale column of the table are left out; names are kept as enumerations with `Portfolio.DisplayName`.
- The displayed strategic cash-ratio percentage (line 184) and the percent column's one-decimal display format are display code outside the engine.
- Tracks.RunTactical: amounts are exact reals; the floating-point rounding of the source's products is not modelled.
- Tracks.RunStrategic: amounts and the risk score are exact reals; a floating-point risk score that lands on the other side of a threshold than the exact score is not modelled.
- Portfolio.Simulate: does not state the order of lines with equal amounts, because the source's sort does not promise one.
- Portfolio.SortByAmountDesc: is an insertion sort standing in for the library sort; only its result's order and contents are modelled, not its algorithm.
- Portfolio.Allocate: takes the holding table as an input weighing 0.95, and `Simulate` passes the fixed table; the percent column is exact rather than floating point, so "adds up to 100" holds exactly only in the model.
- Currency.FormatCurrency: is modelled on reals only; `int()` of an infinite or NaN float, which raises in the source, is not modelled.
