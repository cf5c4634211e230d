# Option scanner: contract selection and portfolio totals

A model of `scan_options`, the one piece of logic in the option scanner web app.
For every requested ticker it takes the option chain the market-data provider
returns for the query date. It keeps the contracts that match the requested
expiration and option type, have a delta no larger than the target, and quote a
bid and an ask. It picks the kept contract with the largest delta, with the first
one winning a tie. It writes exactly one summary row per ticker, in input order.
A row whose chain request failed, or whose chain had no match, gets zero and
empty-string placeholders. Finally it totals the premium and the collateral.

Modules:

- `Wrappers`: `Option` for absent JSON fields, `Result` for the exceptions that abort a scan.
- `Rounding`: Python's `round(x, 2)` on exact reals (`Round2`, ties to the even hundredth).
- `OptionChain`: contracts, the filter condition (`Keep`), the filter (`Filter`), the
  `max`-by-delta choice (`MaxIndex`, `Best`, `Select`) and its characterisation
  (`FirstMaximal`).
- `OptionScan`: the provider as a `Market` of lookup functions, the per-symbol row
  (`RowFor`), the sums, and the scan loop itself (`Scan`, a method with loop invariants).
- `Scenarios`: worked single-symbol examples.

The provider is an input. `Market.prevClose` and `Market.dailyClose` stand for the
two quote helpers, which swallow every error and return `None`. `Market.chain(symbol,
date)` stands for the option-chain request: `None` when it raises a
`RequestException`, otherwise the `data` list of the response. The API key read from
the environment is the parameter `apiKey` of `Scan`. Each present JSON field is a
`Raw`: either the number `float` makes of it or `NonNumeric` when `float` raises.

Where the application's documented behaviour and its code differ, the model follows the code:

- the code never rounds the mid price on its own; it rounds `((bid + ask) / 2) * 100` once;
- the code's rows have no earnings-date or upcoming-earnings fields;
- an unparsable delta, an unparsable bid, ask or strike of the chosen contract, or a
  chosen contract without a strike raises an exception that is not a
  `RequestException`, so it aborts the whole scan instead of degrading one row.

## Model

| member | source | states |
|---|---|---|
| `Rounding.Round2` | scanapp/option_scan.py:82-83 | the result is a whole number of hundredths within 0.005 of the input, leaves amounts already in hundredths unchanged, and resolves an exact half to the even hundredth |
| `Rounding.Round2Monotonic` | scanapp/option_scan.py:82-83 | rounding preserves the order of two amounts |
| `OptionChain.Keep` | scanapp/option_scan.py:68-73 | the short-circuit condition raises exactly when it reaches a non-numeric delta; otherwise it accepts a contract exactly when expiration, type, a delta no larger than the target, bid and ask all match |
| `OptionChain.Filter` | scanapp/option_scan.py:66-74 | every contract the comprehension keeps qualifies |
| `OptionChain.FilterFails` | scanapp/option_scan.py:66-74 | the comprehension raises exactly when some contract reaches an unparsable delta, and the error is the delta's `ValueError` |
| `OptionChain.FilterKeeps` | scanapp/option_scan.py:66-74 | when it succeeds, a contract is kept if and only if it is in the chain and qualifies, the result is no longer than the chain, and it is empty exactly when no contract qualifies |
| `OptionChain.FilterStep` | scanapp/option_scan.py:66-74 | a successful filter of a non-empty chain is its first contract, when that qualifies, followed by the filter of the rest |
| `OptionChain.FilterConcat` | scanapp/option_scan.py:66-74 | the filter keeps list order: filtering a concatenation is the concatenation of the filtered parts |
| `OptionChain.FilterOrigin` | scanapp/option_scan.py:66-74 | the j-th kept contract sits at some position of the chain, and the filter of the chain before that position is exactly the first j kept contracts |
| `OptionChain.MaxIndex` | scanapp/option_scan.py:76 | the chosen index has a delta at least every other delta, and every earlier index has a strictly smaller delta (first wins on ties) |
| `OptionChain.Best` | scanapp/option_scan.py:76 | `max(..., default=None)` returns nothing exactly for an empty list; otherwise a member of the list with the largest delta, no earlier member having an equal one |
| `OptionChain.SelectSound` | scanapp/option_scan.py:66-76 | the selected contract is the first maximal-delta contract among the qualifying ones of the chain, and nothing is selected exactly when no contract qualifies |
| `OptionChain.Select` | scanapp/option_scan.py:66-76 | filtering then taking the maximum fails exactly when some contract reaches an unparsable delta; a selected contract is in the chain and qualifies |
| `OptionChain.FirstMaximalUnique` | scanapp/option_scan.py:76 | at most one position of a chain is the first maximal qualifying one |
| `OptionChain.SelectComplete` | scanapp/option_scan.py:66-76 | conversely, when the filter succeeds, the first maximal qualifying contract is the one selected |
| `OptionScan.Placeholder` | scanapp/option_scan.py:96-117 | the sentinel row keeps its symbol and both quote values, adds 0 to the premium sum and to the strike sum, and its collateral agrees with its strike as on every other row |
| `OptionScan.Priced` | scanapp/option_scan.py:79-83 | pricing the chosen contract fails exactly when its bid or ask is not a number or its strike is missing or not a number |
| `OptionScan.RowFor` | scanapp/option_scan.py:48-117 | a row carries its symbol and the two quotes unchanged, a premium in whole cents and a collateral equal to the rounded strike times 100; a delta it reports is no larger than the target and comes with the requested expiration; a failed chain request gives the placeholder row, and only a chain that arrived can abort the scan |
| `OptionScan.RowForUnmatched` | scanapp/option_scan.py:95-105 | a chain with no qualifying and no unparsable contract gives the placeholder row: strike, premium and collateral 0, expiration and delta empty, quotes as looked up |
| `OptionScan.RowForMatched` | scanapp/option_scan.py:78-94 | for the first maximal qualifying contract with numeric bid, ask and strike, the row has that strike, the requested expiration, that delta, premium `round(((bid+ask)/2)*100, 2)` and collateral `round(strike*100, 2)` |
| `OptionScan.RowForFails` | scanapp/option_scan.py:60-107 | a symbol aborts the scan exactly when its chain arrived and either some contract reaches an unparsable delta or the selected contract cannot be priced |
| `OptionScan.SumPremium` | scanapp/option_scan.py:119 | the premium sum is non-negative when every premium is, and zero when every premium is zero |
| `OptionScan.SumStrike` | scanapp/option_scan.py:120 | the strike sum is non-negative when every strike is, and zero when every strike is zero |
| `OptionScan.Summarize` | scanapp/option_scan.py:119-121 | the result keeps the rows; both totals are whole cents; when every row has zero premium and zero strike (only placeholder rows, say), both totals are zero |
| `OptionScan.SumsConcat` | scanapp/option_scan.py:119-120 | the premium and strike sums split over a concatenation of rows |
| `OptionScan.PlaceholderAddsNothing` | scanapp/option_scan.py:96-120 | inserting a placeholder row anywhere changes neither sum |
| `OptionScan.StrikeTotalIsCollateralTotal` | scanapp/option_scan.py:83-120 | 100 times the strike sum equals the sum of the collateral fields whenever each collateral is exactly 100 times its strike |
| `OptionScan.Scan` | scanapp/option_scan.py:41-121 | a missing API key fails before any row; on success there is exactly one row per symbol, row k has symbol k and is that symbol's row, and the result is `Summarize` of those rows (rounded premium sum, rounded strike sum times 100); a failure is the error of the first symbol that fails, and the scan succeeds whenever no symbol fails |
| `Scenarios.SecondPutSelected` | scanapp/option_scan.py:66-94 | with puts at delta -0.18 and -0.25 and target -0.20 the second is chosen, with premium 90 and collateral 9500 |
| `Scenarios.TieGoesToFirst` | scanapp/option_scan.py:76 | of two qualifying puts with equal delta, the earlier one's strike is reported |
| `Scenarios.FailedRequestGivesPlaceholder` | scanapp/option_scan.py:107-117 | a failed chain request still yields the placeholder row with the quotes unchanged |

## Left out

- The HTTP requests, URL construction, `raise_for_status`, timeouts and JSON decoding (scanapp/option_scan.py:5-39, 54-64): network I/O, replaced by the `Market` lookups. A payload that is not a JSON object (the `AttributeError` of `.get`) is not modelled.
- The quote helpers `_get_prev_close` and `_get_daily_latest_close`: their results are the opaque inputs `Market.prevClose` and `Market.dailyClose`. Their own API-key check cannot fire, because `scan_options` checks the same key first. The `print` in the first helper is output only.
- A provider payload whose `data` is not a list of objects: a `data` that is not a list of objects (`"data": null` raises `TypeError` at the comprehension, a non-object element raises `AttributeError` on `o.get`) aborts the real scan, but no value of `Market.chain` can produce that abort; the model's chain is always a list of contracts.
- `OptionChain.Raw`: `float` also accepts "nan", "inf", "-Infinity" and "1e400" and returns a value that is not a real number. The model has only real numbers and `NonNumeric`, so it does not capture a NaN delta being silently dropped by `nan <= target`, nor a NaN or infinite bid, ask or strike spreading into `Premium`, `Collateral` and both totals.
- `OptionScan.RowFor`, `OptionScan.SumPremium`, `OptionScan.SumStrike`: the mid price, premium, collateral and both sums are computed in exact real arithmetic before rounding; the float rounding errors of each addition and multiplication are not modelled.
- `Market`: one scan sees one fixed provider, so the same symbol requested twice gets the same answers; two real requests could differ.
- `Rounding.Round2`: rounds the exact real value, not a binary float. For example, Python's `round(2.675, 2)` gives 2.67 because the float lies below 2.675, while the model gives 2.68.
- `OptionScan.RowFor`: the row's delta is the number the contract's delta field denotes, not its verbatim JSON text (for example "-0.250").
- Contract fields whose JSON value is neither absent, null nor a string: an expiration or type of another JSON kind simply never matches, so only strings are modelled.
- `if best:` treats an empty dictionary as false; a selected contract always has its keys, so the model tests only whether a contract was selected.
- scanapp/views.py, scanapp/forms.py, scanapp/utils.py and the two scripts under scanapp/static/: Django plumbing, a declarative form, an environment read and browser display code.
