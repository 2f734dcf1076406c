# Mochi finance buddy: analytics, runway and tips

A Dafny model of the computational core of the "Gen-Z Finance Buddy" backend
(`main.py`): the analytics pass over the loaded transactions
(`calculate_analytics`), the burn-rate and runway projection of the `/summary`
report (`get_summary`), and the rule ladder of the `/tips` report
(`get_savings_tips`). The transaction list the service loads at startup is a
parameter of every operation.

Modules, one per component:

- `Wrappers` (`wrappers.dfy`): `Option` for Python's `None`, `Result` for the
  HTTP errors the endpoints raise.
- `Errors` (`errors.dfy`): the two client-visible failures, no data loaded and
  a non-positive monthly income.
- `Ledger` (`ledger.dfy`): the transaction record (dates as day numbers,
  amounts as exact reals, the `type` field as free text) and the folds
  `sum(...)`, `min(...)`, `max(...)` of the analytics, with per-category
  reference definitions.
- `Categories` (`categories.dfy`): the `spend_by_category` dictionary. Python
  dictionaries remember insertion order and the tips depend on it, so the model
  keeps the keys in insertion order beside the map; `Add` is the
  `defaultdict(float)` update `d[c] += x`.
- `Analytics` (`analytics.dfy`): `CalculateAnalytics`, the loop that builds the
  dictionary in place, proved equal to the function `Analyze`, and what the four
  results mean.
- `Projection` (`projection.dfy`): the straight-line runway arithmetic and the
  `/summary` handler with its two error cases.
- `Tips` (`tips.dfy`): the top-category choice (`sorted(..., reverse=True)[0]`),
  the four rules, the cut to three tips, and the `/tips` handler.

Two consequences of the code that are easy to miss, both kept in the model:

- `days_until_broke_projection` is `None` whenever the daily rate is not
  positive (the code tests `daily_spend_rate > 0`), so also for a negative total
  spend. With non-negative amounts this is the same as "the rate is 0"
  (`Projection.RunwayIffSpending`).
- A debit of amount 0 still creates its category key with value 0: the keys are
  the categories of debit transactions, not the categories with non-zero spend.

## Model

| member | source | states |
|---|---|---|
| `Ledger.SumOfTypeBounds` | main.py:107-108 | the sum over one type is 0 when no transaction has that type, and not negative when no amount is negative |
| `Ledger.TypeTotalsPartition` | main.py:107-108 | every amount goes to exactly one of the debit total, the credit total and the unrecognised-type remainder, which together make the sum of all amounts |
| `Ledger.KnownTypesAddUp` | main.py:107-108 | when every type is "debit" or "credit", total spend plus total income is the sum of all amounts |
| `Ledger.MinDate` | main.py:115 | the earliest date is one of the dates and no date is earlier |
| `Ledger.MaxDate` | main.py:116 | the latest date is one of the dates and no date is later |
| `Categories.CategoryMap.Add` | main.py:113 | `d[c] += x` on a defaultdict: the key set gains `c`, `c` holds its old value (0 when absent) plus `x`, other keys are unchanged, a new key goes to the end of the insertion order |
| `Categories.AddTotal` | main.py:113 | adding `x` under any key adds `x` to the sum of the dictionary's values |
| `Analytics.CategorySpend` | main.py:110-113 | the dictionary after the loop is well formed (distinct keys in insertion order, one value per key) and has at most one key per transaction |
| `Analytics.Analyze` | main.py:102-119 | the result is (0, 0, {}, 0) exactly when the list is empty; the dictionary is well formed; a non-empty list has a span of at least 1 day |
| `Analytics.CalculateAnalytics` | main.py:102-119 | an empty list gives (0, 0, {}, 0); otherwise the debit and credit sums, a dictionary whose keys are the debit categories, each holding its debit spend and summing to the total spend, and a day span of at least 1; the result equals `Analyze` |
| `Analytics.CategoryKeys` | main.py:110-113 | a category is a key exactly when some debit transaction has that category |
| `Analytics.CategoryValues` | main.py:110-113 | each key holds the sum of the amounts of the debits in that category |
| `Analytics.CategoriesSumToSpend` | main.py:107-113 | the dictionary's values add up to the total spend |
| `Analytics.CategoryOrderIsFirstDebitOrder` | main.py:110-113 | keys are in the order of each category's first debit transaction |
| `Analytics.PeriodDaysSpan` | main.py:115-117 | for a non-empty list the span is at least 1 day, covers every date, ends on the latest date (so it is latest minus earliest plus 1), and is exactly 1 when all transactions share one date (and only then) |
| `Analytics.UnrecognisedTypeIgnored` | main.py:107-113 | inserting a transaction whose type is neither "debit" nor "credit" at any position of the list changes neither total nor the dictionary (keys, values and key order) |
| `Projection.Truncate` | main.py:151 | `int(x)` truncates toward zero: the floor for non-negative `x`, the ceiling for negative `x` |
| `Projection.Project` | main.py:144-151 | daily rate is spend over days (0 when days is 0), burn rate is 30 times that, money left is income minus spend; days left is absent exactly when the rate is not positive, otherwise 0 when no money is left, otherwise the whole number of days the money lasts at that rate |
| `Projection.DaysFit` | main.py:151 | the truncated quotient of positive money and rate is the largest `n` with `n * rate <= money` |
| `Projection.GetSummary` | main.py:132-162 | a non-positive income is an invalid-input error, an empty list a no-data error; otherwise the summary built from `Analyze` and `Project`, with net flow income minus spend |
| `Projection.RunwayIffPositiveSpend` | main.py:144-151 | for a non-negative spend over at least one day, the runway is absent exactly when the spend is 0 |
| `Projection.RunwayIffSpending` | main.py:144-151 | with non-negative amounts, the runway is absent exactly when total spend is 0 |
| `Projection.NoSpendNoRunway` | main.py:149-150 | zero spend gives no runway, for any income |
| `Projection.AlreadyBroke` | main.py:151 | positive spend at or above the income gives a runway of 0, never negative |
| `Projection.SummaryExample` | main.py:142-151 | a 100 debit on day 0 and a 5000 credit on day 4 with income 6000 give a span of 5, rate 20, burn 600, money left 5900 and 295 days |
| `Tips.TopIndexIsFirstMax` | main.py:187-191 | the first sorted entry is a key with the largest value, and every key inserted before it has a strictly smaller value (stable sort) |
| `Tips.TopCategory` | main.py:187-191 | there is a top entry exactly when the dictionary is non-empty, and it is a key with its value |
| `Tips.NoTopCategoryWithoutDebits` | main.py:187-190 | there is no top category exactly when no transaction is a debit |
| `Tips.TopCategoryOfTransactions` | main.py:187-191 | the top category has the largest debit spend, and among equal spends it is the one whose first debit comes earliest |
| `Tips.TopCategoryTip` | main.py:190-209 | a top-category tip exists exactly when the top category is Food Delivery, Shopping or Going Out; Food Delivery gets the kitchen tip carrying its spend, Shopping the 24-hour-rule tip, Going Out the pre-game tip |
| `Tips.SuttaSavingRate` | main.py:214 | the saving times the number of transactions is 22.5 times the Sutta spend, and it is not negative for a spend that is not negative |
| `Tips.SuttaTip` | main.py:212-219 | the Sutta rule fires exactly when "Sutta" is a key, and its tip carries the saving computed from that key's spend |
| `Tips.CoffeeTip` | main.py:221-226 | the Coffee rule fires exactly when "Coffee" is a key whose spend is above 200, and its tip is the barista tip |
| `Tips.LadderShape` | main.py:184-233 | the list built holds one to four tips, ends with the subscriptions tip and holds it nowhere else, and has four tips exactly when all three rules fire |
| `Tips.Take` | main.py:237 | `s[:n]` has length `min(len(s), n)` and agrees with `s` on every position it keeps |
| `Tips.SavingsTips` | main.py:229-237 | one to three tips are returned, they are a prefix of the list built, and fewer than three means the whole list |
| `Tips.TopTipFirst` | main.py:190-209 | the first tip is a top-category tip exactly when the top category is recognised, and then it is that category's tip; no later tip is a top-category tip |
| `Tips.SuttaTipShown` | main.py:212-219 | the Sutta tip is returned exactly when "Sutta" is a key, with saving (spend / number of transactions) * 0.75 * 30 |
| `Tips.SuttaSavingExample` | main.py:214 | Sutta spend 300 over 10 transactions gives a saving of 675 |
| `Tips.CoffeeTipShown` | main.py:221-226 | the Coffee tip is returned exactly when Coffee spend is above 200 |
| `Tips.SubscriptionsTipShown` | main.py:228-237 | the subscriptions tip is returned, as the last tip, unless the top-category, Sutta and Coffee rules all fired |
| `Tips.BuildTips` | main.py:184-233 | the successive appends produce the rule ladder: top-category tip, Sutta tip, Coffee tip, subscriptions tip, each when its rule fires |
| `Tips.GetSavingsTips` | main.py:164-238 | an empty list is a no-data error and a non-empty list always succeeds; on success the tips are the ladder cut to three and the encouragement is the drawn one of the five |

## Left out

- HTTP wiring: the FastAPI app, CORS middleware, endpoint decorators, `HTTPException` status codes, the `/transactions` listing (it returns the loaded list unchanged) and uvicorn startup (main.py:84-98, 124-130, 242-246).
- Loading `mock_transactions.json` at startup, its fallback to an empty list on any failure, and clearing the state at shutdown (main.py:56-79): file I/O and a global; every operation takes the transaction list as a parameter.
- Pydantic parsing and validation of records (main.py:14-21); the `Query(gt=0)` check is modelled as the `InvalidInput` error of `GetSummary`.
- Floating point: amounts are exact reals, so sums do not depend on summation order and there is no rounding error; `round(..., 2)` on the summary fields and the `:.0f` formatting inside tip texts are left out (main.py:154-161, 195, 217). For the same reason the `OverflowError` that `int(money_left / daily_spend_rate)` raises when the float quotient overflows to infinity (main.py:151) is not modelled: an exact quotient is always finite.
- Tip titles, texts and emoji, and the encouragement strings, are represented by tags (`Tip`, `Boost`), not by their literal text; the mascot name is left out.
- `random.choice` (main.py:236) is modelled as an index `pick` below 5 supplied by the caller.
- Dates are day numbers; calendar arithmetic of `datetime.date` is not modelled.
