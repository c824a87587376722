# Health & nutrition app: weight-goal metrics and nutrition ledger

A Dafny model of the two parts of this Streamlit app that hold logic.

- **Weight-goal calculator** (`app.py`, module `Metrics` in `metrics.dfy`). It covers:
  - the Mifflin-St Jeor basal metabolic rate (BMR);
  - total daily energy expenditure (TDEE), which is BMR times a fixed activity multiplier;
  - the weeks needed to reach a goal weight at a daily kcal delta, using 7700 kcal per kg;
  - the daily water target;
  - the page's own decisions: deficit or surplus, target calories, the three timelines, the
    water-intake advice, and the whole page as one function, `Assess`.
  These are pure functions over exact `real` arithmetic.
- **Calorie-intake tracker** (`calrie.py`, module `Nutrition` in `nutrition.dfy`). It covers:
  - the session's food log and saved-day history, held as the class `Ledger` with two `seq`
    fields, `log` and `summaries`;
  - "Add Foods" as the method `AddFoods`. Its `while` loop mirrors the source loop and is proved
    against the pure function `Expand`;
  - "Save Day" as the method `SaveDay`;
  - the per-date totals (`DayTotals`, a filter `OnDate` followed by a sum `SumAll`);
  - the per-date protein/carbs/fat breakdown (`Breakdown`).
  The food table is a sequence of rows, searched for the first matching name.

`outcome.dfy` holds the `Option` and `Result` types that both modules use.

Behaviour of the code that the model keeps as it is:
- Equal current and desired weights take the surplus branch (app.py:71-78).
- Every gender string other than `"Male"` gets the −161 offset (app.py:6-9).
- In the deficit branch the page prints the longest timeline as "Fast pace" (see Findings).
  `Assess` keeps the labels as printed.
- "Save Day" stores the totals computed from the log at the moment of saving
  (calrie.py:56-59, 69-72). Entries added later do not revise an earlier snapshot.
- An unknown food raises in the middle of the loop. Entries appended before it stay in the
  log: there is no rollback.

## Model

| member | source | states |
|---|---|---|
| Metrics.Bmr | app.py:5-9 | Mifflin-St Jeor: 10 × weight + 6.25 × height − 5 × age, plus 5 for "Male" and −161 for every other gender string |
| Metrics.BmrMaleGap | app.py:5-9 | for the same weight, height and age, the "Male" BMR is exactly 166 kcal above that of any other gender string |
| Metrics.BmrNonMaleUniform | app.py:6-9 | every gender string other than "Male" gives the same BMR (the −161 formula) |
| Metrics.BmrLinear | app.py:7-9 | BMR changes by +10 per kg of weight, +6.25 per cm of height and −5 per year of age |
| Metrics.Tdee | app.py:11-19 | succeeds exactly for the five offered labels; any other label fails with UnknownActivityLevel (the KeyError); for a nonzero BMR, TDEE ÷ BMR is the label's multiplier |
| Metrics.TdeeMultipliers | app.py:11-19 | each of the five activity labels scales BMR by 1.2, 1.375, 1.55, 1.725 and 1.9 respectively |
| Metrics.TdeeIncreasesWithActivity | app.py:12-18 | for a positive BMR, a label later in the offered order gives a strictly larger TDEE |
| Metrics.TimeToGoal | app.py:21-26 | fails exactly when the daily delta is zero; otherwise the weeks are non-negative, and weeks × 7 × abs(delta) equals abs(current − desired) × 7700 |
| Metrics.TimeToGoalSymmetric | app.py:22-26 | swapping the current and desired weights does not change the result |
| Metrics.TimeToGoalZeroWhenMet | app.py:22-26 | equal weights give 0 weeks for every nonzero delta |
| Metrics.TimeToGoalExample | app.py:21-26 | 80 kg to 70 kg at 500 kcal/day gives exactly 22 weeks |
| Metrics.TimeToGoalNonIncreasing | app.py:21-26 | a larger abs(delta) never gives a longer time |
| Metrics.TimeToGoalDecreasing | app.py:21-26 | for distinct weights, a strictly larger abs(delta) gives a strictly shorter time |
| Metrics.PlanGoal | app.py:69-87 | deficit exactly when current − desired > 0 (equal weights give a surplus); target = TDEE − 500 for a deficit and TDEE + 250 for a surplus; the three timelines use deltas 250/1000/500 (deficit) or 500/125/250 (surplus); deficit: max_time ≤ weeks_to_goal ≤ min_time; surplus: min_time ≤ weeks_to_goal ≤ max_time |
| Metrics.DisplayedPaces | app.py:97-100 | "Slow pace" shows `max_time`, "Recommended pace" shows `weeks_to_goal` and "Fast pace" shows `min_time`, in both goal directions |
| Metrics.DisplayedPacesInvertedForDeficit | app.py:80-100 | for every weight-loss goal (current > desired), the labels as printed give fast > recommended > slow |
| Metrics.DisplayedPacesExample | app.py:80-100 | 80 kg to 70 kg prints "Fast pace" 44 weeks, "Recommended pace" 22 weeks and "Slow pace" 11 weeks |
| Metrics.Paces | app.py:80-100 | the corrected labels: identical to the printed ones for a surplus; for a deficit the fast and slow values are swapped |
| Metrics.PacesOrdered | app.py:80-100 | with the corrected labels, fast is the largest delta's timeline and slow is the smallest delta's; fast ≤ recommended ≤ slow for both goal directions |
| Metrics.RecommendedWater | app.py:28-29 | the target × 1000 equals weight × 32.5; it is non-negative for a non-negative weight |
| Metrics.CompareWater | app.py:123-129 | exactly one of three outcomes: "drink more" iff diff < −0.5, "above" iff diff > 0.5, "close" otherwise; the amounts carried are the shortfall or the excess |
| Metrics.FollowingWaterAdviceIsClose | app.py:123-129 | drinking the advised shortfall, or dropping the reported excess, lands in the "close" band |
| Metrics.Assess | app.py:67-100 | fails exactly for an unknown activity label; otherwise its BMR, TDEE, goal plan, printed paces, water target and water advice are those of Bmr, Tdee, PlanGoal, DisplayedPaces, RecommendedWater and CompareWater on the page's inputs; deficit iff current > desired; target = TDEE − 500 or TDEE + 250; printed paces are fast > recommended > slow for a deficit and fast ≤ recommended ≤ slow for a surplus; the water advice is "close" iff abs(intake − target) ≤ 0.5 |
| Nutrition.Lookup | calrie.py:35-39 | none iff no row has the name; otherwise the values of the first row with that name |
| Nutrition.Scale | calrie.py:41-44 | each scaled nutrient × 100 equals the per-100g value × grams; 100 g gives the per-100g values, 0 g gives zero, and non-negative values stay non-negative |
| Nutrition.AddOne | calrie.py:34-49 | one turn of the loop only appends: nothing after a failure; a quantity ≤ 0 adds nothing; a known food adds exactly one entry with the date, the name and the scaled values; an unknown food with a positive quantity fails |
| Nutrition.Expand | calrie.py:33-49 | a press appends at most one entry per selection, every entry dated with the selected date, and fails only on a positive-quantity selection whose food is missing from the table |
| Nutrition.ExpandAllKnown | calrie.py:33-48 | when all positive-quantity foods are known: no failure, and exactly one entry per positive-quantity selection, in selection order, carrying the date, the food name and per-100g × grams / 100 for each nutrient |
| Nutrition.ExpandFailsIffUnknown | calrie.py:34-35 | a press fails iff some positive-quantity selection names a food absent from the table |
| Nutrition.ExpandStopsAtUnknown | calrie.py:33-35 | once a prefix of the selections has failed, the remaining selections change nothing |
| Nutrition.ExpandIgnoresNonPositive | calrie.py:34 | selections with quantity 0 have no effect: the press equals the press over the positive-quantity selections only |
| Nutrition.OnDate | calrie.py:56-59 | the filtered entries all carry the date, there are at most as many as in the log, and the filter is empty iff no log entry has that date |
| Nutrition.OnDateFromLog | calrie.py:56-59 | every entry the filter keeps is an entry of the log |
| Nutrition.DayTotalsAppend | calrie.py:56-59 | the totals of a log made of two parts are the sum of the two parts' totals |
| Nutrition.DayTotals | calrie.py:56-59 | the sums over the date's entries: all-zero (not an error) for a date without entries, and non-negative when every entry is |
| Nutrition.DayTotalsOfOne | calrie.py:56-59 | a one-entry log totals that entry's amounts on its date |
| Nutrition.AddFoodsTotals | calrie.py:46-59 | adding foods on date d leaves every other date's totals unchanged, and raises d's totals by exactly the sums of the new entries |
| Nutrition.AppleExample | calrie.py:41-59 | 200 g of a food with 52 kcal per 100 g, added to an empty log, totals 104 kcal for that day |
| Nutrition.Breakdown | calrie.py:85-98 | "no data" iff the date has no entries; otherwise that date's protein, carbs and fat totals |
| Nutrition.BreakdownRecombines | calrie.py:56-90 | a date's breakdown, together with its calorie total, gives back that date's full totals |
| Nutrition.Ledger.constructor | calrie.py:22-23 | a session starts with an empty log and an empty saved-day history |
| Nutrition.Ledger.AddFoods | calrie.py:32-49 | the new log is the old log followed by the press's entries: a prefix-preserving append; returns the failing food if any; the history is unchanged; other dates' totals are unchanged, and this date's totals grow by the new entries' sums |
| Nutrition.Ledger.SaveDay | calrie.py:52-72 | offered iff the log is non-empty; appends one snapshot of the date's current totals; earlier snapshots stay as they were; duplicate dates are allowed; the log is unchanged |

## Findings

| source | as written | input that shows it | evidently intended | confidence | as-written member | corrected member |
|---|---|---|---|---|---|---|
| app.py:80-100 | "Fast pace" prints `min_time` and "Slow pace" prints `max_time` in both branches. In the deficit branch, `min_time` uses a 250 kcal delta, which gives the longest time, and `max_time` uses 1000 kcal, which gives the shortest. | current 80 kg, desired 70 kg: "Fast pace" 44.0 weeks, "Slow pace" 11.0 weeks | fast pace = the timeline of the largest delta, slow pace = the timeline of the smallest, so fast ≤ recommended ≤ slow | high (not executed) | Metrics.DisplayedPacesInvertedForDeficit | Metrics.PacesOrdered |

`Metrics.DisplayedPaces` is the labelling as printed; `Metrics.Assess`, which models the page, uses it. `Metrics.Paces` is the corrected labelling.

## Left out

- `fetch_advice` (app.py:31-41) and `introduction.py`: HTTP requests to remote services with fixed fallback strings. This is I/O only.
- `main.py`: sidebar navigation and page dispatch only.
- Streamlit widgets, HTML markdown and the number formatting (`:.0f`, `:.1f`). The widgets' ranges are not modelled: the functions accept all inputs.
- Matplotlib charts: app.py:103-113 and calrie.py:76-83. The saved-day history (calrie.py:74) is the `summaries` field that the chart would read.
- Loading the food table from the Excel file, and the missing-file stop (calrie.py:9-13). The table is a given sequence of rows.
- IEEE floating-point rounding: all arithmetic is exact `real`.
- pandas DataFrame construction: the totals are modelled as a filter followed by a sum over the sequence.
- The date picker's min/max bounds for the breakdown (calrie.py:86). The breakdown is defined for every date.
- Dates are modelled as integer day numbers. Only equality of dates is used.
- The selections are a sequence of (food, grams) pairs in selection order. The page's dictionary cannot hold one food twice, but the model does not forbid it.
