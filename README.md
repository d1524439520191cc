# Personal-finance Telegram bot: ledger, budget, analysis and message handling

This project is a Dafny model of the deterministic core of a personal-finance Telegram bot. The
bot is made of three classes.

- `SpeseManager` keeps the ledger of transactions and checks it against the monthly budget. The
  ledger is a CSV file of rows: date, description, category, amount, kind (`spesa` or `ricavo`)
  and note. The model keeps the rows in memory.
- `SpeseAI` analyses the ledger:
  - the data-sufficiency guards and monthly feature table of the spending forecast;
  - the ±20% band around a prediction;
  - the weekday, trend, top-category and volatility patterns;
  - the budget recommendations;
  - the per-category outlier detection.
- `FinanceBotAI` turns free-text messages into ledger rows. It has three parts:
  - a three-pattern regular-expression parser;
  - a keyword categoriser, with an optional language-model client whose answer is checked
    against a closed vocabulary;
  - a per-user recording mode (`spese`, `ricavi` or normal) that decides whether a message is
    saved, and with which kind.

  It also computes the monthly balance.

How the model represents things:

- **Numbers.** Amounts are `real`. Where numpy or pandas would produce an infinity or a nan from
  a division by zero, the model uses `ExtReal`, and pandas' nan-skipping mean is modelled too.
- **Standard deviation.** The model never takes a square root. `x > mean + t * std` is decided
  on the variance (`Stats.ExceedsBand`), and a lemma ties that test to any square root of the
  variance.
- **Dates.** Dates are calendar values with Python's ordinal and weekday. The current date is a
  parameter.
- **Regular expressions.** They are interpreted by a small backtracking matcher over the
  constructs the three patterns use, with `re.search` semantics: the leftmost start wins, and
  alternatives are tried in priority order.
- **Stateful objects.** Three things change state and are Dafny classes:
  - the ledger, `rows`, a field of `Manager.SpeseManager`;
  - the user-mode map, a field of `FinanceBot.FinanceBotAI`;
  - the fitted forest, a field of `Predictor.SpeseAI`.

  The loops of the source are methods with loop invariants, each proved equal to a specification
  function:
  - `Parsing.ParseTransaction`;
  - `Manager.SpeseManager.CheckBudget`;
  - `Analysis.Recommend`;
  - `Anomalies.DetectAnomalies`.

Behaviours of the code that the lemmas make explicit:

- No total filters on the kind. Income rows count as spending in the budget check, the
  statistics, the patterns, the recommendations and the outlier search.
- In expense mode, messages are categorised with the income keywords. The text handler passes
  the mode name (`spese` or `ricavi`) to the parser as the kind. Only `spesa` selects the
  expense rules, so an expense recorded through the bot always gets one of the six income
  categories, `Altri` by default. `FinanceBot.BotRecordCategory` proves this in general, and
  `CategoryExamples.LunchInExpenseMode` shows `per pranzo` filed as `Altri`.
- A trend of exactly 0, or a nan trend, reads as falling (`Analysis.TwoMonthTrend`).
- With the default threshold of two standard deviations, a category needs at least six rows
  before anything in it can be an outlier (`Anomalies.SmallCategoryHasNone`, from
  `Stats.NoOutlierBelowSix`). Six rows are enough (`Stats.SixValuesCanHoldOutlier`).
- `aggiungi_transazione` stores whatever it is given: no amount, category or date is checked
  (`Manager.SpeseManager.AddTransaction`).

The two copies under `deploy_backup/` hold the same logic, and one model serves both.

- `deploy_backup/ai_predictor.py` is identical to `ai_predictor.py`, line for line.
- `deploy_backup/financebot_final.py` matches `financebot_final.py` with shifted lines:

  | main file lines | backup file lines |
  |---|---|
  | 20-254 | 18-252 |
  | 256-257 | 253-254 |
  | 259-599 | 255-595 |

  In the backup, the parser is at 55-96, the categoriser at 98-160 and the fallback at 162-194.
  The mode commands are at 254, 277 and 305, the balance at 320-357 and the text handler at
  513-594.

## Model

| member | source | states |
|---|---|---|
| Manager.SpeseManager.constructor | spese_manager.py:21-37 | the manager starts from the rows already in the file and the configuration read from it |
| Manager.SpeseManager.SaveRecord | spese_manager.py:159-181 | a successful store appends exactly the record after the unchanged earlier rows; a failing store leaves the ledger as it was and returns false |
| Manager.SpeseManager.AddTransaction | spese_manager.py:100-139 | no field is validated: the row with the given description, category, amount, kind and note, dated today when no date is given, is appended exactly when the store succeeds |
| Manager.SpeseManager.AddExpense | spese_manager.py:141-157 | the same append with the kind fixed to `spesa` |
| Manager.SpeseManager.MonthExpenses | spese_manager.py:183-196 | the rows whose year and month both match, today's year and month when not given |
| Ledger.MonthRows | spese_manager.py:195-196 | the month filter keeps exactly the rows of that year and month, and never more rows than the ledger |
| Ledger.MonthRowsAppend | spese_manager.py:195-196 | after an append the filter keeps the earlier rows as before, plus the new row exactly when it falls in that month |
| Manager.SpeseManager.CategoryTotalsFor | spese_manager.py:202-210 | the keys are exactly the categories of the month's rows, whatever their kind, each mapped to the sum of that category's amounts; an empty month gives an empty map |
| Ledger.CategoryTotals | spese_manager.py:209 | the group-by sum has a key for exactly the categories present, each holding that category's sum |
| Ledger.Categories | ai_predictor.py:271 | the distinct categories, each present category listed once |
| Ledger.CategoryRows | ai_predictor.py:272 | exactly the rows of the category, in ledger order |
| Ledger.TotalsPartition | spese_manager.py:226 | summing the per-category totals gives the total of every row of the month |
| Ledger.SumOverAppend | spese_manager.py:226 | one more row changes the sum over distinct categories by its amount exactly when its category is listed |
| Manager.Percent | spese_manager.py:233 | for a positive limit, the percentage times the limit is 100 times the spending; for a limit of 0 or less it is 0 |
| Manager.LineFor | spese_manager.py:232-240 | a budget line reports its limit, the spending (0 for a category without rows), the remainder and the percentage |
| Manager.LinesSpec | spese_manager.py:231-240 | the report has a line for exactly the budget's categories, each computed from its own budget entry |
| Manager.LinesKeys | spese_manager.py:231-235 | the keys of the report are exactly the budget's categories |
| Manager.LinesValues | spese_manager.py:231-240 | with distinct budget categories, each line comes from that category's entry |
| Manager.AlertsSpec | spese_manager.py:242-245 | an alert is raised, with the line's percentage, for exactly the entries whose percentage reaches the threshold |
| Manager.AlertsBound | spese_manager.py:231-245 | at most one alert per budget entry |
| Manager.BudgetExample | spese_manager.py:231-245 | 90 spent of 100 is 90% and alerts at the default 80%; a limit of 0 reports 0% and a negative remainder without an alert |
| Manager.SpeseManager.CheckBudget | spese_manager.py:212-251 | the loop builds the lines and alerts of every budget entry, with threshold 80 by default; the spending total covers every category of the month, budgeted or not; the savings are budget total minus spending; the target defaults to 0 |
| Manager.SpeseManager.GeneralStats | spese_manager.py:253-282 | the count, total and mean of every row; for a non-empty ledger the first and last dates are the earliest and latest, the top category and top month have the largest totals, ties going to the first in sorted order; both are absent exactly when the ledger is empty |
| Manager.StatisticsSpec | spese_manager.py:262-276 | the statistics of a non-empty ledger hold the earliest and latest dates and the argmax category and month, first among ties |
| Manager.FirstDate | spese_manager.py:263 | the earliest date, which is the date of some row |
| Manager.LastDate | spese_manager.py:264 | the latest date, which is the date of some row |
| Manager.BestCategory | spese_manager.py:274-275 | the chosen category is one of the candidates |
| Manager.BestCategoryIsMax | spese_manager.py:274-275 | no category has a larger total than the chosen one |
| Manager.BestCategoryIsFirst | spese_manager.py:274-275 | every other category with the same total sorts after the chosen one, as in the sorted group-by |
| Manager.MonthKeys | spese_manager.py:278-279 | the (year, month) pairs are exactly those of the rows, and there is one whenever there are rows |
| Manager.MonthTotals | spese_manager.py:279 | the keys are exactly the months of the ledger, each holding its total |
| Manager.BestMonth | spese_manager.py:280 | the chosen month is one of the months |
| Manager.BestMonthIsMax | spese_manager.py:280 | no month has a larger total than the chosen one |
| Manager.BestMonthIsEarliest | spese_manager.py:280 | every other month with the same total is later |
| Predictor.Loaded | ai_predictor.py:34-55 | the prepared table is the ledger when every date is a calendar date between 1677-09-22 and 2262-04-11, and empty otherwise (the exception path) |
| Predictor.CodeOf | ai_predictor.py:49 | a category's code never exceeds the number of categories |
| Predictor.CodeMonotone | ai_predictor.py:49 | a category that sorts before another has a smaller or equal code, strictly smaller when it is present |
| Predictor.CodeBelow | ai_predictor.py:49 | a present category's code is below the number of categories |
| Predictor.CodesAreRanks | ai_predictor.py:49 | the codes are the ranks in sorted order: distinct, order-preserving, all below the number of categories |
| Predictor.ModeOf | ai_predictor.py:73 | the mode is one of the candidates |
| Predictor.ModeIsMostFrequent | ai_predictor.py:73 | no candidate occurs more often than the mode |
| Predictor.ModeIsSmallest | ai_predictor.py:73 | a candidate as frequent as the mode is not smaller than it |
| Predictor.ModeSpec | ai_predictor.py:73 | the monthly code is the smallest most frequent code of the month |
| Predictor.InsertMonth | ai_predictor.py:70 | inserting a month into increasing months keeps them increasing and adds exactly that month |
| Predictor.SortedMonths | ai_predictor.py:70-74 | the group keys are exactly the (year, month) pairs of the rows, in strictly increasing order |
| Predictor.Codes | ai_predictor.py:73 | the category code of every row |
| Predictor.MonthTable | ai_predictor.py:70-74 | one sample per month group |
| Predictor.MonthTableSpec | ai_predictor.py:70-74 | each sample is a month of the ledger with rows, holding that month's total, the mean weekday of its rows and its smallest most frequent code, and the samples are in chronological order |
| Predictor.TestSize | ai_predictor.py:86 | the test part is the ceiling of 30% of the rows |
| Predictor.TrainingGuards | ai_predictor.py:66-111 | training fails with fewer than 10 rows, and then with fewer than 3 months; at 3 months it fits on all 3 with 0 test rows and no metrics; above 3 the two parts are non-empty and make up the table |
| Predictor.SpeseAI.constructor | ai_predictor.py:23-32 | the forest starts unfitted |
| Predictor.SpeseAI.Train | ai_predictor.py:57-111 | the result is the training outcome; a successful training refits the forest on the monthly table, and a refused one leaves it as it was |
| Predictor.SpeseAI.Predict | ai_predictor.py:113-151 | an error value when the forest was never fitted |
| Predictor.PredictionBand | ai_predictor.py:122-148 | the forecast is for the month 30 days ahead, with the features year, month, 3 and 0; its band is 0.8 to 1.2 times the forecast, centred on it |
| Calendar.Weekday | ai_predictor.py:44 | the weekday lies between 0 and 6 |
| Calendar.WeekdayNextDay | ai_predictor.py:44 | from one day to the next the weekday advances by one, modulo 7 |
| Calendar.WeekdayAnchor | ai_predictor.py:44 | 2024-01-01 gets weekday 0 (Monday), as in Python |
| Calendar.NextDay | ai_predictor.py:122 | the next calendar day, one ordinal later, except after 9999-12-31, where Python overflows |
| Calendar.AddDays | ai_predictor.py:122 | the date n days later, n ordinals later, when it exists |
| Common.Div | ai_predictor.py:178 | numpy division: the quotient when the divisor is not zero, otherwise +inf, -inf or nan by the sign of the dividend |
| Analysis.DayRowsSpec | ai_predictor.py:165 | a weekday's rows are exactly the rows dated on that weekday |
| Analysis.DayMeans | ai_predictor.py:165-169 | seven entries, each the weekday's mean, or 0 for a weekday without rows |
| Analysis.BestDay | ai_predictor.py:172 | the chosen weekday has rows; there is none only when no weekday has rows |
| Analysis.BestDayIsBest | ai_predictor.py:172-173 | the chosen weekday has the largest mean of the weekdays with rows, and every earlier weekday with rows has a smaller mean |
| Analysis.SomeDay | ai_predictor.py:172 | a non-empty ledger has a busiest weekday |
| Analysis.MonthlyTotals | ai_predictor.py:176 | the total of each month group, in chronological order |
| Analysis.Changes | ai_predictor.py:178 | one change fewer than there are months, each the numpy quotient of the difference over the previous month |
| Analysis.Trend | ai_predictor.py:177-179 | the trend is present exactly when there are at least two months |
| Analysis.Ratios | ai_predictor.py:178 | with no zero month before the last, one relative change per pair of consecutive months |
| Analysis.TrendOfNonZero | ai_predictor.py:178 | with no zero month before the last, the trend is 100 times the plain mean of the relative changes |
| Analysis.TwoMonthTrend | ai_predictor.py:178-180 | over two months the trend is the percentage change; equal months do not read as rising; from a positive month, rising holds exactly when the second month is higher |
| Analysis.BusiestDay | ai_predictor.py:172-173 | the busiest weekday is a weekday index below 7 |
| Analysis.TopCategory | ai_predictor.py:183-184 | the top category is a category of the ledger |
| Analysis.PatternsOf | ai_predictor.py:153-196 | no analysis exactly for an empty or unloadable ledger; otherwise the busiest day is a weekday |
| Analysis.BusiestDaySpec | ai_predictor.py:164-173 | seven weekday means; the busiest weekday has rows, the largest mean, and no earlier weekday ties it |
| Analysis.TopCategoryIsMax | ai_predictor.py:183-184 | no category totals more than the top category |
| Analysis.TopShareOfTotal | ai_predictor.py:185 | the top share is the top category's total over the ledger's total, times 100 |
| Analysis.VolatilitySpec | ai_predictor.py:191 | the volatility (as its square) is never negative, and a single month has none |
| Analysis.LineAdviceBands | ai_predictor.py:219-228 | above 90% the budget is nearly used up, above 75% it needs attention, below 50% it is under control, between 50% and 75% there is no advice; a limit of 0 or less reads as 0% |
| Analysis.BudgetAdvice | ai_predictor.py:219-228 | at most one recommendation per budget entry |
| Analysis.VolatileBySquare | ai_predictor.py:244 | the variance test agrees with "standard deviation above 100" |
| Analysis.AllAdvice | ai_predictor.py:219-245 | a ledger with rows always produces at least one recommendation (its busiest weekday) |
| Analysis.RecommendationsSpec | ai_predictor.py:198-250 | between one and five recommendations; a single message for an empty ledger; a single error message without a configuration; the budget advice comes first |
| Analysis.AppendPatternAdvice | ai_predictor.py:231-245 | appends the weekday, trend and volatility advice to the list |
| Analysis.Recommend | ai_predictor.py:198-250 | the loop over the budget followed by the pattern advice and the cut to five equals the recommendation function |
| Stats.SampleVarNonNegative | ai_predictor.py:278 | the sample variance is never negative |
| Stats.ExceedsBandSqrt | ai_predictor.py:281-284 | the square-free band test agrees with `d > t * s` for any square root `s` of the variance |
| Stats.Samuelson | ai_predictor.py:277-284 | Samuelson's inequality: n times a value's squared deviation from the mean is at most n - 1 times the sum of squared deviations |
| Stats.NoOutlierInSmallSample | ai_predictor.py:281-284 | when (n-1)^2 <= t^2 n, no value of the sample exceeds mean + t * std |
| Stats.NoOutlierBelowSix | ai_predictor.py:281-284 | with threshold 2, a sample of fewer than six values has no outlier |
| Stats.ConstantNoOutlier | ai_predictor.py:281-284 | a sample of equal values has no outlier, whatever the threshold |
| Stats.SixValuesCanHoldOutlier | ai_predictor.py:281-284 | in 0, 0, 0, 0, 0, 1 the last value is an outlier at threshold 2 |
| Stats.ThreeValuesNoOutlier | ai_predictor.py:274-284 | in 10, 10, 100 the value 100 is not an outlier at threshold 2 |
| Anomalies.OutlierOf | ai_predictor.py:284-294 | every row beyond the band is reported, with the category mean |
| Anomalies.OutlierFrom | ai_predictor.py:284-294 | every reported outlier is a row beyond the band |
| Anomalies.NoOutliers | ai_predictor.py:284 | no row beyond the band means no outlier |
| Anomalies.CategoryAnomalySound | ai_predictor.py:272-294 | each outlier of a category is a row of that category, in a category of at least three rows, beyond the band |
| Anomalies.CategoryAnomalyComplete | ai_predictor.py:272-294 | each row of a category of at least three rows that exceeds mean plus threshold times std is reported, with its difference from the mean |
| Anomalies.CategoryAnomaliesSpec | ai_predictor.py:272-294 | a category's outliers are exactly its rows beyond the band, as anomalies |
| Anomalies.ReportedSnoc | ai_predictor.py:271-294 | an anomaly reported over one more category is one reported over the earlier ones or over that category |
| Anomalies.FlaggedSpec | ai_predictor.py:271-294 | the collected outliers are exactly the rows of the listed categories beyond their bands |
| Anomalies.Insert | ai_predictor.py:297 | an insertion step adds exactly the new element |
| Anomalies.InsertSorted | ai_predictor.py:297 | inserting into a non-increasing sequence keeps it non-increasing |
| Anomalies.InsertStable | ai_predictor.py:297 | each group of equal amounts keeps its order, the new element joining its group last |
| Anomalies.SortDesc | ai_predictor.py:297 | the sort is a permutation |
| Anomalies.SortDescSorted | ai_predictor.py:297 | the sort orders by non-increasing amount |
| Anomalies.SortDescStable | ai_predictor.py:297 | the sort is stable, as Python's sort is also in reverse |
| Anomalies.TakeLargest | ai_predictor.py:299 | the first ten of a sorted sequence are sorted, taken from it, and no element left out is larger than one kept |
| Anomalies.AnomaliesSpec | ai_predictor.py:252-303 | at most ten anomalies, largest first, each a row beyond its category's band; any outlier left out is no larger than every one reported |
| Anomalies.AnomaliesComplete | ai_predictor.py:271-297 | every outlier of the ledger is among the sorted outliers before the cut to ten |
| Anomalies.SmallCategoryHasNone | ai_predictor.py:274-284 | with the default threshold, a category of fewer than six rows has no outlier |
| Anomalies.ConstantCategoryHasNone | ai_predictor.py:277-284 | a category whose amounts are all equal has no outlier |
| Anomalies.DetectAnomalies | ai_predictor.py:252-303 | the loop over categories and rows, then the sort and the cut to ten, equals the anomaly function |
| Text.LStrip | financebot_final.py:66 | only leading whitespace is removed, and the result starts with no whitespace |
| Text.RStrip | financebot_final.py:66 | only trailing whitespace is removed, and the result ends with no whitespace |
| Text.Strip | financebot_final.py:85 | the result has no whitespace at either end |
| Text.StripTrimmed | financebot_final.py:85 | a string with no whitespace at its ends is its own strip |
| Text.StripIdempotent | financebot_final.py:85 | stripping twice is stripping once |
| Text.Lower | financebot_final.py:66 | each character lower-cased, with no upper-case letter left |
| Text.LowerOfLower | financebot_final.py:166 | lower-casing a lower-case string changes nothing |
| Text.RemoveChar | financebot_final.py:75 | the character is gone and nothing new appears |
| Text.ReplaceChar | financebot_final.py:75 | each occurrence of one character replaced by the other, everything else kept |
| Text.DecimalChars | financebot_final.py:76 | a numeral accepted by the amount test starts with a digit and holds only digits and points |
| Text.DecimalValue | financebot_final.py:84 | the value of an accepted numeral is never negative |
| Text.ContainsAt | financebot_final.py:180 | a contained keyword occurs at some position |
| Text.ContainsHere | financebot_final.py:180 | a keyword that occurs at a position is contained |
| Text.Absent | financebot_final.py:180 | a character of the keyword that the string lacks, or a pair of its neighbouring characters that are never neighbours there, proves the keyword is not contained |
| Regex.RunLength | financebot_final.py:60-62 | a repeat consumes characters of its class up to its bound, and stops only at the bound, the end, or a character outside the class |
| Regex.Reaches | financebot_final.py:66 | when a pattern matches, each of its parts consumes only characters it admits, and the rest of the pattern then matches |
| Regex.SearchSkips | financebot_final.py:66 | the search passes over start positions where the pattern does not match |
| Regex.SearchNone | financebot_final.py:66 | the search fails exactly when the pattern matches at no position |
| Regex.SearchFirst | financebot_final.py:66 | a pattern matching at some position is found by the search |
| Parsing.PickAmount | financebot_final.py:73-81 | the first of the two groups whose cleaned text is a numeral is the amount and the other the description; none when neither is |
| Parsing.Conclude | financebot_final.py:83-96 | a record exactly when the cleaned amount text is a numeral, with its value, the stripped description and its category |
| Parsing.ParseTransaction | financebot_final.py:57-98 | the loop over the three patterns, with its early return, equals the parse function |
| Parsing.TryPattern | financebot_final.py:65-96 | one pass of the loop, including the for/else over the groups, equals the attempt function |
| Parsing.CleanDecimal | financebot_final.py:75-84 | a numeral has nothing for the cleaning to remove |
| Parsing.PickedAmountConverts | financebot_final.py:73-84 | the amount picked from a two-group pattern always converts, so the ValueError path is never taken there |
| Parsing.ParseWithShape | financebot_final.py:65-96 | a parsed record has a non-negative amount denoted by a numeral, a stripped description, the requested kind and the categoriser's category |
| Parsing.ConcludeShape | financebot_final.py:83-94 | the same for one successful conversion |
| Parsing.ParseShape | financebot_final.py:57-98 | the same for the whole parser |
| Parsing.ParseWithNone | financebot_final.py:65-98 | no record exactly when no pattern yields one |
| Parsing.ParseWithSkip | financebot_final.py:65-96 | patterns that yield no record are passed over: the parse equals the parse with the later patterns only |
| Parsing.ParseOrder | financebot_final.py:59-98 | the same for the three patterns on the lower-cased, stripped message |
| Categories.FirstMatch | financebot_final.py:179-182 | the result is the default or the category of some rule |
| Categories.FirstMatchRule | financebot_final.py:179-196 | the default when no rule applies; otherwise the category of the first rule whose keywords the description contains |
| Categories.RulesListed | financebot_final.py:169-191 | every keyword rule selects a category of its kind's vocabulary |
| Categories.CategoriesDisjoint | financebot_final.py:150-153 | no category is in both vocabularies |
| Categories.FallbackCategorize | financebot_final.py:164-196 | kind `spesa` gets an expense category; every other kind gets an income category |
| Categories.ValidCategories | financebot_final.py:150-155 | only `spesa` and `ricavo` have a vocabulary; any other kind raises |
| Categories.Categorize | financebot_final.py:100-162 | whatever the client answers or whether it fails, the result is in the vocabulary of its kind (the income one for any kind other than `spesa`) |
| Categories.AnswerAccepted | financebot_final.py:147-158 | the answer is kept exactly when, stripped, it is in the kind's vocabulary |
| Categories.ModeKindsUseIncomeRules | financebot_final.py:184-196 | the kinds `spese` and `ricavi` always get the income keyword rules, with `Altri` as the default |
| Categories.NotMentioned | financebot_final.py:180 | per-keyword absence evidence means no keyword is contained |
| CategoryExamples.CinemaExample | financebot_final.py:168-182 | without a client, `cinema` is a `Svago` expense |
| CategoryExamples.LunchExample | financebot_final.py:168-182 | without a client, `per pranzo` is a `Ristorazione` expense for kind `spesa` |
| CategoryExamples.LunchInExpenseMode | financebot_final.py:184-196 | with the kind `spese` the text handler passes, `per pranzo` is filed under `Altri` |
| ParseExamples.AmountFirstNeedsDigit | financebot_final.py:59 | a match of the first pattern reaches a digit after nothing but a euro sign and whitespace |
| ParseExamples.LunchNoEarlierMatch | financebot_final.py:65 | in `ho speso 12 per pranzo`, the first pattern matches at no position before the space ahead of `12` |
| ParseExamples.LunchMatchAtEight | financebot_final.py:59 | from that space the first pattern matches with groups ` 12` and `per pranzo` |
| ParseExamples.LunchSearch | financebot_final.py:65 | `re.search` with the first pattern finds that match |
| ParseExamples.LunchParse | financebot_final.py:64-98 | `ho speso 12 per pranzo` is caught by the first pattern: amount 12, description `per pranzo`, the kind given and its category |
| ParseExamples.LunchRecords | financebot_final.py:64-98 | with no client the message is `Ristorazione` for kind `spesa` and `Altri` for the `spese` that expense mode passes |
| FinanceBot.RecordKind | financebot_final.py:548 | the saved kind is `spesa` exactly in expense mode, `ricavo` otherwise |
| FinanceBot.UserName | financebot_final.py:520 | the first name when there is one, otherwise `User` |
| FinanceBot.BotRecord | financebot_final.py:537-550 | a row comes out exactly when the parse succeeds |
| FinanceBot.IntendedBotRecord | financebot_final.py:537-550 | the corrected handler row: a row comes out exactly when the message parses with the mode's record kind |
| FinanceBot.ExamplesFor | financebot_final.py:585-589 | three example messages |
| FinanceBot.MonthBalance | financebot_final.py:331-355 | no data exactly for an empty ledger; net is income less expenses; the daily figure is a thirtieth of the expenses; the trend follows the sign of the net |
| FinanceBot.FinanceBotAI.constructor | financebot_final.py:48-55 | no user has a mode yet |
| FinanceBot.FinanceBotAI.ModeOf | financebot_final.py:526 | a user without an entry is in normal mode |
| FinanceBot.FinanceBotAI.SetExpenseMode | financebot_final.py:257 | the caller's mode becomes `spese`, and no other entry changes |
| FinanceBot.FinanceBotAI.SetIncomeMode | financebot_final.py:281 | the caller's mode becomes `ricavi`, and no other entry changes |
| FinanceBot.FinanceBotAI.SetNormalMode | financebot_final.py:309 | the caller's mode becomes none, and no other entry changes |
| FinanceBot.FinanceBotAI.HandleText | financebot_final.py:517-598 | in normal mode a hint and no change; otherwise an unrecognised message gives the mode's examples and no change, and a recognised one is appended with the mode's kind and `Bot - name` exactly when the store succeeds |
| FinanceBot.FinanceBotAI.BalanceAsWritten | financebot_final.py:329 | as written, the balance command always answers with its error message |
| FinanceBot.FinanceBotAI.CurrentBalance | financebot_final.py:324-361 | the balance of the manager's ledger for the current month number |
| FinanceBot.ModeSwitchIsLocal | financebot_final.py:257 | switching one user's mode leaves every other user's mode as it was |
| FinanceBot.RecordKindOfModes | financebot_final.py:548 | expense mode saves `spesa`, income mode saves `ricavo` |
| FinanceBot.BotRecordCategory | financebot_final.py:537-550 | a row recorded in either mode gets an income category from the income keyword rules, today's date, the mode's kind, the `Bot - name` note, a non-negative amount and a stripped description |
| FinanceBot.IntendedRecordCategory | financebot_final.py:537-550 | with the record kind passed to the parser, expense mode gives an expense category and any other mode an income category, with today's date, the mode's kind, the note, a non-negative amount and a stripped description |
| FinanceBot.BalanceIgnoresYear | financebot_final.py:337 | a row of the same month in another year counts exactly like one of this year |
| FinanceBot.BalanceAppend | financebot_final.py:336-341 | a new row of the month adds its amount to the expenses or the income by its kind, and always adds one to the count |
| FinanceBot.NoIncomeShare | financebot_final.py:355 | with no income row the income is 0 and the saved share is not a finite number |

## Left out

- File I/O is not modelled: the CSV read and rewrite, `_init_files`, `_load_config`,
  `backup_data`, and the Telegram, logging and health-server I/O. The ledger is a sequence, and
  the configuration is a constructor parameter. A configuration that fails to load is the `{}`
  the source falls back to: an empty budget with no thresholds.
- The CSV header mismatch is not modelled: the initial header has `nome_spesa` and no `tipo`,
  and the anomaly report reads `nome_spesa`. The model has one description field.
- Date strings and their parsing are left out; dates are values.
  - `Manager.SpeseManager.MonthExpenses` and `Manager.SpeseManager.GeneralStats` do not model
    the exception path that an unparseable date string takes in the source.
  - `SpeseAI`'s analyses do model it, through `Predictor.Loaded`: a date that is not a calendar
    date, or lies outside pandas' nanosecond timestamp range (1677-09-22 to 2262-04-11), empties
    the table. Pandas from 3.0 on accepts dates outside that range; the model follows the
    earlier versions.
- Floating point is not modelled: `real` is exact. Rounding and `:.2f` formatting are left out.
  - `Predictor.TestSize` computes `ceil(0.3 * n)` exactly. Float rounding of `0.3 * n` could
    differ only for table sizes far beyond any ledger.
- Randomness and the scikit-learn internals are left out: the forest's fit and predict, the
  `train_test_split` row choice, MAE and R².
  - The fit-and-score step is the `learner` parameter of `Predictor.SpeseAI.Train`, and the
    fitted forest's `predict` is the `forest` parameter of `Predictor.SpeseAI.Predict`. Only
    the guards, the split sizes, the monthly feature table, the feature row and the band are
    modelled.
  - `Predictor.SpeseAI.Predict` is a function reading the fitted state, since prediction changes
    nothing.
- The language-model call and its prompt are left out. The client is the `Service` value: no
  client, a client that returns some text, or a client whose request fails. Only the validation
  and fallback logic is modelled.
- The reply texts, emoji and Markdown are left out. Replies are datatypes carrying the values
  the texts show.
- Unicode case and digits are not modelled: `Text.Lower` lower-cases ASCII letters only, and
  `\d` matches ASCII digits only. Whitespace follows Python's `str.isspace()`.
- The `analytics.py` charts, the command registration and `main` are left out.
  `check_openai_credit` and `stima_costo_mensile` are not part of this model.
- The analysis operations `analizza_pattern_spesa`, `raccomandazioni_budget` and
  `detecta_anomalie` are modelled as module-level functions and methods over the ledger rows.
  `SpeseAI` holds no state they read, so they are not members of `Predictor.SpeseAI`.
- The parse of `cinema 8.50` (8.5 and `cinema`) is not proved as a lemma: it needs the first
  pattern to fail through every backtracking choice, and then the second pattern's lazy repeat.
  Only its categorisation is proved, in `CategoryExamples.CinemaExample`. The parse of
  `ho speso 12 per pranzo` is proved, in `ParseExamples.LunchParse`.
- Analysis.VolatilitySpec: the volatility is carried as its square, the sample variance, because
  the model takes no square roots. `Analysis.VolatileBySquare` ties the `> 100` test to any
  square root.
- FinanceBot.NoIncomeShare: states only that the saved share is not finite when there is no
  income. Which of nan, +inf or -inf it is follows from `Common.Div` and the sign of the net.
- Analysis.TrendOfNonZero: the closed form is stated for totals with no zero month before the
  last. With a zero month the trend involves infinities, and only `Analysis.Changes` and the
  nan-skipping mean describe it.

## Findings

| source | as written | input that shows it | evidently intended | confidence | as-written member | corrected member |
|---|---|---|---|---|---|---|
| financebot_final.py:329 | `/bilancio` calls `get_dataframe()`, which `SpeseManager` does not define. The `AttributeError` is caught, so the command always answers with its error message. | any ledger, for example one with a single expense row in the current month | the balance of the manager's ledger for the current month: income, expenses, net, count, daily expenses and saved share | high (not executed) | FinanceBot.FinanceBotAI.BalanceAsWritten | FinanceBot.FinanceBotAI.CurrentBalance |
| financebot_final.py:537-540 | The text handler passes the mode name (`spese` or `ricavi`) to the parser as the kind. The categoriser selects the expense rules only for `spesa`, so an expense recorded through the bot always gets an income category, `Altri` by default, although its kind is `spesa`. | `per pranzo` in expense mode, filed as `Altri` (`CategoryExamples.LunchInExpenseMode`) | the message parsed with the kind the row is saved with, so that an expense gets an expense category (`Ristorazione` here) | high (not executed) | FinanceBot.BotRecord | FinanceBot.IntendedBotRecord |
