/** `SpeseAI`'s pattern analysis (weekday means, month-over-month trend, top category and its share,
    monthly mean and volatility) and the budget recommendations built on it. */
module Analysis {
  import opened Common
  import opened Calendar
  import opened Ledger
  import opened Stats
  import opened Manager
  import opened Predictor

  const DayNames: seq<string> := ["Lunedì", "Martedì", "Mercoledì", "Giovedì", "Venerdì", "Sabato", "Domenica"]

  /** The rows that fall on weekday `d` (Monday = 0). */
  function DayRows(rows: seq<Transaction>, d: int): seq<Transaction>
    decreases |rows|
  {
    if rows == [] then []
    else
      var rest := DayRows(rows[..|rows| - 1], d);
      var t := rows[|rows| - 1];
      if Valid(t.date) && Weekday(t.date) == d then rest + [t] else rest
  }

  /** The rows of a weekday are exactly the rows whose date falls on it. */
  lemma {:induction false} DayRowsSpec(rows: seq<Transaction>, d: int, t: Transaction)
    ensures t in DayRows(rows, d) <==> t in rows && Valid(t.date) && Weekday(t.date) == d
    decreases |rows|
  {
    if rows != [] {
      var init := rows[..|rows| - 1];
      DayRowsSpec(init, d, t);
      assert rows == init + [rows[|rows| - 1]];
    }
  }

  /** `spesa_per_giorno.get(d, 0)`: the mean amount of the weekday, 0 for a weekday without rows. */
  function DayMean(rows: seq<Transaction>, d: int): real {
    var r := DayRows(rows, d);
    if r == [] then 0.0 else Mean(Amounts(r))
  }

  /** The seven weekday entries of `spesa_per_giorno`. */
  function DayMeans(rows: seq<Transaction>): (r: seq<real>)
    ensures |r| == 7 && forall d :: 0 <= d < 7 ==> r[d] == DayMean(rows, d)
  {
    seq(7, d requires 0 <= d < 7 => DayMean(rows, d))
  }

  /** `idxmax` over the weekdays below `n` that have rows: the largest mean, the earliest weekday
      among equals. */
  function BestDay(rows: seq<Transaction>, n: nat): (r: Option<nat>)
    ensures r.Some? ==> r.value < n && DayRows(rows, r.value) != []
    ensures r.None? ==> forall d :: 0 <= d < n ==> DayRows(rows, d) == []
  {
    if n == 0 then None
    else
      var b := BestDay(rows, n - 1);
      if DayRows(rows, n - 1) == [] then b
      else if b.None? || DayMean(rows, n - 1) > DayMean(rows, b.value) then Some(n - 1)
      else b
  }

  /** The day chosen has the largest mean of the weekdays with rows, and every earlier weekday
      with rows has a smaller one. */
  lemma {:induction false} BestDayIsBest(rows: seq<Transaction>, n: nat)
    requires BestDay(rows, n).Some?
    ensures forall d :: 0 <= d < n && DayRows(rows, d) != [] ==> DayMean(rows, d) <= DayMean(rows, BestDay(rows, n).value)
    ensures forall d :: 0 <= d < BestDay(rows, n).value && DayRows(rows, d) != [] ==>
      DayMean(rows, d) < DayMean(rows, BestDay(rows, n).value)
  {
    var b := BestDay(rows, n - 1);
    var m := DayMean(rows, n - 1);
    if b.Some? {
      BestDayIsBest(rows, n - 1);
    }
    if DayRows(rows, n - 1) == [] {
      assert BestDay(rows, n) == b;
    } else if b.None? {
      assert BestDay(rows, n) == Some(n - 1);
    } else if m > DayMean(rows, b.value) {
      assert BestDay(rows, n) == Some(n - 1);
    } else {
      assert BestDay(rows, n) == b;
    }
  }

  /** A ledger of valid dates that has rows has a weekday with rows. */
  lemma SomeDay(rows: seq<Transaction>)
    requires rows != [] && DatesValid(rows)
    ensures BestDay(rows, 7).Some?
  {
    var t := rows[0];
    assert t in rows;
    DayRowsSpec(rows, Weekday(t.date), t);
  }

  /** A ledger with rows has a month. */
  lemma MonthsOfNonEmpty(rows: seq<Transaction>)
    requires rows != []
    ensures |SortedMonths(rows)| > 0
  {
    var t := rows[|rows| - 1];
    assert (t.date.year, t.date.month) in SortedMonths(rows);
  }

  /** The totals of the months, in chronological order. */
  function MonthlyTotals(rows: seq<Transaction>): (r: seq<real>)
    ensures |r| == |SortedMonths(rows)|
    ensures forall k :: 0 <= k < |r| ==> r[k] == MonthTotal(rows, SortedMonths(rows)[k])
  {
    var keys := SortedMonths(rows);
    seq(|keys|, k requires 0 <= k < |keys| => MonthTotal(rows, keys[k]))
  }

  /** `pct_change()` without its leading nan: each month's change relative to the month before, a
      float division that gives an infinity or nan after a month with a zero total. */
  function Changes(xs: seq<real>): (r: seq<ExtReal>)
    ensures |r| == if |xs| >= 1 then |xs| - 1 else 0
    ensures forall k :: 0 <= k < |r| ==> r[k] == Div(xs[k + 1] - xs[k], xs[k])
  {
    if |xs| <= 1 then [] else seq(|xs| - 1, k requires 0 <= k < |xs| - 1 => Div(xs[k + 1] - xs[k], xs[k]))
  }

  function FinSum(s: seq<ExtReal>): real
    decreases |s|
  {
    if s == [] then 0.0 else FinSum(s[..|s| - 1]) + (if s[|s| - 1].Fin? then s[|s| - 1].v else 0.0)
  }

  function FinCount(s: seq<ExtReal>): nat
    decreases |s|
  {
    if s == [] then 0 else FinCount(s[..|s| - 1]) + (if s[|s| - 1].Fin? then 1 else 0)
  }

  /** pandas' `mean()`, which skips nan: infinities of both signs give nan, one sign gives that
      infinity, and otherwise the mean of the finite values (nan when there is none). */
  function ExtMean(s: seq<ExtReal>): ExtReal {
    if PosInf in s && NegInf in s then NaN
    else if PosInf in s then PosInf
    else if NegInf in s then NegInf
    else if FinCount(s) == 0 then NaN
    else Fin(FinSum(s) / FinCount(s) as real)
  }

  /** `trend_mensile_percentuale`, present from two months on. */
  function Trend(totals: seq<real>): (r: Option<ExtReal>)
    ensures r.Some? <==> |totals| > 1
  {
    if |totals| > 1 then Some(ScalePos(ExtMean(Changes(totals)), 100.0)) else None
  }

  /** The relative changes of a sequence of totals, none of them zero before the last. */
  function Ratios(xs: seq<real>): (r: seq<real>)
    requires forall k :: 0 <= k < |xs| - 1 ==> xs[k] != 0.0
    ensures |xs| >= 1 ==> |r| == |xs| - 1
  {
    if |xs| <= 1 then [] else seq(|xs| - 1, k requires 0 <= k < |xs| - 1 => (xs[k + 1] - xs[k]) / xs[k])
  }

  lemma {:induction false} FinOnly(s: seq<ExtReal>, r: seq<real>)
    requires |s| == |r| && forall k :: 0 <= k < |s| ==> s[k] == Fin(r[k])
    ensures FinSum(s) == Sum(r) && FinCount(s) == |s|
    decreases |s|
  {
    if s != [] {
      FinOnly(s[..|s| - 1], r[..|r| - 1]);
    }
  }

  /** With no month at zero before the last, the trend is 100 times the plain mean of the
      relative changes. */
  lemma TrendOfNonZero(totals: seq<real>)
    requires |totals| > 1 && forall k :: 0 <= k < |totals| - 1 ==> totals[k] != 0.0
    ensures Trend(totals) == Some(Fin(Mean(Ratios(totals)) * 100.0))
  {
    ChangesAreRatios(totals);
    ExtMeanOfFinite(Changes(totals), Ratios(totals));
  }

  /** With no month at zero before the last, every change is the finite relative change. */
  lemma ChangesAreRatios(totals: seq<real>)
    requires |totals| > 1 && forall k :: 0 <= k < |totals| - 1 ==> totals[k] != 0.0
    ensures |Changes(totals)| == |Ratios(totals)| > 0
    ensures forall k :: 0 <= k < |Changes(totals)| ==> Changes(totals)[k] == Fin(Ratios(totals)[k])
  {
    var c := Changes(totals);
    var q := Ratios(totals);
    forall k | 0 <= k < |c|
      ensures c[k] == Fin(q[k])
    {
      assert totals[k] != 0.0;
    }
  }

  /** The nan-skipping mean of finite values is their plain mean. */
  lemma ExtMeanOfFinite(s: seq<ExtReal>, r: seq<real>)
    requires |s| == |r| > 0 && forall k :: 0 <= k < |s| ==> s[k] == Fin(r[k])
    ensures ExtMean(s) == Fin(Mean(r))
  {
    FinOnly(s, r);
    assert PosInf !in s && NegInf !in s;
  }

  /** `'crescente' if trend > 0 else 'decrescente'`: a trend of exactly 0, nan or minus infinity
      counts as falling. */
  predicate Rising(trend: ExtReal) {
    Positive(trend)
  }

  /** Over two months the trend is the percentage change from the first to the second, so two
      equal months give exactly 0, which the direction calls falling. */
  lemma TwoMonthTrend(x: real, y: real)
    requires x != 0.0
    ensures Trend([x, y]) == Some(Fin((y - x) / x * 100.0))
    ensures x == y ==> !Rising(Trend([x, y]).value)
    ensures x > 0.0 ==> (Rising(Trend([x, y]).value) <==> y > x)
  {
    var xs := [x, y];
    assert Mean(Ratios(xs)) == (y - x) / x by {
      var q := Ratios(xs);
      assert |q| == 1 && q[0] == (y - x) / x;
      assert q == [(y - x) / x];
      SumSingle((y - x) / x);
    }
    TrendOfNonZero(xs);
  }

  /** What `analizza_pattern_spesa` returns; the volatility is carried as its square, the sample
      variance of the monthly totals. */
  datatype Patterns =
    | NoPatternData
    | Patterns(dayMeans: seq<real>, busiestDay: nat, trend: Option<ExtReal>, topCategory: string,
               topShare: ExtReal, monthlyMean: real, volatilitySq: real)

  /** `giorno_piu_costoso`. */
  function BusiestDay(df: seq<Transaction>): (r: nat)
    requires df != [] && DatesValid(df)
    ensures r < 7
  {
    SomeDay(df);
    BestDay(df, 7).value
  }

  /** `categoria_principale`: the category with the largest total, the smallest name among equals. */
  function TopCategory(df: seq<Transaction>): (r: string)
    requires df != []
    ensures r in Categories(df)
  {
    BestCategory(CategoryTotals(df), Categories(df))
  }

  /** `percentuale_categoria_principale`: the top category's total over the sum of the category
      totals, a float division. */
  function TopShare(df: seq<Transaction>): ExtReal
    requires df != []
  {
    var top := TopCategory(df);
    ScalePos(Div(CategoryTotals(df)[top], SumOver(df, Categories(df))), 100.0)
  }

  /** `spesa_media_mensile`. */
  function MonthlyMean(df: seq<Transaction>): real
    requires df != []
  {
    MonthsOfNonEmpty(df);
    Mean(MonthlyTotals(df))
  }

  /** `volatilita` squared: the sample variance of the monthly totals, 0 for a single month. */
  function VolatilitySq(df: seq<Transaction>): real {
    var totals := MonthlyTotals(df);
    if |totals| > 1 then SampleVar(totals) else 0.0
  }

  /** `analizza_pattern_spesa`: no analysis for an empty (or unloadable) ledger. */
  function PatternsOf(rows: seq<Transaction>): (r: Patterns)
    ensures Loaded(rows) == [] <==> r.NoPatternData?
    ensures r.Patterns? ==> r.busiestDay < 7
  {
    var df := Loaded(rows);
    if df == [] then NoPatternData
    else
      Patterns(DayMeans(df), BusiestDay(df), Trend(MonthlyTotals(df)), TopCategory(df),
               TopShare(df), MonthlyMean(df), VolatilitySq(df))
  }

  /** Seven weekday means, 0 where a weekday has no rows; the busiest weekday is one with rows and
      the largest mean, the earliest among equals. */
  lemma BusiestDaySpec(df: seq<Transaction>)
    requires df != [] && DatesValid(df)
    ensures var b := BusiestDay(df);
      DayRows(df, b) != [] &&
      (forall d :: 0 <= d < 7 && DayRows(df, d) == [] ==> DayMean(df, d) == 0.0) &&
      (forall d :: 0 <= d < 7 && DayRows(df, d) != [] ==> DayMean(df, d) <= DayMean(df, b)) &&
      (forall d :: 0 <= d < b && DayRows(df, d) != [] ==> DayMean(df, d) < DayMean(df, b))
  {
    SomeDay(df);
    BestDayIsBest(df, 7);
  }

  /** The top category has the largest total. */
  lemma TopCategoryIsMax(df: seq<Transaction>)
    requires df != []
    ensures var cats := Categories(df);
      forall k :: 0 <= k < |cats| ==> CategorySum(df, cats[k]) <= CategorySum(df, TopCategory(df))
  {
    BestCategoryIsMax(CategoryTotals(df), Categories(df));
  }

  /** The top category's share is of the ledger's total. */
  lemma TopShareOfTotal(df: seq<Transaction>)
    requires df != []
    ensures TopShare(df) == ScalePos(Div(CategorySum(df, TopCategory(df)), Total(df)), 100.0)
  {
    TotalsPartition(df);
  }

  /** The volatility is never negative, and a single month has none. */
  lemma VolatilitySpec(df: seq<Transaction>)
    ensures VolatilitySq(df) >= 0.0
    ensures |SortedMonths(df)| == 1 ==> VolatilitySq(df) == 0.0
  {
    var totals := MonthlyTotals(df);
    if |totals| > 1 {
      SampleVarNonNegative(totals);
    }
  }

  /** One recommendation (the wording and the emoji are not modelled). */
  datatype Advice =
    | NoAdviceData
    | AdviceFailed
    | Exhausted(category: string, percent: real)
    | Caution(category: string, percent: real)
    | UnderControl(category: string, percent: real)
    | SpendsMostOn(day: string)
    | SpendingRising
    | SpendingFalling
    | Volatile

  /** The recommendation for one budget line, if any. */
  function LineAdvice(b: BudgetLine, spent: map<string, real>): seq<Advice> {
    var p := Percent(SpentOn(spent, b.category), b.limit);
    if p > 90.0 then [Exhausted(b.category, p)]
    else if p > 75.0 then [Caution(b.category, p)]
    else if p < 50.0 then [UnderControl(b.category, p)]
    else []
  }

  /** Above 90% the budget is nearly used up, above 75% it needs attention, below 50% it is under
      control, and from 50% to 75% nothing is said; a limit of 0 or less counts as 0%. */
  lemma LineAdviceBands(b: BudgetLine, spent: map<string, real>)
    ensures var p := Percent(SpentOn(spent, b.category), b.limit);
      (LineAdvice(b, spent) == [Exhausted(b.category, p)] <==> p > 90.0) &&
      (LineAdvice(b, spent) == [Caution(b.category, p)] <==> 75.0 < p <= 90.0) &&
      (LineAdvice(b, spent) == [UnderControl(b.category, p)] <==> p < 50.0) &&
      (LineAdvice(b, spent) == [] <==> 50.0 <= p <= 75.0)
    ensures b.limit <= 0.0 ==> LineAdvice(b, spent) == [UnderControl(b.category, 0.0)]
  {
  }

  /** The budget recommendations, in budget order. */
  function BudgetAdvice(budget: seq<BudgetLine>, spent: map<string, real>): (r: seq<Advice>)
    ensures |r| <= |budget|
    decreases |budget|
  {
    if budget == [] then []
    else BudgetAdvice(budget[..|budget| - 1], spent) + LineAdvice(budget[|budget| - 1], spent)
  }

  /** `pattern['volatilita'] > 100`, decided on the variance. */
  predicate VeryVolatile(volatilitySq: real) {
    volatilitySq > 10000.0
  }

  /** The variance test agrees with the test on the standard deviation. */
  lemma VolatileBySquare(volatilitySq: real, std: real)
    requires std >= 0.0 && std * std == volatilitySq
    ensures VeryVolatile(volatilitySq) <==> std > 100.0
  {
    SquareMonotone(100.0, std);
  }

  /** The recommendations drawn from the pattern analysis: the busiest weekday, the direction of
      the trend when there is one, and a warning about volatility. */
  function PatternAdvice(p: Patterns): seq<Advice>
    requires p.Patterns? && p.busiestDay < 7
  {
    [SpendsMostOn(DayNames[p.busiestDay])] +
    (if p.trend.None? then [] else if Rising(p.trend.value) then [SpendingRising] else [SpendingFalling]) +
    (if VeryVolatile(p.volatilitySq) then [Volatile] else [])
  }

  /** The spending per category in `today`'s month, of every kind. */
  function MonthSpending(df: seq<Transaction>, today: Date): map<string, real> {
    CategoryTotals(MonthRows(df, today.year, today.month))
  }

  /** Every recommendation for a ledger with rows, before the first five are kept: the budget's
      first, in budget order, then those of the pattern analysis. */
  function AllAdvice(rows: seq<Transaction>, budget: seq<BudgetLine>, today: Date): (r: seq<Advice>)
    requires Loaded(rows) != []
    ensures |r| >= 1
  {
    BudgetAdvice(budget, MonthSpending(Loaded(rows), today)) + PatternAdvice(PatternsOf(rows))
  }

  /** `raccomandazioni_budget`: one message for an empty ledger, the error message when the
      configuration cannot be read, and otherwise the first five of all the recommendations. */
  function Recommendations(rows: seq<Transaction>, config: Option<Config>, today: Date): seq<Advice> {
    if Loaded(rows) == [] then [NoAdviceData]
    else if config.None? then [AdviceFailed]
    else Take(AllAdvice(rows, config.value.budget, today), 5)
  }

  /** At most five recommendations; a single message when there is no data or no configuration;
      with both, the budget's own come first, in budget order. */
  lemma RecommendationsSpec(rows: seq<Transaction>, config: Option<Config>, today: Date)
    ensures 1 <= |Recommendations(rows, config, today)| <= 5
    ensures Loaded(rows) == [] ==> Recommendations(rows, config, today) == [NoAdviceData]
    ensures Loaded(rows) != [] && config.None? ==> Recommendations(rows, config, today) == [AdviceFailed]
    ensures Loaded(rows) != [] && config.Some? ==>
      var advice := BudgetAdvice(config.value.budget, MonthSpending(Loaded(rows), today));
      |advice| <= 5 ==> Recommendations(rows, config, today)[..|advice|] == advice
  {
    if Loaded(rows) != [] && config.Some? {
      var advice := BudgetAdvice(config.value.budget, MonthSpending(Loaded(rows), today));
      TakePrefix(advice, PatternAdvice(PatternsOf(rows)), 5);
    }
  }

  lemma TakePrefix<T>(a: seq<T>, b: seq<T>, n: nat)
    requires b != [] && n >= 1
    ensures 1 <= |Take(a + b, n)| <= n
    ensures |a| <= n ==> Take(a + b, n)[..|a|] == a
  {
  }

  /** The pattern recommendations of `raccomandazioni_budget`, appended one by one. */
  method AppendPatternAdvice(advice: seq<Advice>, p: Patterns) returns (r: seq<Advice>)
    requires p.Patterns? && p.busiestDay < 7
    ensures r == advice + PatternAdvice(p)
  {
    r := advice + [SpendsMostOn(DayNames[p.busiestDay])];
    if p.trend.Some? {
      if Rising(p.trend.value) {
        r := r + [SpendingRising];
      } else {
        r := r + [SpendingFalling];
      }
    }
    if VeryVolatile(p.volatilitySq) {
      r := r + [Volatile];
    }
  }

  /** `raccomandazioni_budget` as it runs: a loop over the budget appending to the list. */
  method Recommend(rows: seq<Transaction>, config: Option<Config>, today: Date) returns (r: seq<Advice>)
    ensures r == Recommendations(rows, config, today)
  {
    var df := Loaded(rows);
    if df == [] {
      return [NoAdviceData];
    }
    if config.None? {
      return [AdviceFailed];
    }
    var budget := config.value.budget;
    var spent := MonthSpending(df, today);
    var advice: seq<Advice> := [];
    for i := 0 to |budget|
      invariant advice == BudgetAdvice(budget[..i], spent)
    {
      assert budget[..i + 1][..i] == budget[..i];
      var b := budget[i];
      var p := Percent(SpentOn(spent, b.category), b.limit);
      if p > 90.0 {
        advice := advice + [Exhausted(b.category, p)];
      } else if p > 75.0 {
        advice := advice + [Caution(b.category, p)];
      } else if p < 50.0 {
        advice := advice + [UnderControl(b.category, p)];
      }
    }
    assert budget[..|budget|] == budget;
    advice := AppendPatternAdvice(advice, PatternsOf(rows));
    r := Take(advice, 5);
  }
}
