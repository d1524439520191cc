/** `SpeseManager`: the ledger of transactions and the budget configuration, the append of a new
    record, the month filter, the per-category totals, the budget check and the general
    statistics. */
module Manager {
  import opened Common
  import opened Calendar
  import opened Ledger

  /** One entry of `budget_mensile`: a category and its monthly limit. */
  datatype BudgetLine = BudgetLine(category: string, limit: real)

  /** The configuration: the monthly budget in file order, and the two entries of `obiettivi` that
      are read, each of which may be missing from the file. */
  datatype Config = Config(budget: seq<BudgetLine>, alertThreshold: Option<real>, savingsTarget: Option<real>)

  /** A JSON object has no repeated key. */
  predicate DistinctCategories(budget: seq<BudgetLine>) {
    forall i, j :: 0 <= i < j < |budget| ==> budget[i].category != budget[j].category
  }

  /** The configuration written when there is no configuration file (`entrate_mensili`, which no
      operation reads, is not kept). */
  const DefaultConfig: Config := Config([
    BudgetLine("Trasporti", 200.0), BudgetLine("Alimentari", 400.0), BudgetLine("Ristorazione", 150.0),
    BudgetLine("Casa", 800.0), BudgetLine("Salute", 100.0), BudgetLine("Svago", 200.0),
    BudgetLine("Abbigliamento", 100.0), BudgetLine("Varie", 150.0)
  ], Some(80.0), Some(500.0))

  /** The alert threshold, 80 when the configuration does not give one. */
  function Threshold(c: Config): real {
    c.alertThreshold.GetOr(80.0)
  }

  /** `speso / budget * 100` for a positive limit, and 0 otherwise. */
  function Percent(spent: real, limit: real): (r: real)
    ensures limit > 0.0 ==> r * limit == spent * 100.0
    ensures limit <= 0.0 ==> r == 0.0
  {
    if limit > 0.0 then spent / limit * 100.0 else 0.0
  }

  /** The report of one budget line. */
  datatype LineReport = LineReport(limit: real, spent: real, remaining: real, percent: real)

  /** An alert: the category and its percentage (the message text is not modelled). */
  datatype Alert = Alert(category: string, percent: real)

  /** The result of `verifica_budget`. */
  datatype BudgetReport = BudgetReport(
    period: (int, int), lines: map<string, LineReport>, totalBudget: real, totalSpent: real,
    alerts: seq<Alert>, realSavings: real, savingsTarget: real)

  /** `totali_categoria.get(categoria, 0)`. */
  function SpentOn(totals: map<string, real>, c: string): real {
    if c in totals then totals[c] else 0.0
  }

  function LineFor(totals: map<string, real>, b: BudgetLine): (r: LineReport)
    ensures r.limit == b.limit && r.spent == SpentOn(totals, b.category)
    ensures r.remaining == b.limit - r.spent && r.percent == Percent(r.spent, b.limit)
  {
    var spent := SpentOn(totals, b.category);
    LineReport(b.limit, spent, b.limit - spent, Percent(spent, b.limit))
  }

  /** The `categorie` entry of the report after the lines of `budget` have been processed. */
  function Lines(budget: seq<BudgetLine>, totals: map<string, real>): map<string, LineReport>
    decreases |budget|
  {
    if budget == [] then map[]
    else
      var b := budget[|budget| - 1];
      Lines(budget[..|budget| - 1], totals)[b.category := LineFor(totals, b)]
  }

  /** The alert list after the lines of `budget` have been processed. */
  function Alerts(budget: seq<BudgetLine>, totals: map<string, real>, threshold: real): seq<Alert>
    decreases |budget|
  {
    if budget == [] then []
    else
      var b := budget[|budget| - 1];
      var p := Percent(SpentOn(totals, b.category), b.limit);
      Alerts(budget[..|budget| - 1], totals, threshold) + (if p >= threshold then [Alert(b.category, p)] else [])
  }

  lemma LinesStep(budget: seq<BudgetLine>, i: nat, totals: map<string, real>)
    requires i < |budget|
    ensures Lines(budget[..i + 1], totals) == Lines(budget[..i], totals)[budget[i].category := LineFor(totals, budget[i])]
  {
    assert budget[..i + 1][..i] == budget[..i];
  }

  lemma AlertsStep(budget: seq<BudgetLine>, i: nat, totals: map<string, real>, threshold: real)
    requires i < |budget|
    ensures var p := Percent(SpentOn(totals, budget[i].category), budget[i].limit);
      Alerts(budget[..i + 1], totals, threshold) ==
      Alerts(budget[..i], totals, threshold) + (if p >= threshold then [Alert(budget[i].category, p)] else [])
  {
    assert budget[..i + 1][..i] == budget[..i];
  }

  /** The report has a line for exactly the categories of the budget, and, the categories being
      distinct, the line of each is computed from that category's limit and spending. */
  lemma LinesSpec(budget: seq<BudgetLine>, totals: map<string, real>)
    requires DistinctCategories(budget)
    ensures forall c :: c in Lines(budget, totals) <==> exists k :: 0 <= k < |budget| && budget[k].category == c
    ensures forall k :: 0 <= k < |budget| ==> Lines(budget, totals)[budget[k].category] == LineFor(totals, budget[k])
  {
    LinesKeys(budget, totals);
    LinesValues(budget, totals);
  }

  /** The report has a line for exactly the categories of the budget. */
  lemma {:induction false} LinesKeys(budget: seq<BudgetLine>, totals: map<string, real>)
    ensures forall c :: c in Lines(budget, totals) <==> exists k :: 0 <= k < |budget| && budget[k].category == c
    decreases |budget|
  {
    if budget != [] {
      var n := |budget| - 1;
      var init := budget[..n];
      assert forall k :: 0 <= k < n ==> init[k] == budget[k];
      LinesKeys(init, totals);
      forall c | c in Lines(budget, totals) ensures exists k :: 0 <= k < |budget| && budget[k].category == c {
        if c != budget[n].category {
          assert c in Lines(init, totals);
          var k :| 0 <= k < n && init[k].category == c;
          assert budget[k].category == c;
        }
      }
    }
  }

  /** With distinct categories, each category's line is computed from its own budget entry. */
  lemma {:induction false} LinesValues(budget: seq<BudgetLine>, totals: map<string, real>)
    requires DistinctCategories(budget)
    ensures forall k :: 0 <= k < |budget| ==> budget[k].category in Lines(budget, totals)
    ensures forall k :: 0 <= k < |budget| ==> Lines(budget, totals)[budget[k].category] == LineFor(totals, budget[k])
    decreases |budget|
  {
    if budget != [] {
      var n := |budget| - 1;
      var init := budget[..n];
      var b := budget[n];
      assert forall k :: 0 <= k < n ==> init[k] == budget[k];
      LinesValues(init, totals);
      forall k | 0 <= k < n
        ensures budget[k].category in Lines(budget, totals)
        ensures Lines(budget, totals)[budget[k].category] == LineFor(totals, budget[k])
      {
        assert budget[k].category != b.category;
        assert Lines(budget, totals)[budget[k].category] == Lines(init, totals)[init[k].category];
      }
    }
  }

  /** An alert is raised, with the line's percentage, for exactly the budget entries whose
      percentage reaches the threshold. */
  lemma {:induction false} AlertsSpec(budget: seq<BudgetLine>, totals: map<string, real>, threshold: real)
    ensures forall a :: a in Alerts(budget, totals, threshold) <==>
      exists k :: (0 <= k < |budget| && a == Alert(budget[k].category, LineFor(totals, budget[k]).percent) &&
        LineFor(totals, budget[k]).percent >= threshold)
    decreases |budget|
  {
    if budget != [] {
      var n := |budget| - 1;
      var init := budget[..n];
      assert forall k :: 0 <= k < n ==> init[k] == budget[k];
      AlertsSpec(init, totals, threshold);
      forall a | a in Alerts(budget, totals, threshold)
        ensures exists k :: (0 <= k < |budget| && a == Alert(budget[k].category, LineFor(totals, budget[k]).percent) &&
          LineFor(totals, budget[k]).percent >= threshold)
      {
        if a !in Alerts(init, totals, threshold) {
          assert a == Alert(budget[n].category, LineFor(totals, budget[n]).percent);
        }
      }
    }
  }

  /** There is at most one alert per budget entry. */
  lemma {:induction false} AlertsBound(budget: seq<BudgetLine>, totals: map<string, real>, threshold: real)
    ensures |Alerts(budget, totals, threshold)| <= |budget|
    decreases |budget|
  {
    if budget != [] {
      AlertsBound(budget[..|budget| - 1], totals, threshold);
    }
  }

  /** 90 spent against a limit of 100 is at 90%, which reaches the default threshold of 80; a
      category with a limit of 0 is at 0% whatever was spent. */
  lemma BudgetExample()
    ensures var budget := [BudgetLine("Svago", 100.0), BudgetLine("Varie", 0.0)];
      var totals := map["Svago" := 90.0, "Varie" := 35.0];
      Lines(budget, totals) == map["Svago" := LineReport(100.0, 90.0, 10.0, 90.0), "Varie" := LineReport(0.0, 35.0, -35.0, 0.0)] &&
      Alerts(budget, totals, 80.0) == [Alert("Svago", 90.0)]
  {
    var budget := [BudgetLine("Svago", 100.0), BudgetLine("Varie", 0.0)];
    assert budget[..1] == [BudgetLine("Svago", 100.0)];
    assert budget[..1][..0] == [];
  }

  /** `sum(budget_mensile.values())`. */
  function BudgetTotal(budget: seq<BudgetLine>): real
    decreases |budget|
  {
    if budget == [] then 0.0 else BudgetTotal(budget[..|budget| - 1]) + budget[|budget| - 1].limit
  }

  /** `f"{anno or now.year}-{mese or now.month:02d}"`: a year or month of 0 shows as today's. */
  function Label(year: Option<int>, month: Option<int>, today: Date): (int, int) {
    (if year.None? || year.value == 0 then today.year else year.value,
     if month.None? || month.value == 0 then today.month else month.value)
  }

  /** The result of `get_statistiche_generali`. */
  datatype Stats = Stats(
    count: nat, first: Option<Date>, last: Option<Date>, total: real, mean: ExtReal,
    topCategory: Option<string>, topMonth: Option<(int, int)>)

  class SpeseManager {
    /** The rows of the CSV file, in file order. */
    var rows: seq<Transaction>
    var config: Config

    predicate Valid()
      reads this
    {
      DistinctCategories(config.budget)
    }

    /** A manager over the rows already in the file and the configuration read from it. */
    constructor (initial: seq<Transaction>, cfg: Config)
      requires DistinctCategories(cfg.budget)
      ensures Valid() && rows == initial && config == cfg
    {
      rows := initial;
      config := cfg;
    }

    /** `_salva_record`: the file is read, the record appended and the file rewritten; `storeOk` is
        false when the file operations raise, and the ledger is then as it was. */
    method SaveRecord(record: Transaction, storeOk: bool) returns (ok: bool)
      modifies this
      ensures ok == storeOk
      ensures rows == if storeOk then old(rows) + [record] else old(rows)
      ensures config == old(config)
    {
      if !storeOk {
        return false;
      }
      rows := rows + [record];
      return true;
    }

    /** `aggiungi_transazione`: no field is checked; a missing date is today's. */
    method AddTransaction(description: string, category: string, amount: real, kind: string, note: string,
                          date: Option<Date>, today: Date, storeOk: bool) returns (ok: bool)
      modifies this
      ensures ok == storeOk
      ensures rows == if ok then old(rows) + [Transaction(date.GetOr(today), description, category, amount, kind, note)]
                      else old(rows)
      ensures config == old(config)
    {
      var d := if date.None? then today else date.value;
      var record := Transaction(d, description, category, amount, kind, note);
      ok := SaveRecord(record, storeOk);
    }

    /** `aggiungi_spesa`: the same with the kind `spesa`. */
    method AddExpense(description: string, category: string, amount: real, note: string,
                      date: Option<Date>, today: Date, storeOk: bool) returns (ok: bool)
      modifies this
      ensures ok == storeOk
      ensures rows == if ok then old(rows) + [Transaction(date.GetOr(today), description, category, amount, ExpenseKind, note)]
                      else old(rows)
      ensures config == old(config)
    {
      ok := AddTransaction(description, category, amount, ExpenseKind, note, date, today, storeOk);
    }

    /** `get_spese_mese(anno, mese)`: the rows of that year and month, today's when not given. */
    function MonthExpenses(year: Option<int>, month: Option<int>, today: Date): (r: seq<Transaction>)
      reads this
      ensures forall t :: t in r <==> t in rows && t.date.year == year.GetOr(today.year) && t.date.month == month.GetOr(today.month)
    {
      MonthRows(rows, year.GetOr(today.year), month.GetOr(today.month))
    }

    /** `get_totale_per_categoria(anno, mese)`: `{}` for a month with no rows, otherwise the
        per-category sums of the month's rows of every kind. */
    function CategoryTotalsFor(year: Option<int>, month: Option<int>, today: Date): (r: map<string, real>)
      reads this
      ensures forall c :: c in r <==> exists t :: t in MonthExpenses(year, month, today) && t.category == c
      ensures forall c :: c in r ==> r[c] == CategorySum(MonthExpenses(year, month, today), c)
    {
      var df := MonthExpenses(year, month, today);
      if df == [] then map[] else CategoryTotals(df)
    }

    /** `verifica_budget(anno, mese)`: one line per budget entry, in file order, with an alert for
        each entry whose percentage reaches the threshold. */
    method CheckBudget(year: Option<int>, month: Option<int>, today: Date) returns (r: BudgetReport)
      ensures var totals := CategoryTotalsFor(year, month, today);
        r.lines == Lines(config.budget, totals) &&
        r.alerts == Alerts(config.budget, totals, Threshold(config))
      ensures r.period == Label(year, month, today)
      ensures r.totalBudget == BudgetTotal(config.budget)
      ensures r.totalSpent == Total(MonthExpenses(year, month, today))
      ensures r.realSavings == r.totalBudget - r.totalSpent
      ensures r.savingsTarget == config.savingsTarget.GetOr(0.0)
    {
      var totals := CategoryTotalsFor(year, month, today);
      var df := MonthExpenses(year, month, today);
      var spentTotal := SumOver(df, Categories(df));
      var budget := config.budget;
      var lines: map<string, LineReport> := map[];
      var alerts: seq<Alert> := [];
      var threshold := if config.alertThreshold.Some? then config.alertThreshold.value else 80.0;
      for i := 0 to |budget|
        invariant lines == Lines(budget[..i], totals)
        invariant alerts == Alerts(budget[..i], totals, threshold)
      {
        var b := budget[i];
        var spent := SpentOn(totals, b.category);
        var percent := Percent(spent, b.limit);
        LinesStep(budget, i, totals);
        AlertsStep(budget, i, totals, threshold);
        var line := LineReport(b.limit, spent, b.limit - spent, percent);
        assert line == LineFor(totals, b);
        lines := lines[b.category := line];
        if percent >= threshold {
          alerts := alerts + [Alert(b.category, percent)];
        }
      }
      assert budget[..|budget|] == budget;
      TotalsPartition(df);
      var totalBudget := BudgetTotal(budget);
      r := BudgetReport(Label(year, month, today), lines, totalBudget, spentTotal, alerts,
                        totalBudget - spentTotal, config.savingsTarget.GetOr(0.0));
    }

    /** `get_statistiche_generali()`. */
    function GeneralStats(): (s: Stats)
      reads this
      ensures s.count == |rows| && s.total == Total(rows)
      ensures rows == [] <==> s.topCategory.None?
      ensures rows == [] <==> s.topMonth.None?
      ensures s.mean == Div(Total(rows), |rows| as real)
      ensures rows != [] ==> StatsDescribe(rows, s)
    {
      StatisticsSpec(rows);
      Statistics(rows)
    }
  }

  /** The general statistics of a ledger: the count, the first and last dates, the sum and mean of
      every amount whatever its kind, the category with the largest total (the first in sorted order
      among equals, as `groupby` sorts its keys) and likewise the month. */
  function Statistics(rows: seq<Transaction>): Stats {
    Stats(|rows|,
      if rows == [] then None else Some(FirstDate(rows)),
      if rows == [] then None else Some(LastDate(rows)),
      Total(rows),
      Div(Total(rows), |rows| as real),
      if rows == [] then None else Some(BestCategory(CategoryTotals(rows), Categories(rows))),
      if rows == [] then None else Some(BestMonth(MonthTotals(rows), MonthKeys(rows))))
  }

  /** What the statistics of a non-empty ledger mean: the first and last dates are the earliest and
      latest of the rows, the top category has the largest total (the first in sorted order among
      equals) and the top month likewise (the earliest among equals). */
  predicate StatsDescribe(rows: seq<Transaction>, s: Stats) {
    s.first.Some? && s.last.Some? && s.topCategory.Some? && s.topMonth.Some? &&
    (exists k :: 0 <= k < |rows| && rows[k].date == s.first.value) &&
    (forall k :: 0 <= k < |rows| ==> NotAfter(s.first.value, rows[k].date)) &&
    (exists k :: 0 <= k < |rows| && rows[k].date == s.last.value) &&
    (forall k :: 0 <= k < |rows| ==> NotAfter(rows[k].date, s.last.value)) &&
    s.topCategory.value in CategoryTotals(rows) &&
    (forall c :: c in CategoryTotals(rows) ==> CategoryTotals(rows)[c] <= CategoryTotals(rows)[s.topCategory.value]) &&
    (forall c :: (c in CategoryTotals(rows) && c != s.topCategory.value &&
      CategoryTotals(rows)[c] == CategoryTotals(rows)[s.topCategory.value]) ==> LexLess(s.topCategory.value, c)) &&
    s.topMonth.value in MonthTotals(rows) &&
    (forall ym :: ym in MonthTotals(rows) ==> MonthTotals(rows)[ym] <= MonthTotals(rows)[s.topMonth.value]) &&
    (forall ym :: (ym in MonthTotals(rows) && ym != s.topMonth.value &&
      MonthTotals(rows)[ym] == MonthTotals(rows)[s.topMonth.value]) ==> MonthBefore(s.topMonth.value, ym))
  }

  /** The statistics of a non-empty ledger are the extremes and the argmaxes that
      `StatsDescribe` states. */
  lemma StatisticsSpec(rows: seq<Transaction>)
    ensures rows != [] ==> StatsDescribe(rows, Statistics(rows))
  {
    if rows != [] {
      var totals, cats := CategoryTotals(rows), Categories(rows);
      BestCategoryIsMax(totals, cats);
      BestCategoryIsFirst(totals, cats);
      var mt, months := MonthTotals(rows), MonthKeys(rows);
      BestMonthIsMax(mt, months);
      BestMonthIsEarliest(mt, months);
      var s := Statistics(rows);
      forall c | c in totals ensures totals[c] <= totals[s.topCategory.value] {
        var k :| 0 <= k < |cats| && cats[k] == c;
      }
      forall c | c in totals && c != s.topCategory.value && totals[c] == totals[s.topCategory.value]
        ensures LexLess(s.topCategory.value, c)
      {
        var k :| 0 <= k < |cats| && cats[k] == c;
      }
      forall ym | ym in mt ensures mt[ym] <= mt[s.topMonth.value] {
        var k :| 0 <= k < |months| && months[k] == ym;
      }
      forall ym | ym in mt && ym != s.topMonth.value && mt[ym] == mt[s.topMonth.value]
        ensures MonthBefore(s.topMonth.value, ym)
      {
        var k :| 0 <= k < |months| && months[k] == ym;
      }
    }
  }

  /** `a <= b` on dates. */
  predicate NotAfter(a: Date, b: Date) {
    !Before(b, a)
  }

  /** `df['data'].min()`. */
  function FirstDate(rows: seq<Transaction>): (r: Date)
    requires rows != []
    ensures exists k :: 0 <= k < |rows| && rows[k].date == r
    ensures forall k :: 0 <= k < |rows| ==> NotAfter(r, rows[k].date)
    decreases |rows|
  {
    if |rows| == 1 then rows[0].date
    else
      var d := FirstDate(rows[..|rows| - 1]);
      var e := rows[|rows| - 1].date;
      assert forall k :: 0 <= k < |rows| - 1 ==> rows[k] == rows[..|rows| - 1][k];
      if Before(e, d) then e else d
  }

  /** `df['data'].max()`. */
  function LastDate(rows: seq<Transaction>): (r: Date)
    requires rows != []
    ensures exists k :: 0 <= k < |rows| && rows[k].date == r
    ensures forall k :: 0 <= k < |rows| ==> NotAfter(rows[k].date, r)
    decreases |rows|
  {
    if |rows| == 1 then rows[0].date
    else
      var d := LastDate(rows[..|rows| - 1]);
      var e := rows[|rows| - 1].date;
      assert forall k :: 0 <= k < |rows| - 1 ==> rows[k] == rows[..|rows| - 1][k];
      if Before(d, e) then e else d
  }

  /** `idxmax` over the category totals: the largest total, ties going to the category that sorts
      first. */
  function BestCategory(totals: map<string, real>, cats: seq<string>): (r: string)
    requires cats != [] && forall k :: 0 <= k < |cats| ==> cats[k] in totals
    ensures r in cats
    decreases |cats|
  {
    if |cats| == 1 then cats[0]
    else
      var b := BestCategory(totals, cats[..|cats| - 1]);
      var c := cats[|cats| - 1];
      if totals[c] > totals[b] || (totals[c] == totals[b] && LexLess(c, b)) then c else b
  }

  /** The category chosen has the largest total. */
  lemma {:induction false} BestCategoryIsMax(totals: map<string, real>, cats: seq<string>)
    requires cats != [] && forall k :: 0 <= k < |cats| ==> cats[k] in totals
    ensures forall k :: 0 <= k < |cats| ==> totals[cats[k]] <= totals[BestCategory(totals, cats)]
    decreases |cats|
  {
    if |cats| > 1 {
      var init := cats[..|cats| - 1];
      BestCategoryIsMax(totals, init);
      assert forall k :: 0 <= k < |init| ==> cats[k] == init[k];
    }
  }

  /** Every other category with the same total as the chosen one sorts after it. */
  lemma {:induction false} BestCategoryIsFirst(totals: map<string, real>, cats: seq<string>)
    requires cats != [] && forall k :: 0 <= k < |cats| ==> cats[k] in totals
    ensures forall k :: (0 <= k < |cats| && cats[k] != BestCategory(totals, cats) &&
      totals[cats[k]] == totals[BestCategory(totals, cats)]) ==> LexLess(BestCategory(totals, cats), cats[k])
    decreases |cats|
  {
    if |cats| > 1 {
      var init := cats[..|cats| - 1];
      assert forall k :: 0 <= k < |init| ==> cats[k] == init[k];
      BestCategoryIsMax(totals, init);
      BestCategoryIsFirst(totals, init);
      var b := BestCategory(totals, init);
      var c := cats[|cats| - 1];
      var best := BestCategory(totals, cats);
      forall k | 0 <= k < |cats| && cats[k] != best && totals[cats[k]] == totals[best]
        ensures LexLess(best, cats[k])
      {
        if best == b {
          if k == |cats| - 1 {
            LexLessTotal(c, b);
          }
        } else if cats[k] != b {
          assert totals[init[k]] <= totals[b];
          LexLessTransitive(c, b, init[k]);
        }
      }
    }
  }

  /** The distinct (year, month) pairs of the ledger, in order of first appearance. */
  function MonthKeys(rows: seq<Transaction>): (r: seq<(int, int)>)
    ensures forall ym :: ym in r <==> exists t :: t in rows && (t.date.year, t.date.month) == ym
    ensures rows != [] ==> r != []
    decreases |rows|
  {
    if rows == [] then []
    else
      var rest := MonthKeys(rows[..|rows| - 1]);
      var t := rows[|rows| - 1];
      assert rows == rows[..|rows| - 1] + [t];
      if (t.date.year, t.date.month) in rest then rest else rest + [(t.date.year, t.date.month)]
  }

  /** The sum of the amounts of one month. */
  function MonthTotal(rows: seq<Transaction>, ym: (int, int)): real {
    Total(MonthRows(rows, ym.0, ym.1))
  }

  /** Chronological order of months. */
  predicate MonthBefore(a: (int, int), b: (int, int)) {
    a.0 < b.0 || (a.0 == b.0 && a.1 < b.1)
  }

  /** The per-month totals, keyed by (year, month). */
  function MonthTotals(rows: seq<Transaction>): (r: map<(int, int), real>)
    ensures forall ym :: ym in r <==> ym in MonthKeys(rows)
    ensures forall ym :: ym in r ==> r[ym] == MonthTotal(rows, ym)
  {
    map ym | ym in MonthKeys(rows) :: MonthTotal(rows, ym)
  }

  /** `idxmax` over the monthly totals: the largest total, ties going to the earliest month. */
  function BestMonth(totals: map<(int, int), real>, months: seq<(int, int)>): (r: (int, int))
    requires months != [] && forall k :: 0 <= k < |months| ==> months[k] in totals
    ensures r in months
    decreases |months|
  {
    if |months| == 1 then months[0]
    else
      var b := BestMonth(totals, months[..|months| - 1]);
      var c := months[|months| - 1];
      if totals[c] > totals[b] || (totals[c] == totals[b] && MonthBefore(c, b)) then c else b
  }

  /** The month chosen has the largest total. */
  lemma {:induction false} BestMonthIsMax(totals: map<(int, int), real>, months: seq<(int, int)>)
    requires months != [] && forall k :: 0 <= k < |months| ==> months[k] in totals
    ensures forall k :: 0 <= k < |months| ==> totals[months[k]] <= totals[BestMonth(totals, months)]
    decreases |months|
  {
    if |months| > 1 {
      var init := months[..|months| - 1];
      BestMonthIsMax(totals, init);
      assert forall k :: 0 <= k < |init| ==> months[k] == init[k];
    }
  }

  /** Every other month with the same total as the chosen one is later. */
  lemma {:induction false} BestMonthIsEarliest(totals: map<(int, int), real>, months: seq<(int, int)>)
    requires months != [] && forall k :: 0 <= k < |months| ==> months[k] in totals
    ensures forall k :: (0 <= k < |months| && months[k] != BestMonth(totals, months) &&
      totals[months[k]] == totals[BestMonth(totals, months)]) ==> MonthBefore(BestMonth(totals, months), months[k])
    decreases |months|
  {
    if |months| > 1 {
      var init := months[..|months| - 1];
      assert forall k :: 0 <= k < |init| ==> months[k] == init[k];
      BestMonthIsMax(totals, init);
      BestMonthIsEarliest(totals, init);
    }
  }
}
