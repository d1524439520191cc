/** `SpeseAI`'s data preparation, the monthly table it trains on, the guards and split sizes of the
    training step and the band around a forecast. The random forest itself, the random choice of
    the test rows and the error metrics are foreign numerics: they are parameters of the model. */
module Predictor {
  import opened Common
  import opened Calendar
  import opened Ledger
  import opened Stats
  import opened Manager

  /** Every date of the ledger is a calendar date. */
  predicate DatesValid(rows: seq<Transaction>) {
    forall t :: t in rows ==> Valid(t.date)
  }

  /** A day pandas can hold as a nanosecond timestamp: from 1677-09-22 (the first midnight after
      `Timestamp.min`) to 2262-04-11 (the last midnight before `Timestamp.max`). */
  predicate InTimestampRange(d: Date) {
    !Before(d, Date(1677, 9, 22)) && !Before(Date(2262, 4, 11), d)
  }

  /** Every date of the ledger converts: it is a calendar date within the timestamp range. */
  predicate Loadable(rows: seq<Transaction>) {
    DatesValid(rows) && forall t :: t in rows ==> InTimestampRange(t.date)
  }

  /** `_load_and_prepare_data`: `pd.to_datetime` rejects a date that is not a calendar date or lies
      outside the nanosecond timestamp range, the error is caught and the analysis then sees an
      empty table. */
  function Loaded(rows: seq<Transaction>): (r: seq<Transaction>)
    ensures DatesValid(r) && forall t :: t in r ==> InTimestampRange(t.date)
    ensures Loadable(rows) ==> r == rows
    ensures !Loadable(rows) ==> r == []
  {
    if Loadable(rows) then rows else []
  }

  /** `LabelEncoder.fit_transform`: the code of a category is the number of distinct categories that
      sort before it. */
  function CodeOf(cats: seq<string>, c: string): (r: nat)
    ensures r <= |cats|
    decreases |cats|
  {
    if cats == [] then 0 else CodeOf(cats[..|cats| - 1], c) + (if LexLess(cats[|cats| - 1], c) then 1 else 0)
  }

  predicate Distinct<T(==)>(s: seq<T>) {
    forall i, j :: 0 <= i < j < |s| ==> s[i] != s[j]
  }

  /** A category that sorts before another has a smaller code, smaller by one more when it is one of
      the categories itself. */
  lemma {:induction false} CodeMonotone(cats: seq<string>, a: string, b: string)
    requires Distinct(cats) && LexLess(a, b)
    ensures CodeOf(cats, a) + (if a in cats then 1 else 0) <= CodeOf(cats, b)
    decreases |cats|
  {
    if cats != [] {
      var init := cats[..|cats| - 1];
      var x := cats[|cats| - 1];
      assert cats == init + [x];
      CodeMonotone(init, a, b);
      if x == a {
        assert a !in init;
        LexLessIrreflexive(a);
      } else if LexLess(x, a) {
        LexLessTransitive(x, a, b);
      }
    }
  }

  /** Every category of the ledger gets a code below the number of categories. */
  lemma {:induction false} CodeBelow(cats: seq<string>, c: string)
    requires c in cats
    ensures CodeOf(cats, c) < |cats|
    decreases |cats|
  {
    var init := cats[..|cats| - 1];
    assert cats == init + [cats[|cats| - 1]];
    if c in init {
      CodeBelow(init, c);
    } else {
      LexLessIrreflexive(c);
    }
  }

  /** The codes are the positions in sorted order: distinct categories get distinct codes, in the
      order of the categories, all below their number. */
  lemma CodesAreRanks(cats: seq<string>, a: string, b: string)
    requires Distinct(cats) && a in cats && b in cats && LexLess(a, b)
    ensures CodeOf(cats, a) < CodeOf(cats, b) < |cats|
  {
    CodeMonotone(cats, a, b);
    CodeBelow(cats, b);
  }

  /** How often `x` occurs in `s`. */
  function Occurrences(s: seq<nat>, x: nat): nat {
    multiset(s)[x]
  }

  /** `x.mode().iloc[0]` scanning candidates: the most frequent, the smallest among equals. */
  function ModeOf(s: seq<nat>, cands: seq<nat>): (r: nat)
    requires cands != []
    ensures r in cands
    decreases |cands|
  {
    if |cands| == 1 then cands[0]
    else
      var b := ModeOf(s, cands[..|cands| - 1]);
      var c := cands[|cands| - 1];
      if Occurrences(s, c) > Occurrences(s, b) || (Occurrences(s, c) == Occurrences(s, b) && c < b) then c else b
  }

  lemma {:induction false} ModeIsMostFrequent(s: seq<nat>, cands: seq<nat>)
    requires cands != []
    ensures forall k :: 0 <= k < |cands| ==> Occurrences(s, cands[k]) <= Occurrences(s, ModeOf(s, cands))
    decreases |cands|
  {
    if |cands| > 1 {
      var init := cands[..|cands| - 1];
      ModeIsMostFrequent(s, init);
      assert forall k :: 0 <= k < |init| ==> cands[k] == init[k];
    }
  }

  lemma {:induction false} ModeIsSmallest(s: seq<nat>, cands: seq<nat>)
    requires cands != []
    ensures forall k :: (0 <= k < |cands| && Occurrences(s, cands[k]) == Occurrences(s, ModeOf(s, cands))) ==>
      ModeOf(s, cands) <= cands[k]
    decreases |cands|
  {
    if |cands| > 1 {
      var init := cands[..|cands| - 1];
      assert forall k :: 0 <= k < |init| ==> cands[k] == init[k];
      ModeIsMostFrequent(s, init);
      ModeIsSmallest(s, init);
    }
  }

  /** The smallest most frequent value of a non-empty sequence. */
  function Mode(s: seq<nat>): nat
    requires s != []
  {
    ModeOf(s, s)
  }

  /** The monthly code is a value of the month, no value is more frequent, and any value as
      frequent is not smaller. */
  lemma ModeSpec(s: seq<nat>, x: nat)
    requires s != []
    ensures Mode(s) in s
    ensures Occurrences(s, x) <= Occurrences(s, Mode(s))
    ensures Occurrences(s, x) == Occurrences(s, Mode(s)) ==> Mode(s) <= x
  {
    ModeIsMostFrequent(s, s);
    ModeIsSmallest(s, s);
    if x in s {
      var k :| 0 <= k < |s| && s[k] == x;
    } else {
      assert Occurrences(s, x) == 0;
      assert Occurrences(s, Mode(s)) > 0;
    }
  }

  /** Strictly increasing in chronological order. */
  predicate Increasing(s: seq<(int, int)>) {
    forall i, j :: 0 <= i < j < |s| ==> MonthBefore(s[i], s[j])
  }

  /** Inserts a month into an increasing list of months, unless it is already there. */
  function InsertMonth(s: seq<(int, int)>, ym: (int, int)): (r: seq<(int, int)>)
    requires Increasing(s)
    ensures Increasing(r)
    ensures forall x :: x in r <==> x in s || x == ym
    decreases |s|
  {
    if s == [] then [ym]
    else if s[0] == ym then s
    else if MonthBefore(ym, s[0]) then [ym] + s
    else
      var rest := InsertMonth(s[1..], ym);
      assert forall x :: x in s[1..] ==> MonthBefore(s[0], x);
      assert [s[0]] + rest == s[..1] + rest;
      [s[0]] + rest
  }

  /** The (year, month) groups of `groupby(['anno', 'mese'])`, in its sorted order. */
  function SortedMonths(rows: seq<Transaction>): (r: seq<(int, int)>)
    ensures Increasing(r)
    ensures forall ym :: ym in r <==> exists t :: t in rows && (t.date.year, t.date.month) == ym
    decreases |rows|
  {
    if rows == [] then []
    else
      var t := rows[|rows| - 1];
      assert rows == rows[..|rows| - 1] + [t];
      InsertMonth(SortedMonths(rows[..|rows| - 1]), (t.date.year, t.date.month))
  }

  /** Increasing months are distinct. */
  lemma IncreasingDistinct(s: seq<(int, int)>)
    requires Increasing(s)
    ensures Distinct(s)
  {
  }

  /** A month of the sorted groups has rows. */
  lemma MonthPresent(rows: seq<Transaction>, ym: (int, int))
    requires ym in SortedMonths(rows)
    ensures MonthRows(rows, ym.0, ym.1) != []
  {
    var t :| t in rows && (t.date.year, t.date.month) == ym;
    assert t in MonthRows(rows, ym.0, ym.1);
  }

  /** The weekdays of the rows, Monday = 0, as the floats `mean()` averages. */
  function Weekdays(rows: seq<Transaction>): (r: seq<real>)
    requires DatesValid(rows)
    ensures |r| == |rows|
  {
    seq(|rows|, k requires 0 <= k < |rows| => Weekday(rows[k].date) as real)
  }

  function Codes(rows: seq<Transaction>, cats: seq<string>): (r: seq<nat>)
    ensures |r| == |rows| && forall k :: 0 <= k < |rows| ==> r[k] == CodeOf(cats, rows[k].category)
  {
    seq(|rows|, k requires 0 <= k < |rows| => CodeOf(cats, rows[k].category))
  }

  /** One row of `df_mensile`: the month, its total, the mean weekday of its rows and its most
      frequent category code. */
  datatype Sample = Sample(year: int, month: int, total: real, meanWeekday: real, code: nat)

  function MonthSample(rows: seq<Transaction>, cats: seq<string>, ym: (int, int)): Sample
    requires DatesValid(rows) && MonthRows(rows, ym.0, ym.1) != []
  {
    var m := MonthRows(rows, ym.0, ym.1);
    Sample(ym.0, ym.1, Total(m), Mean(Weekdays(m)), Mode(Codes(m, cats)))
  }

  /** `df_mensile`: one sample per month, in chronological order. */
  function MonthTable(rows: seq<Transaction>): (r: seq<Sample>)
    requires DatesValid(rows)
    ensures |r| == |SortedMonths(rows)|
  {
    var keys := SortedMonths(rows);
    var cats := Categories(rows);
    seq(|keys|, k requires 0 <= k < |keys| => MonthPresent(rows, keys[k]); MonthSample(rows, cats, keys[k]))
  }

  /** The table has one increasing sample per month of the ledger, holding that month's total, the
      mean weekday of its rows and its most frequent category code. */
  lemma MonthTableSpec(rows: seq<Transaction>, k: nat)
    requires DatesValid(rows) && k < |MonthTable(rows)|
    ensures var s := MonthTable(rows)[k];
      var m := MonthRows(rows, s.year, s.month);
      (s.year, s.month) in SortedMonths(rows) && m != [] &&
      s.total == Total(m) && DatesValid(m) && s.meanWeekday == Mean(Weekdays(m)) &&
      s.code == Mode(Codes(m, Categories(rows)))
    ensures forall j :: k < j < |MonthTable(rows)| ==>
      MonthBefore((MonthTable(rows)[k].year, MonthTable(rows)[k].month), (MonthTable(rows)[j].year, MonthTable(rows)[j].month))
  {
    MonthPresent(rows, SortedMonths(rows)[k]);
  }

  /** The metrics the forest reports on its test rows. */
  datatype Metrics = Metrics(mae: real, r2: real)

  /** What `train_modello_spesa_totale` returns; `metrics` is None where it reports "N/A". */
  datatype TrainResult = TooFewRows | TooFewMonths | Trained(metrics: Option<Metrics>, samplesTrain: nat, samplesTest: nat)

  /** `train_test_split(test_size=0.3)`: the test rows are `ceil(0.3 * n)`. */
  function TestSize(n: nat): (r: nat)
    ensures 10 * r >= 3 * n && 10 * r < 3 * n + 10
  {
    (3 * n + 9) / 10
  }

  /** The forest as fitted: the table it was trained on and how many of its rows went to training. */
  datatype Fitting = Fitting(table: seq<Sample>, samplesTrain: nat)

  /** The outcome of training on a ledger; `learner` stands for fitting the forest on a random split
      of the table with the given number of test rows and scoring it on them. */
  function TrainingOutcome(rows: seq<Transaction>, learner: (seq<Sample>, nat) -> Metrics): (r: TrainResult)
  {
    var df := Loaded(rows);
    if |df| < 10 then TooFewRows
    else
      var table := MonthTable(df);
      if |table| < 3 then TooFewMonths
      else if |table| > 3 then
        var nTest := TestSize(|table|);
        Trained(Some(learner(table, nTest)), |table| - nTest, nTest)
      else Trained(None, |table|, 0)
  }

  /** Training refuses fewer than 10 rows and then fewer than 3 months; with exactly 3 months it
      fits on all of them, and with more the two parts of the split make up the table, each part
      non-empty. */
  lemma TrainingGuards(rows: seq<Transaction>, learner: (seq<Sample>, nat) -> Metrics)
    ensures var r := TrainingOutcome(rows, learner);
      var df := Loaded(rows);
      (r == TooFewRows <==> |df| < 10) &&
      (r == TooFewMonths <==> |df| >= 10 && |SortedMonths(df)| < 3) &&
      (r.Trained? ==> r.samplesTrain + r.samplesTest == |SortedMonths(df)| && r.samplesTrain >= 1) &&
      (r.Trained? && |SortedMonths(df)| == 3 ==> r.samplesTrain == 3 && r.samplesTest == 0 && r.metrics.None?) &&
      (r.Trained? && |SortedMonths(df)| > 3 ==> r.samplesTest >= 1 && r.metrics.Some?)
  {
  }

  /** How far ahead the forecast looks, in days. */
  const Horizon: nat := 30

  /** The features of a prediction: the year and month 30 days ahead, Wednesday, code 0. */
  datatype Features = Features(year: int, month: int, weekday: real, code: nat)

  /** What `predici_spesa_mese_prossimo` returns: an error, or the forecast with its ±20% band. */
  datatype Prediction = PredictionError | Forecast(period: (int, int), value: real, low: real, high: real)

  class SpeseAI {
    /** `model_totale`'s fitted state: None until a training succeeds. */
    var fitted: Option<Fitting>

    constructor ()
      ensures fitted == None
    {
      fitted := None;
    }

    /** `train_modello_spesa_totale`: on success the forest is refitted on the monthly table; a
        refused training leaves it as it was. */
    method Train(rows: seq<Transaction>, learner: (seq<Sample>, nat) -> Metrics) returns (r: TrainResult)
      modifies this
      ensures r == TrainingOutcome(rows, learner)
      ensures r.Trained? ==> fitted == Some(Fitting(MonthTable(Loaded(rows)), r.samplesTrain))
      ensures !r.Trained? ==> fitted == old(fitted)
    {
      var df := Loaded(rows);
      if |df| < 10 {
        return TooFewRows;
      }
      var table := MonthTable(df);
      if |table| < 3 {
        return TooFewMonths;
      }
      if |table| > 3 {
        var nTest := TestSize(|table|);
        var nTrain := |table| - nTest;
        fitted := Some(Fitting(table, nTrain));
        r := Trained(Some(learner(table, nTest)), nTrain, nTest);
      } else {
        fitted := Some(Fitting(table, |table|));
        r := Trained(None, |table|, 0);
      }
    }

    /** `predici_spesa_mese_prossimo`: the forecast of the fitted forest (`forest` stands for its
        `predict`) for the month 30 days ahead; a forest never fitted raises, as does a date past
        year 9999, and both end in the error value. */
    function Predict(today: Date, forest: (Fitting, Features) -> real): (r: Prediction)
      reads this
      requires Valid(today)
      ensures fitted.None? ==> r == PredictionError
    {
      match AddDays(today, Horizon)
      case None => PredictionError
      case Some(next) =>
        if fitted.None? then PredictionError
        else
          var p := forest(fitted.value, Features(next.year, next.month, 3.0, 0));
          Forecast((next.year, next.month), p, p * 0.8, p * 1.2)
    }
  }

  /** The band is 0.8 to 1.2 times the value, centred on it, which it contains when the value is
      not negative; the period is the month 30 days ahead and the value is the forest's prediction
      for it with the fixed weekday and code. */
  lemma PredictionBand(ai: SpeseAI, today: Date, forest: (Fitting, Features) -> real)
    requires Valid(today)
    ensures var r := ai.Predict(today, forest);
      r.Forecast? ==>
        r.low == 0.8 * r.value && r.high == 1.2 * r.value && r.value - r.low == r.high - r.value &&
        (r.value >= 0.0 ==> r.low <= r.value <= r.high) &&
        ai.fitted.Some? &&
        exists next :: AddDays(today, 30) == Some(next) && Ordinal(next) == Ordinal(today) + 30 &&
          r.period == (next.year, next.month) &&
          r.value == forest(ai.fitted.value, Features(next.year, next.month, 3.0, 0))
  {
  }
}
