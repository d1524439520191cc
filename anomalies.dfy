/** `SpeseAI.detecta_anomalie`: per category, the rows whose amount lies more than `threshold`
    standard deviations above the category mean, largest first, at most ten. */
module Anomalies {
  import opened Common
  import opened Calendar
  import opened Ledger
  import opened Stats
  import opened Predictor

  /** One reported outlier: the row's date, description, category and amount, the category mean
      and the distance from it. */
  datatype Anomaly = Anomaly(date: Date, description: string, category: string, amount: real,
                             categoryMean: real, difference: real)

  function AnomalyOf(t: Transaction, mean: real): Anomaly {
    Anomaly(t.date, t.description, t.category, t.amount, mean, t.amount - mean)
  }

  /** `amount > mean + threshold * std`, the standard deviation being the square root of
      `variance`. */
  predicate OutOfBand(amount: real, mean: real, variance: real, threshold: real) {
    ExceedsBand(amount - mean, threshold, variance)
  }

  /** The rows of a category, in ledger order, whose amount exceeds `mean + threshold * std`, the
      standard deviation being the square root of `variance`. */
  function Outliers(rows: seq<Transaction>, mean: real, variance: real, threshold: real): seq<Anomaly>
    decreases |rows|
  {
    if rows == [] then []
    else
      var t := rows[|rows| - 1];
      Outliers(rows[..|rows| - 1], mean, variance, threshold) +
      (if OutOfBand(t.amount, mean, variance, threshold) then [AnomalyOf(t, mean)] else [])
  }

  /** Every row beyond the band is reported. */
  lemma {:induction false} OutlierOf(rows: seq<Transaction>, mean: real, variance: real, threshold: real, k: nat)
    requires k < |rows| && OutOfBand(rows[k].amount, mean, variance, threshold)
    ensures AnomalyOf(rows[k], mean) in Outliers(rows, mean, variance, threshold)
    decreases |rows|
  {
    if k < |rows| - 1 {
      var init := rows[..|rows| - 1];
      assert init[k] == rows[k];
      OutlierOf(init, mean, variance, threshold, k);
    }
  }

  /** Every outlier reported is a row beyond the band. */
  lemma {:induction false} OutlierFrom(rows: seq<Transaction>, mean: real, variance: real, threshold: real, a: Anomaly)
    requires a in Outliers(rows, mean, variance, threshold)
    ensures exists k :: (0 <= k < |rows| && OutOfBand(rows[k].amount, mean, variance, threshold) &&
                         a == AnomalyOf(rows[k], mean))
    decreases |rows|
  {
    var init := rows[..|rows| - 1];
    if a in Outliers(init, mean, variance, threshold) {
      OutlierFrom(init, mean, variance, threshold, a);
      var k :| 0 <= k < |init| && OutOfBand(init[k].amount, mean, variance, threshold) && a == AnomalyOf(init[k], mean);
      assert rows[k] == init[k];
    } else {
      var k := |rows| - 1;
      assert OutOfBand(rows[k].amount, mean, variance, threshold) && a == AnomalyOf(rows[k], mean);
    }
  }

  /** When no row is beyond the band there is no outlier. */
  lemma {:induction false} NoOutliers(rows: seq<Transaction>, mean: real, variance: real, threshold: real)
    requires forall k :: 0 <= k < |rows| ==> !OutOfBand(rows[k].amount, mean, variance, threshold)
    ensures Outliers(rows, mean, variance, threshold) == []
    decreases |rows|
  {
    if rows != [] {
      var init := rows[..|rows| - 1];
      assert forall k :: 0 <= k < |init| ==> init[k] == rows[k];
      NoOutliers(init, mean, variance, threshold);
    }
  }

  /** The mean of a category's amounts. */
  function CategoryMean(df: seq<Transaction>, c: string): real {
    var a := Amounts(CategoryRows(df, c));
    if |a| == 0 then 0.0 else Mean(a)
  }

  /** The outliers of category `c`, none when it has fewer than three rows. */
  function CategoryAnomalies(df: seq<Transaction>, c: string, threshold: real): seq<Anomaly> {
    var cr := CategoryRows(df, c);
    if |cr| < 3 then []
    else
      var a := Amounts(cr);
      Outliers(cr, Mean(a), SampleVar(a), threshold)
  }

  /** The outliers of the categories `cats`, category after category. */
  function Flagged(df: seq<Transaction>, cats: seq<string>, threshold: real): seq<Anomaly>
    decreases |cats|
  {
    if cats == [] then []
    else Flagged(df, cats[..|cats| - 1], threshold) + CategoryAnomalies(df, cats[|cats| - 1], threshold)
  }

  /** What makes row `t` of the ledger an outlier of its category. */
  predicate Beyond(df: seq<Transaction>, t: Transaction, threshold: real) {
    BeyondIn(df, t.category, t.amount, threshold)
  }

  /** An amount beyond the band of category `c`, a category of at least three rows. */
  predicate BeyondIn(df: seq<Transaction>, c: string, amount: real, threshold: real) {
    var cr := CategoryRows(df, c);
    |cr| >= 3 && OutOfBand(amount, Mean(Amounts(cr)), SampleVar(Amounts(cr)), threshold)
  }

  lemma CategoryAnomalySound(df: seq<Transaction>, c: string, threshold: real, a: Anomaly) returns (t: Transaction)
    requires a in CategoryAnomalies(df, c, threshold)
    ensures t in df && t.category == c && Beyond(df, t, threshold) && a == AnomalyOf(t, CategoryMean(df, c))
  {
    var cr := CategoryRows(df, c);
    assert |cr| >= 3;
    var am := Amounts(cr);
    var mean := Mean(am);
    var variance := SampleVar(am);
    assert CategoryAnomalies(df, c, threshold) == Outliers(cr, mean, variance, threshold);
    assert CategoryMean(df, c) == mean;
    OutlierFrom(cr, mean, variance, threshold, a);
    var k :| 0 <= k < |cr| && OutOfBand(cr[k].amount, mean, variance, threshold) && a == AnomalyOf(cr[k], mean);
    t := cr[k];
    assert t in cr;
    assert t in df && t.category == c;
    assert BeyondIn(df, c, t.amount, threshold);
  }

  lemma CategoryAnomalyComplete(df: seq<Transaction>, c: string, threshold: real, t: Transaction)
    requires t in df && t.category == c && Beyond(df, t, threshold)
    ensures AnomalyOf(t, CategoryMean(df, c)) in CategoryAnomalies(df, c, threshold)
  {
    var cr := CategoryRows(df, c);
    var am := Amounts(cr);
    assert t in cr;
    var k :| 0 <= k < |cr| && cr[k] == t;
    OutlierOf(cr, Mean(am), SampleVar(am), threshold, k);
  }

  /** The outliers of a category are its rows that lie beyond its band, with the category mean. */
  lemma CategoryAnomaliesSpec(df: seq<Transaction>, c: string, threshold: real, a: Anomaly)
    ensures a in CategoryAnomalies(df, c, threshold) <==>
      exists t :: (t in df && t.category == c && Beyond(df, t, threshold) && a == AnomalyOf(t, CategoryMean(df, c)))
  {
    if a in CategoryAnomalies(df, c, threshold) {
      var t := CategoryAnomalySound(df, c, threshold, a);
    }
    if exists t :: (t in df && t.category == c && Beyond(df, t, threshold) && a == AnomalyOf(t, CategoryMean(df, c))) {
      var t :| t in df && t.category == c && Beyond(df, t, threshold) && a == AnomalyOf(t, CategoryMean(df, c));
      CategoryAnomalyComplete(df, c, threshold, t);
    }
  }

  /** A row of category `c` beyond its band, reported as `a`. */
  predicate ReportedIn(df: seq<Transaction>, cats: seq<string>, threshold: real, a: Anomaly) {
    exists t :: (t in df && t.category in cats && Beyond(df, t, threshold) &&
                 a == AnomalyOf(t, CategoryMean(df, t.category)))
  }

  lemma ReportedSnoc(df: seq<Transaction>, init: seq<string>, c: string, threshold: real, a: Anomaly)
    ensures ReportedIn(df, init + [c], threshold, a) <==>
      ReportedIn(df, init, threshold, a) || ReportedIn(df, [c], threshold, a)
  {
    if ReportedIn(df, init + [c], threshold, a) {
      var t :| t in df && t.category in init + [c] && Beyond(df, t, threshold) && a == AnomalyOf(t, CategoryMean(df, t.category));
      if t.category == c {
        assert t.category in [c];
      } else {
        assert t.category in init;
      }
    }
    if ReportedIn(df, init, threshold, a) {
      var t :| t in df && t.category in init && Beyond(df, t, threshold) && a == AnomalyOf(t, CategoryMean(df, t.category));
      assert t.category in init + [c];
    }
    if ReportedIn(df, [c], threshold, a) {
      var t :| t in df && t.category in [c] && Beyond(df, t, threshold) && a == AnomalyOf(t, CategoryMean(df, t.category));
      assert t.category in init + [c];
    }
  }

  lemma ReportedSingle(df: seq<Transaction>, c: string, threshold: real, a: Anomaly)
    ensures ReportedIn(df, [c], threshold, a) <==>
      exists t :: (t in df && t.category == c && Beyond(df, t, threshold) && a == AnomalyOf(t, CategoryMean(df, c)))
  {
    if ReportedIn(df, [c], threshold, a) {
      var t :| t in df && t.category in [c] && Beyond(df, t, threshold) && a == AnomalyOf(t, CategoryMean(df, t.category));
      assert t.category == c;
    }
    if exists t :: (t in df && t.category == c && Beyond(df, t, threshold) && a == AnomalyOf(t, CategoryMean(df, c))) {
      var t :| t in df && t.category == c && Beyond(df, t, threshold) && a == AnomalyOf(t, CategoryMean(df, c));
      assert t.category in [c];
    }
  }

  /** The outliers over the categories `cats` are the rows of those categories that lie beyond
      their category's band, each reported with its category's mean. */
  lemma {:induction false} FlaggedSpec(df: seq<Transaction>, cats: seq<string>, threshold: real, a: Anomaly)
    ensures a in Flagged(df, cats, threshold) <==> ReportedIn(df, cats, threshold, a)
    decreases |cats|
  {
    if cats != [] {
      var init := cats[..|cats| - 1];
      var c := cats[|cats| - 1];
      FlaggedSpec(df, init, threshold, a);
      CategoryAnomaliesSpec(df, c, threshold, a);
      ReportedSingle(df, c, threshold, a);
      ReportedSnoc(df, init, c, threshold, a);
      assert cats == init + [c];
    }
  }

  /** Amounts in non-increasing order. */
  predicate SortedDesc(s: seq<Anomaly>) {
    forall i, j :: 0 <= i < j < |s| ==> s[i].amount >= s[j].amount
  }

  /** The anomalies of amount `v`, in order. */
  function WithAmount(s: seq<Anomaly>, v: real): seq<Anomaly>
    decreases |s|
  {
    if s == [] then [] else WithAmount(s[..|s| - 1], v) + (if s[|s| - 1].amount == v then [s[|s| - 1]] else [])
  }

  lemma WithAmountSnoc(s: seq<Anomaly>, x: Anomaly, v: real)
    ensures WithAmount(s + [x], v) == WithAmount(s, v) + (if x.amount == v then [x] else [])
  {
    assert (s + [x])[..|s|] == s;
  }

  /** One step of a stable sort by decreasing amount: `x` goes after every element whose amount is
      at least its own. */
  function Insert(s: seq<Anomaly>, x: Anomaly): (r: seq<Anomaly>)
    ensures multiset(r) == multiset(s) + multiset{x}
    decreases |s|
  {
    if s == [] then [x]
    else if s[|s| - 1].amount >= x.amount then s + [x]
    else
      var init := s[..|s| - 1];
      assert s == init + [s[|s| - 1]];
      Insert(init, x) + [s[|s| - 1]]
  }

  lemma {:induction false} InsertSorted(s: seq<Anomaly>, x: Anomaly)
    requires SortedDesc(s)
    ensures SortedDesc(Insert(s, x))
    decreases |s|
  {
    if s != [] && s[|s| - 1].amount < x.amount {
      var init := s[..|s| - 1];
      var last := s[|s| - 1];
      InsertSorted(init, x);
      InsertAbove(init, x, last.amount);
    }
  }

  /** Inserting an element no smaller than a bound keeps every element no smaller than it. */
  lemma {:induction false} InsertAbove(s: seq<Anomaly>, x: Anomaly, m: real)
    requires forall i :: 0 <= i < |s| ==> s[i].amount >= m
    requires x.amount >= m
    ensures forall i :: 0 <= i < |Insert(s, x)| ==> Insert(s, x)[i].amount >= m
    decreases |s|
  {
    if s != [] && s[|s| - 1].amount < x.amount {
      InsertAbove(s[..|s| - 1], x, m);
    }
  }

  /** Inserting keeps the relative order of every group of equal amounts: `x` joins its group last. */
  lemma {:induction false} InsertStable(s: seq<Anomaly>, x: Anomaly, v: real)
    ensures WithAmount(Insert(s, x), v) == WithAmount(s, v) + (if x.amount == v then [x] else [])
    decreases |s|
  {
    if s == [] {
      WithAmountSnoc([], x, v);
    } else if s[|s| - 1].amount >= x.amount {
      WithAmountSnoc(s, x, v);
    } else {
      var init := s[..|s| - 1];
      var last := s[|s| - 1];
      InsertStable(init, x, v);
      WithAmountSnoc(Insert(init, x), last, v);
      assert Insert(s, x) == Insert(init, x) + [last];
      if x.amount == v {
        // `last` is smaller than `x`, so only `x` has amount `v`
        assert WithAmount(Insert(s, x), v) == WithAmount(Insert(init, x), v);
        assert WithAmount(s, v) == WithAmount(init, v);
      } else {
        assert WithAmount(Insert(init, x), v) == WithAmount(init, v);
      }
    }
  }

  /** `anomalie.sort(key=importo, reverse=True)`: Python's sort is stable, also in reverse. */
  function SortDesc(s: seq<Anomaly>): (r: seq<Anomaly>)
    ensures multiset(r) == multiset(s)
    decreases |s|
  {
    if s == [] then []
    else
      var init := s[..|s| - 1];
      assert s == init + [s[|s| - 1]];
      Insert(SortDesc(init), s[|s| - 1])
  }

  /** The sort orders by decreasing amount. */
  lemma {:induction false} SortDescSorted(s: seq<Anomaly>)
    ensures SortedDesc(SortDesc(s))
    decreases |s|
  {
    if s != [] {
      var init := s[..|s| - 1];
      SortDescSorted(init);
      InsertSorted(SortDesc(init), s[|s| - 1]);
    }
  }

  /** The sort leaves the anomalies of each amount in their original order. */
  lemma {:induction false} SortDescStable(s: seq<Anomaly>, v: real)
    ensures WithAmount(SortDesc(s), v) == WithAmount(s, v)
    decreases |s|
  {
    if s != [] {
      var init := s[..|s| - 1];
      SortDescStable(init, v);
      InsertStable(SortDesc(init), s[|s| - 1], v);
    }
  }

  /** The default threshold of two standard deviations. */
  const DefaultThreshold: real := 2.0

  /** `detecta_anomalie(soglia)`: nothing for an empty (or unloadable) ledger; otherwise the
      outliers of every category in order of first appearance, sorted by decreasing amount, the
      first ten. */
  function AnomaliesOf(rows: seq<Transaction>, threshold: real): seq<Anomaly> {
    var df := Loaded(rows);
    if df == [] then [] else Take(SortDesc(Flagged(df, Categories(df), threshold)), 10)
  }

  /** Keeping the first ten of a sorted sequence keeps it sorted, and no element left out is larger
      than one kept. */
  lemma TakeLargest(s: seq<Anomaly>)
    requires SortedDesc(s)
    ensures |Take(s, 10)| <= 10 && SortedDesc(Take(s, 10))
    ensures forall a :: a in Take(s, 10) ==> a in s
    ensures forall a, b :: a in s && a !in Take(s, 10) && b in Take(s, 10) ==> a.amount <= b.amount
  {
    var r := Take(s, 10);
    assert forall i :: 0 <= i < |r| ==> r[i] == s[i];
    forall a, b | a in s && a !in r && b in r
      ensures a.amount <= b.amount
    {
      var j :| 0 <= j < |s| && s[j] == a;
      var i :| 0 <= i < |r| && r[i] == b;
      assert j >= |r|;
    }
  }

  /** At most ten anomalies, largest first; each is a row of the ledger beyond its category's band
      with the category's mean; and an outlier left out is no larger than any reported. */
  lemma AnomaliesSpec(rows: seq<Transaction>, threshold: real)
    ensures var r := AnomaliesOf(rows, threshold);
      |r| <= 10 && SortedDesc(r) &&
      (forall a :: a in r ==> ReportedIn(Loaded(rows), Categories(Loaded(rows)), threshold, a))
    ensures var r := AnomaliesOf(rows, threshold);
      Loaded(rows) != [] ==>
      forall a, b :: a in Flagged(Loaded(rows), Categories(Loaded(rows)), threshold) && a !in r && b in r ==> a.amount <= b.amount
  {
    var df := Loaded(rows);
    if df != [] {
      var f := Flagged(df, Categories(df), threshold);
      var s := SortDesc(f);
      SortDescSorted(f);
      TakeLargest(s);
      forall a | a in s
        ensures a in f && ReportedIn(df, Categories(df), threshold, a)
      {
        assert a in multiset(s);
        FlaggedSpec(df, Categories(df), threshold, a);
      }
      forall a | a in f
        ensures a in s
      {
        assert a in multiset(f);
      }
    }
  }

  /** Every row of a category of at least three rows that lies beyond the band is found, before
      the first ten are kept. */
  lemma AnomaliesComplete(rows: seq<Transaction>, threshold: real, t: Transaction)
    requires t in Loaded(rows) && Beyond(Loaded(rows), t, threshold)
    ensures AnomalyOf(t, CategoryMean(Loaded(rows), t.category)) in
      SortDesc(Flagged(Loaded(rows), Categories(Loaded(rows)), threshold))
  {
    var df := Loaded(rows);
    var a := AnomalyOf(t, CategoryMean(df, t.category));
    var f := Flagged(df, Categories(df), threshold);
    FlaggedSpec(df, Categories(df), threshold, a);
    assert a in multiset(f);
    assert a in multiset(SortDesc(f));
  }

  /** With the default threshold a category of fewer than six rows never has an outlier: a value
      of n values is at most (n - 1)/sqrt(n) standard deviations from their mean. */
  lemma SmallCategoryHasNone(df: seq<Transaction>, c: string)
    requires |CategoryRows(df, c)| < 6
    ensures CategoryAnomalies(df, c, DefaultThreshold) == []
  {
    var cr := CategoryRows(df, c);
    if |cr| >= 3 {
      var am := Amounts(cr);
      var mean := Mean(am);
      var variance := SampleVar(am);
      forall k | 0 <= k < |cr|
        ensures !OutOfBand(cr[k].amount, mean, variance, DefaultThreshold)
      {
        NoOutlierBelowSix(am, k);
        assert !OutOfBand(am[k], mean, variance, 2.0);
        assert am[k] == cr[k].amount;
      }
      NoOutliers(cr, Mean(am), SampleVar(am), DefaultThreshold);
    }
  }

  predicate SameAmounts(rows: seq<Transaction>) {
    forall k :: 0 <= k < |rows| ==> rows[k].amount == rows[0].amount
  }

  /** A category whose rows all have the same amount has no outlier, whatever the threshold. */
  lemma ConstantCategoryHasNone(df: seq<Transaction>, c: string, threshold: real)
    requires SameAmounts(CategoryRows(df, c))
    ensures CategoryAnomalies(df, c, threshold) == []
  {
    var cr := CategoryRows(df, c);
    if |cr| >= 3 {
      var am := Amounts(cr);
      forall k | 0 <= k < |am|
        ensures am[k] == am[0]
      {
        assert am[k] == cr[k].amount && am[0] == cr[0].amount;
        assert cr[k].amount == cr[0].amount;
      }
      forall k | 0 <= k < |cr|
        ensures !OutOfBand(cr[k].amount, Mean(am), SampleVar(am), threshold)
      {
        ConstantNoOutlier(am, k, threshold);
        assert !OutOfBand(am[k], Mean(am), SampleVar(am), threshold);
        assert am[k] == cr[k].amount;
      }
      NoOutliers(cr, Mean(am), SampleVar(am), threshold);
    }
  }

  lemma FlaggedStep(df: seq<Transaction>, cats: seq<string>, i: nat, threshold: real)
    requires i < |cats|
    ensures Flagged(df, cats[..i + 1], threshold) == Flagged(df, cats[..i], threshold) + CategoryAnomalies(df, cats[i], threshold)
  {
    assert cats[..i + 1][..i] == cats[..i];
  }

  lemma OutliersStep(rows: seq<Transaction>, j: nat, mean: real, variance: real, threshold: real)
    requires j < |rows|
    ensures Outliers(rows[..j + 1], mean, variance, threshold) ==
      Outliers(rows[..j], mean, variance, threshold) +
      (if OutOfBand(rows[j].amount, mean, variance, threshold) then [AnomalyOf(rows[j], mean)] else [])
  {
    assert rows[..j + 1][..j] == rows[..j];
  }

  /** `detecta_anomalie` as it runs: a loop over the categories and, for each category of at
      least three rows, a loop over its rows. */
  method DetectAnomalies(rows: seq<Transaction>, threshold: real) returns (r: seq<Anomaly>)
    ensures r == AnomaliesOf(rows, threshold)
  {
    var df := Loaded(rows);
    if df == [] {
      return [];
    }
    var cats := Categories(df);
    var found: seq<Anomaly> := [];
    for i := 0 to |cats|
      invariant found == Flagged(df, cats[..i], threshold)
    {
      FlaggedStep(df, cats, i, threshold);
      var cr := CategoryRows(df, cats[i]);
      if |cr| >= 3 {
        var am := Amounts(cr);
        var mean := Mean(am);
        var variance := SampleVar(am);
        var outliers: seq<Anomaly> := [];
        for j := 0 to |cr|
          invariant outliers == Outliers(cr[..j], mean, variance, threshold)
        {
          OutliersStep(cr, j, mean, variance, threshold);
          if OutOfBand(cr[j].amount, mean, variance, threshold) {
            outliers := outliers + [AnomalyOf(cr[j], mean)];
          }
        }
        assert cr[..|cr|] == cr;
        found := found + outliers;
      }
    }
    assert cats[..|cats|] == cats;
    r := Take(SortDesc(found), 10);
  }
}
