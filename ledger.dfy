/** The transaction ledger: one record per line of the CSV file, and the filters and group-by sums
    that every reader of the ledger builds on. */
module Ledger {
  import opened Common
  import opened Calendar

  /** One ledger row: `data`, the description, `categoria`, `importo`, `tipo` and `note`. */
  datatype Transaction = Transaction(
    date: Date, description: string, category: string, amount: real, kind: string, note: string)

  const ExpenseKind: string := "spesa"
  const IncomeKind: string := "ricavo"

  /** The rows in month `month` of year `year`, in ledger order. */
  function MonthRows(rows: seq<Transaction>, year: int, month: int): (r: seq<Transaction>)
    ensures forall t :: t in r <==> t in rows && t.date.year == year && t.date.month == month
    ensures |r| <= |rows|
    decreases |rows|
  {
    if rows == [] then []
    else
      var rest := MonthRows(rows[..|rows| - 1], year, month);
      var t := rows[|rows| - 1];
      assert rows == rows[..|rows| - 1] + [t];
      if t.date.year == year && t.date.month == month then rest + [t] else rest
  }

  /** Filtering a ledger that grew by one row: the row joins the month's rows exactly when it is
      in that month, and the earlier rows are filtered as before. */
  lemma MonthRowsAppend(rows: seq<Transaction>, t: Transaction, year: int, month: int)
    ensures MonthRows(rows + [t], year, month) ==
      MonthRows(rows, year, month) + (if t.date.year == year && t.date.month == month then [t] else [])
  {
    assert (rows + [t])[..|rows + [t]| - 1] == rows;
  }

  /** The rows whose month number is `month`, in any year. */
  function MonthNumberRows(rows: seq<Transaction>, month: int): (r: seq<Transaction>)
    ensures forall t :: t in r <==> t in rows && t.date.month == month
    decreases |rows|
  {
    if rows == [] then []
    else
      var rest := MonthNumberRows(rows[..|rows| - 1], month);
      var t := rows[|rows| - 1];
      assert rows == rows[..|rows| - 1] + [t];
      if t.date.month == month then rest + [t] else rest
  }

  /** The rows of one category, in ledger order. */
  function CategoryRows(rows: seq<Transaction>, c: string): (r: seq<Transaction>)
    ensures forall t :: t in r <==> t in rows && t.category == c
    ensures |r| <= |rows|
    decreases |rows|
  {
    if rows == [] then []
    else
      var rest := CategoryRows(rows[..|rows| - 1], c);
      var t := rows[|rows| - 1];
      assert rows == rows[..|rows| - 1] + [t];
      if t.category == c then rest + [t] else rest
  }

  function Amounts(rows: seq<Transaction>): (r: seq<real>)
    ensures |r| == |rows| && forall k :: 0 <= k < |rows| ==> r[k] == rows[k].amount
  {
    seq(|rows|, k requires 0 <= k < |rows| => rows[k].amount)
  }

  lemma AmountsAppend(a: seq<Transaction>, b: seq<Transaction>)
    ensures Amounts(a + b) == Amounts(a) + Amounts(b)
  {
  }

  /** `df['importo'].sum()`. */
  function Total(rows: seq<Transaction>): real {
    Sum(Amounts(rows))
  }

  lemma TotalAppend(a: seq<Transaction>, b: seq<Transaction>)
    ensures Total(a + b) == Total(a) + Total(b)
  {
    AmountsAppend(a, b);
    SumAppend(Amounts(a), Amounts(b));
  }

  /** The sum of the amounts of the rows of category `c`. */
  function CategorySum(rows: seq<Transaction>, c: string): real {
    Total(CategoryRows(rows, c))
  }

  /** The sum of the amounts of the rows of kind `kind`. */
  function KindSum(rows: seq<Transaction>, kind: string): real
    decreases |rows|
  {
    if rows == [] then 0.0
    else KindSum(rows[..|rows| - 1], kind) + (if rows[|rows| - 1].kind == kind then rows[|rows| - 1].amount else 0.0)
  }

  /** The distinct categories of the ledger, in order of first appearance (`df['categoria'].unique()`). */
  function Categories(rows: seq<Transaction>): (r: seq<string>)
    ensures forall c :: c in r <==> exists t :: t in rows && t.category == c
    ensures forall i, j :: 0 <= i < j < |r| ==> r[i] != r[j]
    decreases |rows|
  {
    if rows == [] then []
    else
      var rest := Categories(rows[..|rows| - 1]);
      var t := rows[|rows| - 1];
      assert rows == rows[..|rows| - 1] + [t];
      if t.category in rest then rest else rest + [t.category]
  }

  lemma CategoryInRows(rows: seq<Transaction>, k: nat)
    requires k < |rows|
    ensures rows[k].category in Categories(rows)
  {
    assert rows[k] in rows;
  }

  /** `df.groupby('categoria')['importo'].sum().to_dict()`: a key for each category of the rows,
      holding the sum of that category's amounts (whatever their kind). */
  function CategoryTotals(rows: seq<Transaction>): (r: map<string, real>)
    ensures forall c :: c in r <==> c in Categories(rows)
    ensures forall c :: c in r ==> r[c] == CategorySum(rows, c)
  {
    map c | c in Categories(rows) :: CategorySum(rows, c)
  }

  /** The sum of the per-category totals of `cats`. */
  function SumOver(rows: seq<Transaction>, cats: seq<string>): real
    decreases |cats|
  {
    if cats == [] then 0.0 else SumOver(rows, cats[..|cats| - 1]) + CategorySum(rows, cats[|cats| - 1])
  }

  /** Adding one row changes the sum over a list of distinct categories by that row's amount when
      its category is listed, and not at all otherwise. */
  lemma {:induction false} SumOverAppend(rows: seq<Transaction>, t: Transaction, cats: seq<string>)
    requires forall i, j :: 0 <= i < j < |cats| ==> cats[i] != cats[j]
    ensures SumOver(rows + [t], cats) == SumOver(rows, cats) + (if t.category in cats then t.amount else 0.0)
    decreases |cats|
  {
    if cats != [] {
      var init := cats[..|cats| - 1];
      var last := cats[|cats| - 1];
      SumOverAppend(rows, t, init);
      CategoryRowsAppend(rows, t, last);
      TotalAppend(CategoryRows(rows, last), [t]);
      TotalSingle(t);
      assert t.category in cats <==> t.category in init || t.category == last;
      if t.category == last {
        assert t.category !in init by {
          forall i | 0 <= i < |init| ensures init[i] != last {
            assert cats[i] != cats[|cats| - 1];
          }
        }
      }
    }
  }

  lemma TotalSingle(t: Transaction)
    ensures Total([t]) == t.amount
  {
    assert Amounts([t]) == [t.amount];
    SumSingle(t.amount);
  }

  /** A category that does not occur has no rows. */
  lemma {:induction false} AbsentCategory(rows: seq<Transaction>, c: string)
    requires c !in Categories(rows)
    ensures CategoryRows(rows, c) == []
    decreases |rows|
  {
    if rows != [] {
      var init := rows[..|rows| - 1];
      assert Categories(init) == Categories(rows) || Categories(rows) == Categories(init) + [rows[|rows| - 1].category];
      AbsentCategory(init, c);
    }
  }

  /** A row whose category has not appeared before starts that category's rows. */
  lemma NewCategory(rows: seq<Transaction>, t: Transaction)
    requires t.category !in Categories(rows)
    ensures Categories(rows + [t]) == Categories(rows) + [t.category]
    ensures CategorySum(rows + [t], t.category) == t.amount
  {
    assert (rows + [t])[..|rows + [t]| - 1] == rows;
    CategoryRowsAppend(rows, t, t.category);
    AbsentCategory(rows, t.category);
    assert CategoryRows(rows + [t], t.category) == [t];
    TotalSingle(t);
  }

  lemma CategoryRowsAppend(rows: seq<Transaction>, t: Transaction, c: string)
    ensures CategoryRows(rows + [t], c) == CategoryRows(rows, c) + (if t.category == c then [t] else [])
  {
    assert (rows + [t])[..|rows + [t]| - 1] == rows;
  }

  /** `sum(totali_categoria.values())` is the total of the whole ledger: every row belongs to
      exactly one category. */
  lemma {:induction false} TotalsPartition(rows: seq<Transaction>)
    ensures SumOver(rows, Categories(rows)) == Total(rows)
    decreases |rows|
  {
    if rows != [] {
      var init := rows[..|rows| - 1];
      assert rows == init + [rows[|rows| - 1]];
      TotalsPartition(init);
      TotalsPartitionStep(init, rows[|rows| - 1]);
    }
  }

  /** Appending one row adds the same amount to the per-category sums as to the total. */
  lemma TotalsPartitionStep(init: seq<Transaction>, t: Transaction)
    ensures SumOver(init + [t], Categories(init + [t])) - Total(init + [t]) ==
      SumOver(init, Categories(init)) - Total(init)
  {
    var cats := Categories(init);
    SumOverAppend(init, t, cats);
    TotalAppend(init, [t]);
    TotalSingle(t);
    CategoriesAppend(init, t);
    if t.category !in cats {
      NewCategory(init, t);
      SumOverLast(init + [t], cats, t.category);
    }
  }

  lemma CategoriesAppend(rows: seq<Transaction>, t: Transaction)
    ensures Categories(rows + [t]) ==
      if t.category in Categories(rows) then Categories(rows) else Categories(rows) + [t.category]
  {
    assert (rows + [t])[..|rows + [t]| - 1] == rows;
  }

  lemma SumOverLast(rows: seq<Transaction>, cats: seq<string>, c: string)
    ensures SumOver(rows, cats + [c]) == SumOver(rows, cats) + CategorySum(rows, c)
  {
    assert (cats + [c])[..|cats|] == cats;
  }

  /** The per-kind sum of two ledgers written one after the other. */
  lemma {:induction false} KindSumAppend(rows: seq<Transaction>, more: seq<Transaction>, kind: string)
    ensures KindSum(rows + more, kind) == KindSum(rows, kind) + KindSum(more, kind)
    decreases |more|
  {
    if more == [] {
      assert rows + more == rows;
    } else {
      var init := more[..|more| - 1];
      assert (rows + more)[..|rows + more| - 1] == rows + init;
      assert (rows + more)[|rows + more| - 1] == more[|more| - 1];
      KindSumAppend(rows, init, kind);
    }
  }
}
