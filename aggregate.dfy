/**
 * The aggregations of the "Resumo Mensal" and "Resumo Anual" pages: the mask that
 * selects worked rows of a month or year, gross revenue, expenses (total and per
 * category), net profit, and the descending pickers of months and years.
 */
module Aggregate {
  import opened Records
  import opened Seqs
  import opened Ordering

  /** Width of the month key "YYYY-MM" (`str[:7]`). */
  const MonthWidth: nat := 7

  /** The derived `Mês` column: the first seven characters of the date. */
  function MonthKey(r: Record): (m: string)
    ensures m <= r.date
    ensures |m| == if |r.date| < MonthWidth then |r.date| else MonthWidth
  {
    Take(r.date, MonthWidth)
  }

  function IsWorked(r: Record): bool
  {
    r.worked
  }

  /** `dados[dados['Trabalhou'] == True]`. */
  function Worked(t: seq<Record>): (w: seq<Record>)
    ensures |w| <= |t|
    ensures forall r :: r in w ==> r in t && r.worked
  {
    var w := Filter(t, IsWorked);
    forall r | r in w ensures r in t && r.worked {
      FilterMembers(t, IsWorked, r);
    }
    w
  }

  /** The mask `Data.str.startswith(prefix) & (Trabalhou == True)`. */
  function InPeriod(prefix: string): Record -> bool
  {
    (r: Record) => prefix <= r.date && r.worked
  }

  /** The rows of the chosen month (`df_mes`) or year (`df_ano`). */
  function Select(t: seq<Record>, prefix: string): (s: seq<Record>)
    ensures |s| <= |t|
    ensures forall r :: r in s ==> r in t && r.worked && prefix <= r.date
  {
    var s := Filter(t, InPeriod(prefix));
    forall r | r in s ensures r in t && r.worked && prefix <= r.date {
      FilterMembers(t, InPeriod(prefix), r);
    }
    s
  }

  /** A row is in the period's subset exactly when it is a worked row of the table whose date starts with the prefix. */
  lemma SelectMembers(t: seq<Record>, prefix: string, r: Record)
    ensures r in Select(t, prefix) <==> r in t && r.worked && prefix <= r.date
  {
    FilterMembers(t, InPeriod(prefix), r);
  }

  /** The subset keeps the table's order: selecting from two parts of a table and concatenating is selecting from the whole. */
  lemma SelectConcat(a: seq<Record>, b: seq<Record>, prefix: string)
    ensures Select(a + b, prefix) == Select(a, prefix) + Select(b, prefix)
  {
    FilterConcat(a, b, InPeriod(prefix));
  }

  /**
   * Saving a row changes a period's subset only when the row is a worked day of
   * that period: it is then added last, and the period's net profit grows by the
   * row's profit.
   */
  lemma SelectAppend(t: seq<Record>, r: Record, prefix: string)
    ensures Select(t + [r], prefix) == Select(t, prefix) + (if r.worked && prefix <= r.date then [r] else [])
    ensures Profit(Select(t + [r], prefix))
         == Profit(Select(t, prefix)) + (if r.worked && prefix <= r.date then RowProfit(r) else 0.0)
  {
    FilterSnoc(t, r, InPeriod(prefix));
    var extra := if r.worked && prefix <= r.date then [r] else [];
    ProfitConcat(Select(t, prefix), extra);
    ProfitByRow(extra);
  }

  /**
   * A prefix of exactly seven characters selects the same rows as the `Mês` key:
   * a worked row starts with `month` exactly when its first seven characters are `month`.
   */
  lemma SelectMonth(t: seq<Record>, month: string, r: Record)
    requires |month| == MonthWidth
    ensures r in Select(t, month) <==> r in t && r.worked && MonthKey(r) == month
  {
    SelectMembers(t, month, r);
    TakeEquals(r.date, MonthWidth, month);
  }

  /** The year subset is the month subsets of that year put together: a year prefix of at most seven characters matches a row exactly when it matches its `Mês`. */
  lemma SelectYearByMonthKey(t: seq<Record>, year: string)
    requires |year| <= MonthWidth
    ensures Select(t, year) == Filter(Worked(t), (r: Record) => year <= MonthKey(r))
  {
    var inYear := (r: Record) => year <= MonthKey(r);
    forall r: Record ensures InPeriod(year)(r) == (IsWorked(r) && inYear(r)) {
      TakePrefix(r.date, MonthWidth, year);
    }
    FilterFilter(t, IsWorked, inYear, InPeriod(year));
  }

  /** Gross revenue, `Valor Recebido.sum()`. */
  function Gross(s: seq<Record>): real
  {
    Sum(s, Revenue)
  }

  function CostIn(c: Category): Record -> real
  {
    (r: Record) => Cost(r, c)
  }

  /** The column sum of one expense category. */
  function ColumnSum(s: seq<Record>, c: Category): real
  {
    Sum(s, CostIn(c))
  }

  /** The per-category sums `df[categorias].sum()`, in the order of `Categories`, that feed the pie chart. */
  function Breakdown(s: seq<Record>): (b: seq<real>)
    ensures |b| == |Categories|
  {
    seq(|Categories|, i requires 0 <= i < |Categories| => ColumnSum(s, Categories[i]))
  }

  function Total(xs: seq<real>): real
  {
    if xs == [] then 0.0 else xs[0] + Total(xs[1..])
  }

  /** Total expenses, `df[categorias].sum().sum()`: the total of the per-category sums. */
  function Expenses(s: seq<Record>): real
  {
    Total(Breakdown(s))
  }

  /** Net profit (`lucro_liquido`, `lucro_anual`): gross revenue minus total expenses. */
  function Profit(s: seq<Record>): real
  {
    Gross(s) - Expenses(s)
  }

  lemma TotalSix(xs: seq<real>)
    requires |xs| == 6
    ensures Total(xs) == xs[0] + xs[1] + xs[2] + xs[3] + xs[4] + xs[5]
  {
    assert Total(xs[5..]) == xs[5] by { assert xs[5..][1..] == []; }
    assert Total(xs[4..]) == xs[4] + Total(xs[5..]) by { assert xs[4..][1..] == xs[5..]; }
    assert Total(xs[3..]) == xs[3] + Total(xs[4..]) by { assert xs[3..][1..] == xs[4..]; }
    assert Total(xs[2..]) == xs[2] + Total(xs[3..]) by { assert xs[2..][1..] == xs[3..]; }
    assert Total(xs[1..]) == xs[1] + Total(xs[2..]) by { assert xs[1..][1..] == xs[2..]; }
  }

  /** Total expenses are the sum of the six slices of the pie chart, one per category. */
  lemma ExpensesByCategory(s: seq<Record>)
    ensures |Breakdown(s)| == |Categories|
    ensures Expenses(s) == ColumnSum(s, Fuel) + ColumnSum(s, Food) + ColumnSum(s, Attendant)
                         + ColumnSum(s, CarWash) + ColumnSum(s, Garage) + ColumnSum(s, Other)
  {
    TotalSix(Breakdown(s));
  }

  /** Summing the columns and then the column sums is summing every row's expenses. */
  lemma {:induction false} ExpensesByRow(s: seq<Record>)
    ensures Expenses(s) == Sum(s, RowExpense)
  {
    ExpensesByCategory(s);
    if s != [] {
      ExpensesByCategory(s[1..]);
      ExpensesByRow(s[1..]);
    }
  }

  /** Net profit is the sum of every row's revenue minus its expenses. */
  lemma ProfitByRow(s: seq<Record>)
    ensures Profit(s) == Sum(s, RowProfit)
  {
    ExpensesByRow(s);
    SumDifference(s, Revenue, RowExpense, RowProfit);
  }

  /** Gross revenue, expenses and net profit of two parts of a table add up to those of the whole. */
  lemma ProfitConcat(a: seq<Record>, b: seq<Record>)
    ensures Gross(a + b) == Gross(a) + Gross(b)
    ensures Expenses(a + b) == Expenses(a) + Expenses(b)
    ensures Profit(a + b) == Profit(a) + Profit(b)
  {
    SumConcat(a, b, Revenue);
    SumConcat(a, b, RowExpense);
    ExpensesByRow(a);
    ExpensesByRow(b);
    ExpensesByRow(a + b);
  }

  /** Rows whose numeric cells are non-negative give non-negative revenue and expenses, and each pie slice is a share of the total expenses. */
  lemma BreakdownShares(s: seq<Record>, i: nat)
    requires forall r :: r in s ==> NonNegative(r)
    requires i < |Categories|
    ensures Gross(s) >= 0.0
    ensures 0.0 <= Breakdown(s)[i] <= Expenses(s)
  {
    NonNegativeSum(s, Revenue);
    ExpensesByCategory(s);
    forall c: Category ensures ColumnSum(s, c) >= 0.0 {
      forall r | r in s ensures 0.0 <= CostIn(c)(r) {
        CostNonNegative(r, c);
      }
      NonNegativeSum(s, CostIn(c));
    }
  }

  lemma {:induction false} NonNegativeSum<T>(s: seq<T>, f: T -> real)
    requires forall x :: x in s ==> 0.0 <= f(x)
    ensures Sum(s, f) >= 0.0
  {
    if s != [] {
      NonNegativeSum(s[1..], f);
    }
  }

  /** The values of `Data.str[:n]`, one per row. */
  function Prefixes(t: seq<Record>, n: nat): seq<string>
  {
    seq(|t|, i requires 0 <= i < |t| => Take(t[i].date, n))
  }

  /**
   * `sorted(Data.str[:n].unique(), reverse=True)`: the picker of months (n = 7) or
   * years (n = 4). It lists every prefix that occurs in the table, each once, most
   * recent first, and is empty exactly when the table is.
   */
  function Choices(t: seq<Record>, n: nat): (r: seq<string>)
    ensures StrictlyDescending(r)
    ensures Elems(r) == set row | row in t :: Take(row.date, n)
    ensures r == [] <==> t == []
  {
    var ascending := SortUnique(Prefixes(t, n));
    ReverseAscending(ascending);
    assert Elems(Prefixes(t, n)) == set row | row in t :: Take(row.date, n) by {
      forall x | x in Elems(Prefixes(t, n)) ensures x in set row | row in t :: Take(row.date, n) {
        var i :| 0 <= i < |t| && Prefixes(t, n)[i] == x;
        assert t[i] in t;
      }
      forall row | row in t ensures Take(row.date, n) in Elems(Prefixes(t, n)) {
        var i :| 0 <= i < |t| && t[i] == row;
        assert Prefixes(t, n)[i] == Take(row.date, n);
      }
    }
    ElemsEmpty(Reverse(ascending));
    if t != [] then
      assert Take(t[0].date, n) in Elems(Reverse(ascending));
      Reverse(ascending)
    else
      Reverse(ascending)
  }

  /** Any strictly descending listing of the table's prefixes is the picker: its order is fully determined. */
  lemma ChoicesUnique(t: seq<Record>, n: nat, other: seq<string>)
    requires StrictlyDescending(other)
    requires Elems(other) == set row | row in t :: Take(row.date, n)
    ensures other == Choices(t, n)
  {
    var r := Choices(t, n);
    ReverseDescending(r);
    ReverseDescending(other);
    AscendingUnique(Reverse(r), Reverse(other));
    ReverseReverse(r);
    ReverseReverse(other);
  }

  /** When every date has at least `n` characters, each entry of the picker has exactly `n`. */
  lemma ChoicesWidth(t: seq<Record>, n: nat, choice: string)
    requires forall r :: r in t ==> |r.date| >= n
    requires choice in Choices(t, n)
    ensures |choice| == n
  {
    assert choice in Elems(Choices(t, n));
  }
}
