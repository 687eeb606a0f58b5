/**
 * The "Comparar Meses" bar chart: worked rows grouped by their `Mês` key, one bar
 * per month in ascending month order, each carrying that month's net profit.
 */
module Series {
  import opened Records
  import opened Seqs
  import opened Ordering
  import opened Aggregate

  /** One bar of the chart. */
  datatype Bar = Bar(month: string, profit: real)

  function BarProfit(b: Bar): real
  {
    b.profit
  }

  function InMonth(month: string): Record -> bool
  {
    (r: Record) => MonthKey(r) == month
  }

  /** The group of `groupby("Mês")` whose key is `month`. */
  function Group(rows: seq<Record>, month: string): (g: seq<Record>)
    ensures |g| <= |rows|
    ensures forall r :: r in g ==> r in rows && MonthKey(r) == month
  {
    var g := Filter(rows, InMonth(month));
    forall r | r in g ensures r in rows && MonthKey(r) == month {
      FilterMembers(rows, InMonth(month), r);
    }
    g
  }

  /** `apply(lambda df: df["Valor Recebido"].sum() - df[categorias].sum().sum())` over the listed keys. */
  function Bars(keys: seq<string>, rows: seq<Record>): (bars: seq<Bar>)
    ensures |bars| == |keys|
    ensures forall i :: 0 <= i < |keys| ==> bars[i].month == keys[i]
  {
    if keys == [] then [] else [Bar(keys[0], Profit(Group(rows, keys[0])))] + Bars(keys[1..], rows)
  }

  /** The `Mês` value of every row. */
  function MonthKeys(rows: seq<Record>): seq<string>
  {
    seq(|rows|, i requires 0 <= i < |rows| => MonthKey(rows[i]))
  }

  /** The months that label the bars, in chart order. */
  function Months(bars: seq<Bar>): seq<string>
  {
    seq(|bars|, i requires 0 <= i < |bars| => bars[i].month)
  }

  /** `df_mensal`: `groupby` lists its keys in ascending order, so the bars run from the oldest month to the newest. */
  function MonthlySeries(t: seq<Record>): seq<Bar>
  {
    var worked := Worked(t);
    Bars(SortUnique(MonthKeys(worked)), worked)
  }

  lemma {:induction false} BarsAt(keys: seq<string>, rows: seq<Record>, i: nat)
    requires i < |keys|
    ensures |Bars(keys, rows)| == |keys|
    ensures Bars(keys, rows)[i] == Bar(keys[i], Profit(Group(rows, keys[i])))
  {
    if i > 0 {
      BarsAt(keys[1..], rows, i - 1);
    } else {
      BarsLength(keys, rows);
    }
  }

  lemma {:induction false} BarsLength(keys: seq<string>, rows: seq<Record>)
    ensures |Bars(keys, rows)| == |keys|
  {
    if keys != [] {
      BarsLength(keys[1..], rows);
    }
  }

  lemma MonthKeysElems(rows: seq<Record>)
    ensures Elems(MonthKeys(rows)) == set r | r in rows :: MonthKey(r)
  {
    forall x | x in Elems(MonthKeys(rows)) ensures x in set r | r in rows :: MonthKey(r) {
      var i :| 0 <= i < |rows| && MonthKeys(rows)[i] == x;
      assert rows[i] in rows;
    }
    forall r | r in rows ensures MonthKey(r) in Elems(MonthKeys(rows)) {
      var i :| 0 <= i < |rows| && rows[i] == r;
      assert MonthKeys(rows)[i] == MonthKey(r);
    }
  }

  lemma MonthsOfBars(keys: seq<string>, rows: seq<Record>)
    ensures Months(Bars(keys, rows)) == keys
  {
    BarsLength(keys, rows);
    forall i | 0 <= i < |keys| ensures Months(Bars(keys, rows))[i] == keys[i] {
      BarsAt(keys, rows, i);
    }
  }

  /**
   * The chart has one bar per month in which some day was worked, in strictly
   * ascending month order, and no bar for a month without worked days.
   */
  lemma SeriesMonths(t: seq<Record>)
    ensures StrictlyAscending(Months(MonthlySeries(t)))
    ensures Elems(Months(MonthlySeries(t))) == set r | r in t && r.worked :: MonthKey(r)
  {
    var worked := Worked(t);
    var keys := SortUnique(MonthKeys(worked));
    MonthsOfBars(keys, worked);
    MonthKeysElems(worked);
    forall r ensures r in worked <==> r in t && r.worked {
      FilterMembers(t, IsWorked, r);
    }
  }

  /** With fixed-width keys, the group of a worked month is the subset that "Resumo Mensal" shows for it. */
  lemma GroupIsMonthSubset(t: seq<Record>, month: string)
    requires |month| == MonthWidth
    ensures Group(Worked(t), month) == Select(t, month)
  {
    forall r: Record ensures InPeriod(month)(r) == (IsWorked(r) && InMonth(month)(r)) {
      TakeEquals(r.date, MonthWidth, month);
    }
    FilterFilter(t, IsWorked, InMonth(month), InPeriod(month));
  }

  /**
   * Each bar carries the net profit of the worked rows of its month, a group that
   * is never empty; for a seven-character month it is the "Lucro Líquido" that
   * "Resumo Mensal" shows for that month.
   */
  lemma SeriesProfits(t: seq<Record>, i: nat)
    requires i < |MonthlySeries(t)|
    ensures MonthlySeries(t)[i].profit == Profit(Group(Worked(t), MonthlySeries(t)[i].month))
    ensures Group(Worked(t), MonthlySeries(t)[i].month) != []
    ensures |MonthlySeries(t)[i].month| == MonthWidth ==>
              MonthlySeries(t)[i].profit == Profit(Select(t, MonthlySeries(t)[i].month))
  {
    var worked := Worked(t);
    var keys := SortUnique(MonthKeys(worked));
    BarsLength(keys, worked);
    BarsAt(keys, worked, i);
    var m := keys[i];
    MonthKeysElems(worked);
    assert m in Elems(keys);
    var r :| r in worked && MonthKey(r) == m;
    FilterMembers(worked, InMonth(m), r);
    if |m| == MonthWidth {
      GroupIsMonthSubset(t, m);
    }
  }

  lemma ProfitSingle(r: Record)
    ensures Profit([r]) == RowProfit(r)
    ensures Profit([]) == 0.0
  {
    ProfitByRow([r]);
    ProfitByRow([]);
  }

  lemma {:induction false} BarsNoRows(keys: seq<string>)
    ensures Sum(Bars(keys, []), BarProfit) == 0.0
  {
    if keys != [] {
      BarsNoRows(keys[1..]);
      assert Group([], keys[0]) == [];
      ProfitByRow([]);
    }
  }

  /** Adding one row in front adds its profit to the one bar of its month, if that month is listed. */
  lemma {:induction false} BarsCons(keys: seq<string>, w: Record, rows: seq<Record>)
    requires Distinct(keys)
    ensures Sum(Bars(keys, [w] + rows), BarProfit)
         == (if MonthKey(w) in keys then RowProfit(w) else 0.0) + Sum(Bars(keys, rows), BarProfit)
  {
    if keys != [] {
      var k := keys[0];
      assert Distinct(keys[1..]);
      BarsCons(keys[1..], w, rows);
      var head := if MonthKey(w) == k then [w] else [];
      assert Group([w] + rows, k) == head + Group(rows, k) by {
        assert ([w] + rows)[0] == w && ([w] + rows)[1..] == rows;
      }
      ProfitConcat(head, Group(rows, k));
      ProfitSingle(w);
      assert MonthKey(w) in keys <==> MonthKey(w) == k || MonthKey(w) in keys[1..] by {
        assert keys == [k] + keys[1..];
      }
      if MonthKey(w) == k {
        assert MonthKey(w) !in keys[1..];
      }
    }
  }

  /** Bars over distinct keys that cover the month of every row add up to the net profit of all the rows. */
  lemma {:induction false} BarsTotal(keys: seq<string>, rows: seq<Record>)
    requires Distinct(keys)
    requires forall r :: r in rows ==> MonthKey(r) in keys
    ensures Sum(Bars(keys, rows), BarProfit) == Profit(rows)
  {
    if rows == [] {
      BarsNoRows(keys);
      ProfitByRow([]);
    } else {
      var w := rows[0];
      assert rows == [w] + rows[1..];
      BarsTotal(keys, rows[1..]);
      BarsCons(keys, w, rows[1..]);
      ProfitConcat([w], rows[1..]);
      ProfitSingle(w);
    }
  }

  /** The bars add up to the net profit of all worked rows. */
  lemma SeriesTotal(t: seq<Record>)
    ensures Sum(MonthlySeries(t), BarProfit) == Profit(Worked(t))
  {
    var worked := Worked(t);
    var keys := SortUnique(MonthKeys(worked));
    AscendingDistinct(keys);
    MonthKeysElems(worked);
    forall r | r in worked ensures MonthKey(r) in keys {
      assert MonthKey(r) in Elems(keys);
    }
    BarsTotal(keys, worked);
  }

  /** Saving a day off leaves the chart as it was. */
  lemma SeriesDayOff(t: seq<Record>, date: string)
    ensures MonthlySeries(t + [DayOffRecord(date)]) == MonthlySeries(t)
  {
    FilterSnoc(t, DayOffRecord(date), IsWorked);
    assert Worked(t + [DayOffRecord(date)]) == Worked(t);
  }

  function BarInYear(year: string): Bar -> bool
  {
    (b: Bar) => year <= b.month
  }

  function KeyInYear(year: string): string -> bool
  {
    (k: string) => year <= k
  }

  lemma {:induction false} BarsFilter(keys: seq<string>, rows: seq<Record>, year: string)
    ensures Filter(Bars(keys, rows), BarInYear(year)) == Bars(Filter(keys, KeyInYear(year)), rows)
  {
    if keys != [] {
      BarsFilter(keys[1..], rows, year);
      var b := Bar(keys[0], Profit(Group(rows, keys[0])));
      var bs := Bars(keys, rows);
      assert bs == [b] + Bars(keys[1..], rows);
      assert bs[0] == b && bs[1..] == Bars(keys[1..], rows);
      var ks := Filter(keys, KeyInYear(year));
      if year <= keys[0] {
        assert ks == [keys[0]] + Filter(keys[1..], KeyInYear(year));
        assert ks[0] == keys[0] && ks[1..] == Filter(keys[1..], KeyInYear(year));
        assert Filter(bs, BarInYear(year)) == [b] + Filter(bs[1..], BarInYear(year));
      } else {
        assert ks == Filter(keys[1..], KeyInYear(year));
        assert Filter(bs, BarInYear(year)) == Filter(bs[1..], BarInYear(year));
      }
    }
  }

  lemma {:induction false} BarsSameGroups(keys: seq<string>, rows: seq<Record>, rows': seq<Record>)
    requires forall k :: k in keys ==> Group(rows, k) == Group(rows', k)
    ensures Bars(keys, rows) == Bars(keys, rows')
  {
    if keys != [] {
      BarsSameGroups(keys[1..], rows, rows');
    }
  }

  lemma {:induction false} FilterDistinct(keys: seq<string>, keep: string -> bool)
    requires Distinct(keys)
    ensures Distinct(Filter(keys, keep))
  {
    if keys != [] {
      FilterDistinct(keys[1..], keep);
      var rest := Filter(keys[1..], keep);
      FilterMembers(keys[1..], keep, keys[0]);
      var r := Filter(keys, keep);
      if keep(keys[0]) {
        forall i, j | 0 <= i < j < |r| ensures r[i] != r[j] {
          if i == 0 {
            assert r[j] == rest[j - 1];
          } else {
            assert r[i] == rest[i - 1] && r[j] == rest[j - 1];
          }
        }
      }
    }
  }

  /**
   * The bars of the months of one year add up to that year's "Lucro Total do Ano":
   * the annual summary and the monthly comparison agree.
   */
  lemma SeriesYear(t: seq<Record>, year: string)
    requires |year| <= MonthWidth
    ensures Sum(Filter(MonthlySeries(t), BarInYear(year)), BarProfit) == Profit(Select(t, year))
  {
    var worked := Worked(t);
    var keys := SortUnique(MonthKeys(worked));
    var yearKeys := Filter(keys, KeyInYear(year));
    var inYear := (r: Record) => year <= MonthKey(r);
    var yearRows := Filter(worked, inYear);
    BarsFilter(keys, worked, year);
    forall k | k in yearKeys ensures Group(worked, k) == Group(yearRows, k) {
      FilterMembers(keys, KeyInYear(year), k);
      var both := (r: Record) => inYear(r) && InMonth(k)(r);
      FilterFilter(worked, inYear, InMonth(k), both);
      FilterAgree(worked, InMonth(k), both);
    }
    BarsSameGroups(yearKeys, worked, yearRows);
    AscendingDistinct(keys);
    FilterDistinct(keys, KeyInYear(year));
    MonthKeysElems(worked);
    forall r | r in yearRows ensures MonthKey(r) in yearKeys {
      FilterMembers(worked, inYear, r);
      assert MonthKey(r) in Elems(keys);
      FilterMembers(keys, KeyInYear(year), MonthKey(r));
    }
    BarsTotal(yearKeys, yearRows);
    SelectYearByMonthKey(t, year);
  }
}
