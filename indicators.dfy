/**
 * The "Indicadores Gerais" of the "Comparar Meses" page: days in the table, days
 * worked, days off, mean daily revenue over worked days and days whose target was met.
 */
module Indicators {
  import opened Optional
  import opened Records
  import opened Seqs
  import opened Aggregate

  /** The four figures the page prints, plus the row count they are derived from. */
  datatype Figures = Figures(
    totalDays: nat,            // total_dias
    daysWorked: nat,           // dias_trabalhados
    daysOff: nat,              // dias_nao_trabalhados
    meanRevenue: Option<real>, // lucro_medio (None where pandas yields NaN)
    targetsMet: nat            // metas_batidas
  )

  function IsDayOff(r: Record): bool
  {
    !r.worked
  }

  /** The mask `(Trabalhou == True) & (Valor Recebido >= Meta)`. */
  function MetTarget(r: Record): bool
  {
    r.worked && r.revenue >= r.target
  }

  /** `Valor Recebido.mean()` over worked rows; there is no mean when no day was worked. */
  function MeanRevenue(t: seq<Record>): (m: Option<real>)
    ensures m == None <==> Worked(t) == []
  {
    var worked := Worked(t);
    if |worked| == 0 then None else Some(Gross(worked) / |worked| as real)
  }

  function Summarize(t: seq<Record>): (f: Figures)
    ensures f.totalDays == |t| && f.daysWorked <= f.totalDays
  {
    var worked := |Worked(t)|;
    Figures(|t|, worked, |t| - worked, MeanRevenue(t), |Filter(t, MetTarget)|)
  }

  /** Days worked and days off partition the table: days off are exactly the rows not marked as worked. */
  lemma DaysPartition(t: seq<Record>)
    ensures Summarize(t).daysWorked + Summarize(t).daysOff == Summarize(t).totalDays
    ensures Summarize(t).daysOff == |Filter(t, IsDayOff)|
  {
    FilterSplit(t, IsWorked, IsDayOff);
  }

  /** A day whose target was met is a worked day. */
  lemma TargetsBound(t: seq<Record>)
    ensures Summarize(t).targetsMet <= Summarize(t).daysWorked
  {
    FilterWeaker(t, MetTarget, IsWorked);
  }

  /** The mean exists exactly when some day was worked, and then it times the days worked is the gross revenue of those days. */
  lemma MeanDefined(t: seq<Record>)
    ensures Summarize(t).meanRevenue == None <==> Summarize(t).daysWorked == 0
    ensures Summarize(t).meanRevenue != None ==>
              Summarize(t).meanRevenue.value * Summarize(t).daysWorked as real == Gross(Worked(t))
  {
  }

  /** The mean lies between the smallest and the largest revenue of a worked day. */
  lemma MeanBounds(t: seq<Record>, lo: real, hi: real)
    requires forall r :: r in t && r.worked ==> lo <= r.revenue <= hi
    ensures MeanRevenue(t) != None ==> lo <= MeanRevenue(t).value <= hi
  {
    var worked := Worked(t);
    forall r | r in worked ensures lo <= Revenue(r) <= hi {
      FilterMembers(t, IsWorked, r);
    }
    SumBounds(worked, Revenue, lo, hi);
    if |worked| > 0 {
      QuotientBounds(Gross(worked), |worked| as real, lo, hi);
    }
  }

  lemma QuotientBounds(g: real, n: real, lo: real, hi: real)
    requires n > 0.0 && lo * n <= g <= hi * n
    ensures lo <= g / n <= hi
  {
    var m := g / n;
    assert g == m * n;
  }

  /** Saving a day off adds one day and one day off, and leaves every other figure as it was. */
  lemma AppendDayOff(t: seq<Record>, date: string)
    ensures Summarize(t + [DayOffRecord(date)])
         == Summarize(t).(totalDays := |t| + 1, daysOff := Summarize(t).daysOff + 1)
  {
    var r := DayOffRecord(date);
    FilterSnoc(t, r, IsWorked);
    FilterSnoc(t, r, MetTarget);
    assert Worked(t + [r]) == Worked(t);
    assert Filter(t + [r], MetTarget) == Filter(t, MetTarget);
  }

  /** Saving a worked day adds one worked day, and one met target when its revenue reaches its target. */
  lemma AppendWorkedDay(t: seq<Record>, r: Record)
    requires r.worked
    ensures Summarize(t + [r]).totalDays == |t| + 1
    ensures Summarize(t + [r]).daysWorked == Summarize(t).daysWorked + 1
    ensures Summarize(t + [r]).daysOff == Summarize(t).daysOff
    ensures Summarize(t + [r]).targetsMet == Summarize(t).targetsMet + (if r.revenue >= r.target then 1 else 0)
    ensures Summarize(t + [r]).meanRevenue == Some(Gross(Worked(t) + [r]) / (|Worked(t)| + 1) as real)
  {
    FilterSnoc(t, r, IsWorked);
    FilterSnoc(t, r, MetTarget);
  }
}
