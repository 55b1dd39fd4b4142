/** The expenses page (`Gastos`): expenses grouped by calendar day, the days
    listed oldest first, each with its total. The calendar day of a
    timestamp is the parameter `dia`. */
module Gastos {
  import opened Secuencias

  datatype Gasto = Gasto(id: string, gasto: string, costo: int, fecha: int)

  function DiaDeGasto(dia: int -> int): Gasto -> int {
    (g: Gasto) => dia(g.fecha)
  }

  /** The sort key of a day: the date of its first expense. */
  function PrimeraFecha(g: seq<Gasto>): int {
    if |g| == 0 then 0 else g[0].fecha
  }

  /** The grouping `useEffect`: nothing until the expenses are loaded
      (`None`), else `Object.values(Object.groupBy(...))` sorted by the
      first expense's date, oldest first. */
  function AgruparGastos(gastos: Option<seq<Gasto>>, dia: int -> int): (r: Option<seq<seq<Gasto>>>)
    ensures r.None? <==> gastos.None?
    ensures r.Some? ==> SortedBy(r.value, PrimeraFecha)
  {
    match gastos
    case None => None
    case Some(s) => Some(SortBy(GroupBy(s, DiaDeGasto(dia)), PrimeraFecha))
  }

  function CostoDe(g: Gasto): int {
    g.costo
  }

  /** The "Gasto total" under a day. */
  function GastoTotal(g: seq<Gasto>): (r: int)
    ensures (forall i :: 0 <= i < |g| ==> g[i].costo >= 0) ==> r >= 0
  {
    GastoNoNegativo(g);
    SumBy(g, CostoDe)
  }

  lemma {:induction false} GastoNoNegativo(g: seq<Gasto>)
    ensures (forall i :: 0 <= i < |g| ==> g[i].costo >= 0) ==> SumBy(g, CostoDe) >= 0
  {
    if forall i :: 0 <= i < |g| ==> g[i].costo >= 0 {
      assert forall i :: 0 <= i < |g| ==> CostoDe(g[i]) >= 0;
      SumByNonNegative(g, CostoDe);
    }
  }

  /** Every expense is in exactly one non-empty day, each day holding every
      expense of that day in input order, and the days oldest first. */
  lemma {:induction false} GastosPorDia(s: seq<Gasto>, dia: int -> int)
    ensures Partition(s, AgruparGastos(Some(s), dia).value, DiaDeGasto(dia))
    ensures forall i, j :: 0 <= i < j < |AgruparGastos(Some(s), dia).value| ==>
      AgruparGastos(Some(s), dia).value[i][0].fecha <= AgruparGastos(Some(s), dia).value[j][0].fecha
  {
    var gs := GroupBy(s, DiaDeGasto(dia));
    var r: seq<seq<Gasto>> := AgruparGastos(Some(s), dia).value;
    GroupByPartition(s, DiaDeGasto(dia));
    PartitionPermuted(s, gs, r, DiaDeGasto(dia));
    forall i, j | 0 <= i < j < |r| ensures r[i][0].fecha <= r[j][0].fecha {
      assert PrimeraFecha(r[i]) <= PrimeraFecha(r[j]);
    }
  }

  /** An expense lies in one day only. */
  lemma {:induction false} GastoEnUnDia(s: seq<Gasto>, dia: int -> int, x: Gasto, i: nat, j: nat)
    requires i < |AgruparGastos(Some(s), dia).value| && j < |AgruparGastos(Some(s), dia).value|
    requires x in AgruparGastos(Some(s), dia).value[i] && x in AgruparGastos(Some(s), dia).value[j]
    ensures i == j
  {
    GastosPorDia(s, dia);
    PartitionUnique(s, AgruparGastos(Some(s), dia).value, DiaDeGasto(dia), x, i, j);
  }

  /** The days' totals add up to the cost of all expenses. */
  lemma {:induction false} TotalDeGastos(s: seq<Gasto>, dia: int -> int)
    ensures SumBy(AgruparGastos(Some(s), dia).value, GastoTotal) == SumBy(s, CostoDe)
  {
    var gs := GroupBy(s, DiaDeGasto(dia));
    var r: seq<seq<Gasto>> := AgruparGastos(Some(s), dia).value;
    GroupByPartition(s, DiaDeGasto(dia));
    PartitionSum(s, gs, DiaDeGasto(dia), CostoDe);
    SortByGroupsSum(gs, PrimeraFecha, CostoDe);
    GroupTotals(r);
  }

  lemma {:induction false} GroupTotals(gs: seq<seq<Gasto>>)
    ensures SumBy(gs, GastoTotal) == SumGroups(gs, CostoDe)
    decreases |gs|
  {
    if |gs| > 0 {
      GroupTotals(gs[1..]);
    }
  }
}
