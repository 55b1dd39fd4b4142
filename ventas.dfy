/** The completed-sales page (`VentasCompletadas`): completed orders grouped
    by calendar day and, within a day, by product, each product summarised
    by name, quantity and amount, and the days listed newest first. The
    calendar day of a timestamp is the parameter `dia`, standing for the
    locale date string used as the grouping key. */
module Ventas {
  import opened Secuencias

  /** A stored order (a document of the `pedidos` collection) as the sales
      and chart pages read it. It is the same record as `Pedidos.Item`, seen
      through the fields these pages use: they read the `fecha` timestamp,
      which the order screen does not use, and do not read the id, the
      table or the tag. */
  datatype PedidoGuardado = PedidoGuardado(
    idProducto: string,
    nombre: string,
    precio: int,
    cantidad: int,
    completado: Option<bool>,
    fecha: int)

  /** `pedido.completado` is truthy. */
  predicate Completado(p: PedidoGuardado) {
    p.completado == Some(true)
  }

  function Completados(s: seq<PedidoGuardado>): seq<PedidoGuardado> {
    Filter(s, Completado)
  }

  function DiaDe(dia: int -> int): PedidoGuardado -> int {
    (p: PedidoGuardado) => dia(p.fecha)
  }

  function ProductoDe(p: PedidoGuardado): string {
    p.idProducto
  }

  function ImporteDe(p: PedidoGuardado): int {
    p.precio * p.cantidad
  }

  function CantidadDe(p: PedidoGuardado): int {
    p.cantidad
  }

  /** The completed orders grouped by calendar day (`Object.values(Object.groupBy(...))`). */
  function PorDia(s: seq<PedidoGuardado>, dia: int -> int): (r: seq<seq<PedidoGuardado>>)
    ensures forall i :: 0 <= i < |r| ==> |r[i]| > 0
  {
    GroupByPartition(Completados(s), DiaDe(dia));
    GroupBy(Completados(s), DiaDe(dia))
  }

  /** One line of a day: a product's name, amount, date and quantity. */
  datatype Resumen = Resumen(nombre: string, total: int, fecha: int, cantidad: int)

  /** The line for the orders of one product on one day; name and date come
      from the first of them. */
  function Resumir(h: seq<PedidoGuardado>): Resumen
    requires |h| > 0
  {
    Resumen(h[0].nombre, SumBy(h, ImporteDe), h[0].fecha, SumBy(h, CantidadDe))
  }

  function Resumenes(hs: seq<seq<PedidoGuardado>>): (r: seq<Resumen>)
    requires forall i :: 0 <= i < |hs| ==> |hs[i]| > 0
    ensures |r| == |hs|
    ensures forall i :: 0 <= i < |hs| ==> r[i] == Resumir(hs[i])
    decreases |hs|
  {
    if |hs| == 0 then [] else [Resumir(hs[0])] + Resumenes(hs[1..])
  }

  /** The products of a day: its orders grouped by `idProducto`. */
  function Productos(g: seq<PedidoGuardado>): seq<seq<PedidoGuardado>> {
    GroupBy(g, ProductoDe)
  }

  /** A day's lines: its orders grouped by `idProducto`, one line per product. */
  function ResumenDia(g: seq<PedidoGuardado>): seq<Resumen> {
    GroupByPartition(g, ProductoDe);
    Resumenes(Productos(g))
  }

  function Dias(gs: seq<seq<PedidoGuardado>>): (r: seq<seq<Resumen>>)
    ensures |r| == |gs|
    ensures forall i :: 0 <= i < |gs| ==> r[i] == ResumenDia(gs[i])
    decreases |gs|
  {
    if |gs| == 0 then [] else [ResumenDia(gs[0])] + Dias(gs[1..])
  }

  /** The sort key of a day: newest first. */
  function FechaNegada(d: seq<Resumen>): int {
    if |d| == 0 then 0 else -d[0].fecha
  }

  /** The grouping `useEffect`: nothing while the orders are not loaded
      (`None`), else the days' lines sorted newest first. */
  function Ventas(pedidos: Option<seq<PedidoGuardado>>, dia: int -> int): (r: Option<seq<seq<Resumen>>>)
    ensures r.None? <==> pedidos.None?
    ensures r.Some? ==> |r.value| == |PorDia(pedidos.value, dia)| && SortedBy(r.value, FechaNegada)
  {
    match pedidos
    case None => None
    case Some(s) => Some(SortBy(Dias(PorDia(s, dia)), FechaNegada))
  }

  function TotalDe(e: Resumen): int {
    e.total
  }

  /** The "Venta total" under a day. */
  function VentaTotal(d: seq<Resumen>): int {
    SumBy(d, TotalDe)
  }

  // ---------------------------------------------------------------------------
  // Properties

  /** Orders that are not completed never reach the summary: dropping one
      anywhere leaves the result as it was. */
  lemma {:induction false} SoloCompletados(a: seq<PedidoGuardado>, p: PedidoGuardado, b: seq<PedidoGuardado>, dia: int -> int)
    requires !Completado(p)
    ensures Ventas(Some(a + [p] + b), dia) == Ventas(Some(a + b), dia)
  {
    var ap := a + [p];
    FilterAppend(ap, b, Completado);
    FilterAppend(a, [p], Completado);
    FilterAppend(a, b, Completado);
    assert Filter([p], Completado) == [];
    assert Filter(ap, Completado) == Filter(a, Completado);
    assert Completados(a + [p] + b) == Completados(a + b);
  }

  /** The days split the completed orders, and the products split each day:
      every group is non-empty and holds every order with its key, in order. */
  lemma {:induction false} DiasYProductosParticionan(s: seq<PedidoGuardado>, dia: int -> int)
    ensures Partition(Completados(s), PorDia(s, dia), DiaDe(dia))
    ensures forall i :: 0 <= i < |PorDia(s, dia)| ==>
      Partition(PorDia(s, dia)[i], Productos(PorDia(s, dia)[i]), ProductoDe)
  {
    var ds := PorDia(s, dia);
    GroupByPartition(Completados(s), DiaDe(dia));
    forall i | 0 <= i < |ds| ensures Partition(ds[i], Productos(ds[i]), ProductoDe) {
      GroupByPartition(ds[i], ProductoDe);
    }
  }

  /** Every completed order lands in some (day, product) group ... */
  lemma {:induction false} PedidoEnUnGrupo(s: seq<PedidoGuardado>, dia: int -> int, p: PedidoGuardado)
    requires p in Completados(s)
    ensures exists i, j ::
      0 <= i < |PorDia(s, dia)| && 0 <= j < |Productos(PorDia(s, dia)[i])| && p in Productos(PorDia(s, dia)[i])[j]
  {
    var ds := PorDia(s, dia);
    InSomeGroup(Completados(s), DiaDe(dia), p);
    var i :| 0 <= i < |ds| && p in ds[i];
    var g := ds[i];
    InSomeGroup(g, ProductoDe, p);
    var j :| 0 <= j < |Productos(g)| && p in Productos(g)[j];
  }

  /** ... and in one only. */
  lemma {:induction false} GrupoUnico(s: seq<PedidoGuardado>, dia: int -> int, p: PedidoGuardado, i: nat, j: nat, i2: nat, j2: nat)
    requires i < |PorDia(s, dia)| && j < |Productos(PorDia(s, dia)[i])| && p in Productos(PorDia(s, dia)[i])[j]
    requires i2 < |PorDia(s, dia)| && j2 < |Productos(PorDia(s, dia)[i2])| && p in Productos(PorDia(s, dia)[i2])[j2]
    ensures i == i2 && j == j2
  {
    var ds := PorDia(s, dia);
    DiasYProductosParticionan(s, dia);
    var h, h2 := Productos(ds[i])[j], Productos(ds[i2])[j2];
    assert h == FilterKey(ds[i], ProductoDe, h[0].idProducto);
    assert h2 == FilterKey(ds[i2], ProductoDe, h2[0].idProducto);
    PartitionUnique(Completados(s), ds, DiaDe(dia), p, i, i2);
    PartitionUnique(ds[i], Productos(ds[i]), ProductoDe, p, j, j2);
  }

  /** Within a day, product lines follow the order in which each product
      first appears among that day's orders. */
  lemma {:induction false} ProductosEnOrden(g: seq<PedidoGuardado>, i: nat, j: nat)
    requires i < j < |GroupBy(g, ProductoDe)|
    ensures |GroupBy(g, ProductoDe)[i]| > 0 && |GroupBy(g, ProductoDe)[j]| > 0
    ensures GroupBy(g, ProductoDe)[i][0].idProducto in MapKey(g, ProductoDe)
         && GroupBy(g, ProductoDe)[j][0].idProducto in MapKey(g, ProductoDe)
    ensures FirstIndex(MapKey(g, ProductoDe), GroupBy(g, ProductoDe)[i][0].idProducto)
          < FirstIndex(MapKey(g, ProductoDe), GroupBy(g, ProductoDe)[j][0].idProducto)
  {
    GroupByOrder(g, ProductoDe, i, j);
  }

  /** Each line of a day is, for some product, the sum of quantities and of
      price times quantity over that day's orders of the product, with name
      and date of the first of them. */
  lemma {:induction false} LineaPorProducto(g: seq<PedidoGuardado>, j: nat)
    requires j < |ResumenDia(g)|
    ensures exists k ::
      && |FilterKey(g, ProductoDe, k)| > 0
      && ResumenDia(g)[j].cantidad == SumBy(FilterKey(g, ProductoDe, k), CantidadDe)
      && ResumenDia(g)[j].total == SumBy(FilterKey(g, ProductoDe, k), ImporteDe)
      && ResumenDia(g)[j].nombre == FilterKey(g, ProductoDe, k)[0].nombre
      && ResumenDia(g)[j].fecha == FilterKey(g, ProductoDe, k)[0].fecha
  {
    GroupByPartition(g, ProductoDe);
    var h := GroupBy(g, ProductoDe)[j];
    assert h == FilterKey(g, ProductoDe, h[0].idProducto);
  }

  /** A day's "Venta total" is the amount of all its completed orders. */
  lemma {:induction false} VentaTotalDia(g: seq<PedidoGuardado>)
    ensures VentaTotal(ResumenDia(g)) == SumBy(g, ImporteDe)
  {
    var hs := GroupBy(g, ProductoDe);
    GroupByPartition(g, ProductoDe);
    PartitionSum(g, hs, ProductoDe, ImporteDe);
    TotalesDeGrupos(hs);
  }

  lemma {:induction false} TotalesDeGrupos(hs: seq<seq<PedidoGuardado>>)
    requires forall i :: 0 <= i < |hs| ==> |hs[i]| > 0
    ensures VentaTotal(Resumenes(hs)) == SumGroups(hs, ImporteDe)
    decreases |hs|
  {
    if |hs| > 0 {
      TotalesDeGrupos(hs[1..]);
      assert Resumenes(hs)[1..] == Resumenes(hs[1..]);
    }
  }

  /** A day with orders has at least one line. */
  lemma {:induction false} ResumenDiaNoVacio(g: seq<PedidoGuardado>)
    requires |g| > 0
    ensures |ResumenDia(g)| > 0
  {
    GroupByPartition(g, ProductoDe);
  }

  /** Every day built from the grouped orders has at least one line. */
  lemma {:induction false} DiasNoVacios(gs: seq<seq<PedidoGuardado>>)
    requires forall k :: 0 <= k < |gs| ==> |gs[k]| > 0
    ensures forall k :: 0 <= k < |Dias(gs)| ==> |Dias(gs)[k]| > 0
  {
    forall k | 0 <= k < |Dias(gs)| ensures |Dias(gs)[k]| > 0 {
      ResumenDiaNoVacio(gs[k]);
    }
  }

  /** Reordering keeps every member non-empty. */
  lemma {:induction false} ReordenNoVacios(r: seq<seq<Resumen>>, d: seq<seq<Resumen>>)
    requires multiset(r) == multiset(d)
    requires forall k :: 0 <= k < |d| ==> |d[k]| > 0
    ensures forall i :: 0 <= i < |r| ==> |r[i]| > 0
  {
    forall i | 0 <= i < |r| ensures |r[i]| > 0 {
      assert r[i] in multiset(d);
      var k :| 0 <= k < |d| && d[k] == r[i];
    }
  }

  /** Every day listed on the page has at least one line. */
  lemma {:induction false} DiasConLineas(s: seq<PedidoGuardado>, dia: int -> int)
    ensures forall i :: 0 <= i < |Ventas(Some(s), dia).value| ==> |Ventas(Some(s), dia).value[i]| > 0
  {
    var gs := PorDia(s, dia);
    DiasNoVacios(gs);
    ReordenNoVacios(Ventas(Some(s), dia).value, Dias(gs));
  }

  /** The days come newest first, and they are the grouped days reordered;
      every day listed has at least one line. */
  lemma {:induction false} DiasMasRecientesPrimero(s: seq<PedidoGuardado>, dia: int -> int)
    ensures var r := Ventas(Some(s), dia).value;
      && multiset(r) == multiset(Dias(PorDia(s, dia)))
      && (forall i :: 0 <= i < |r| ==> |r[i]| > 0)
      && forall i, j :: 0 <= i < j < |r| ==> r[i][0].fecha >= r[j][0].fecha
  {
    var r: seq<seq<Resumen>> := Ventas(Some(s), dia).value;
    DiasConLineas(s, dia);
    forall i, j | 0 <= i < j < |r| ensures r[i][0].fecha >= r[j][0].fecha {
      assert FechaNegada(r[i]) <= FechaNegada(r[j]);
    }
  }

  /** The empty-state message is shown exactly when no order is completed. */
  lemma {:induction false} VacioSinCompletados(s: seq<PedidoGuardado>, dia: int -> int)
    ensures |Ventas(Some(s), dia).value| == 0 <==> Completados(s) == []
  {
    GroupByPartition(Completados(s), DiaDe(dia));
  }

  lemma {:induction false} VentaTotalDias(gs: seq<seq<PedidoGuardado>>)
    ensures SumBy(Dias(gs), VentaTotal) == SumGroups(gs, ImporteDe)
    decreases |gs|
  {
    if |gs| > 0 {
      VentaTotalDias(gs[1..]);
      VentaTotalDia(gs[0]);
      assert Dias(gs)[1..] == Dias(gs[1..]);
    }
  }

  /** Adding up the "Venta total" of every listed day gives the amount of all
      completed orders. */
  lemma {:induction false} TotalGeneral(s: seq<PedidoGuardado>, dia: int -> int)
    ensures SumBy(Ventas(Some(s), dia).value, VentaTotal) == SumBy(Completados(s), ImporteDe)
  {
    var gs := PorDia(s, dia);
    SortBySum(Dias(gs), FechaNegada, VentaTotal);
    VentaTotalDias(gs);
    GroupByPartition(Completados(s), DiaDe(dia));
    PartitionSum(Completados(s), gs, DiaDe(dia), ImporteDe);
  }
}
