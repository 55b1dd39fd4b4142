/** A table card on the home page (`CardMesa`): occupied or free, a preview
    of the first two orders and the table total. */
module CardMesa {
  import opened Secuencias
  import opened Restaurante

  /** The status label of a card. */
  function EstadoMesa(m: Mesa): (r: string)
    ensures r == "Ocupada" || r == "Libre"
    ensures r == "Ocupada" <==> |m.ordenes| > 0
  {
    if |m.ordenes| > 0 then "Ocupada" else "Libre"
  }

  /** `ordenes.slice(0, 2)`. */
  function VistaPrevia(m: Mesa): (r: seq<Orden>)
    ensures |r| == if |m.ordenes| < 2 then |m.ordenes| else 2
    ensures r == m.ordenes[..|r|]
  {
    if |m.ordenes| < 2 then m.ordenes else m.ordenes[..2]
  }

  function ImporteOrden(o: Orden): int {
    o.precio * o.cantidad
  }

  /** The card total: price times quantity over all the table's orders. */
  function TotalMesa(m: Mesa): (r: int)
    ensures |m.ordenes| == 0 ==> r == 0
  {
    SumBy(m.ordenes, ImporteOrden)
  }

  /** The total counts the orders the preview leaves out as well. */
  lemma {:induction false} TotalIncluyeOcultas(m: Mesa)
    ensures TotalMesa(m) == SumBy(VistaPrevia(m), ImporteOrden)
                          + SumBy(m.ordenes[|VistaPrevia(m)|..], ImporteOrden)
  {
    var n := |VistaPrevia(m)|;
    assert m.ordenes == m.ordenes[..n] + m.ordenes[n..];
    SumByAppend(m.ordenes[..n], m.ordenes[n..], ImporteOrden);
  }

  /** The initial table shows "Ocupada", both its orders and a total of 50;
      a table added by `agregarMesa` shows "Libre", no orders and 0. */
  lemma {:induction false} CardsIniciales(mesas: seq<Mesa>)
    ensures EstadoMesa(MesasIniciales()[0]) == "Ocupada"
    ensures VistaPrevia(MesasIniciales()[0]) == MesasIniciales()[0].ordenes
    ensures TotalMesa(MesasIniciales()[0]) == 50
    ensures var nueva := ConMesaNueva(mesas)[|mesas|];
      EstadoMesa(nueva) == "Libre" && VistaPrevia(nueva) == [] && TotalMesa(nueva) == 0
  {
    var o := MesasIniciales()[0].ordenes;
    assert o[1..][1..] == [];
  }
}
