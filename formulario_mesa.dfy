/** The earlier revision of the order-entry screen (`FormularioMesa`). It
    shares the category toggle, the product grid and the quantity step with
    the current screen, but its submit has no empty-draft guard and sends
    the draft without `completado`, and its seeding keeps completed orders. */
module FormularioMesa {
  import opened Secuencias
  import opened Pedidos
  import FormularioPedido

  /** `handleSubmit`: the edit path when some item has an `id`, else the add
      path; the draft is sent as it is, even when it is empty. */
  function EnviarMesa(s: seq<Item>): (r: Envio)
    ensures r.pedidos == s
    ensures r.modo == Editar <==> exists i :: 0 <= i < |s| && Persistido(s[i])
    ensures |s| == 0 ==> r == Envio(Agregar, [])
  {
    Envio(if Editando(s) then Editar else Agregar, s)
  }

  /** On a non-empty draft both revisions take the same path; they differ
      only in the `completado` stamp. On an empty draft the current screen
      sends nothing while this one calls `agregarPedido` with no items. */
  lemma {:induction false} MismoCamino(s: seq<Item>, completado: bool)
    ensures |s| > 0 ==>
      FormularioPedido.Enviar(s, completado).Some? &&
      FormularioPedido.Enviar(s, completado).value.modo == EnviarMesa(s).modo &&
      FormularioPedido.Enviar(s, completado).value.pedidos
        == MapKey(EnviarMesa(s).pedidos, FormularioPedido.ConCompletado(completado))
    ensures |s| == 0 ==>
      FormularioPedido.Enviar(s, completado) == None && EnviarMesa(s) == Envio(Agregar, [])
  {
  }

  function EnMesa(mesa: string): Item -> bool {
    (p: Item) => p.idMesa == Some(mesa)
  }

  /** The seeding `useEffect`: every stored order of the table, completed or
      not. */
  function SembrarMesa(pedidos: Option<seq<Item>>, mesa: string): (r: Option<seq<Item>>)
    ensures r.None? <==> pedidos.None?
    ensures r.Some? ==> forall p :: p in r.value <==> p in pedidos.value && p.idMesa == Some(mesa)
  {
    match pedidos
    case None => None
    case Some(s) => Some(Filter(s, EnMesa(mesa)))
  }

  function NoCompletado(p: Item): bool {
    p.completado != Some(true)
  }

  /** The current screen's seed is this one's with the completed orders
      taken out, order kept. */
  lemma {:induction false} SembrarSinCompletados(pedidos: Option<seq<Item>>, mesa: string)
    ensures FormularioPedido.Sembrar(pedidos, mesa).Some? <==> SembrarMesa(pedidos, mesa).Some?
    ensures pedidos.Some? ==>
      FormularioPedido.Sembrar(pedidos, mesa).value == Filter(SembrarMesa(pedidos, mesa).value, NoCompletado)
  {
    if pedidos.Some? {
      FilterFilter(pedidos.value, EnMesa(mesa), NoCompletado, FormularioPedido.AbiertoEnMesa(mesa));
    }
  }
}
