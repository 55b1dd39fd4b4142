/** The current order-entry screen (`FormularioPedido`): besides the shared
    quantity step it resets the draft, seeds it from the stored orders of
    the table that are still open, stamps `completado` on submit and shows
    an "Ocupada"/"Libre" badge. */
module FormularioPedido {
  import opened Secuencias
  import opened Pedidos

  // ---------------------------------------------------------------------------
  // Reset (`handleRestablecerPedido`)

  /** The stored item marked for deletion: quantity 0, tag BORRADO. */
  function Borrar(p: Item): Item {
    Aplicar(MarcarBorrado, p)
  }

  /** The `map` step: a local item becomes `undefined`, a stored one is
      marked for deletion. */
  function Marcar(p: Item): Option<Item> {
    if Persistido(p) then Some(Borrar(p)) else None
  }

  /** The `filter(Boolean)` step: drops the `undefined` entries (an object
      is always truthy). */
  function Compactar(s: seq<Option<Item>>): (r: seq<Item>)
    ensures |r| <= |s|
    decreases |s|
  {
    if |s| == 0 then []
    else (if s[0].Some? then [s[0].value] else []) + Compactar(s[1..])
  }

  /** `handleRestablecerPedido`. */
  function Restablecer(s: seq<Item>): (r: seq<Item>)
    ensures |r| <= |s|
  {
    Compactar(MapKey(s, Marcar))
  }

  lemma {:induction false} RestablecerCons(s: seq<Item>)
    requires |s| > 0
    ensures Restablecer(s)
         == (if Persistido(s[0]) then [Borrar(s[0])] else []) + Restablecer(s[1..])
  {
    assert MapKey(s, Marcar)[1..] == MapKey(s[1..], Marcar);
  }

  /** Reset keeps exactly the stored items, in order, each marked for
      deletion: it is `filter` by "has an id" followed by the marking. */
  lemma {:induction false} RestablecerFiltraYMarca(s: seq<Item>)
    ensures Restablecer(s) == MapKey(Filter(s, Persistido), Borrar)
    decreases |s|
  {
    if |s| > 0 {
      RestablecerCons(s);
      RestablecerFiltraYMarca(s[1..]);
      var f := Filter(s[1..], Persistido);
      if Persistido(s[0]) {
        assert Filter(s, Persistido) == [s[0]] + f;
        assert MapKey([s[0]] + f, Borrar) == [Borrar(s[0])] + MapKey(f, Borrar);
      }
    }
  }

  /** Every item left by a reset is a stored item with quantity 0 and tag
      BORRADO, one for each stored item of the draft, for the same product. */
  lemma {:induction false} RestablecerMarcaTodo(s: seq<Item>)
    ensures |Restablecer(s)| == |Filter(s, Persistido)|
    ensures forall j :: 0 <= j < |Restablecer(s)| ==>
      && Persistido(Restablecer(s)[j])
      && Restablecer(s)[j].cantidad == 0
      && Restablecer(s)[j].estado == Some(Borrado)
    ensures forall y :: y in Restablecer(s) ==>
      exists i :: 0 <= i < |s| && Persistido(s[i]) && y == Borrar(s[i])
  {
    RestablecerFiltraYMarca(s);
    var f := Filter(s, Persistido);
    forall y | y in Restablecer(s)
      ensures exists i :: 0 <= i < |s| && Persistido(s[i]) && y == Borrar(s[i])
    {
      var j :| 0 <= j < |f| && MapKey(f, Borrar)[j] == y;
      assert f[j] in f;
      var i :| 0 <= i < |s| && s[i] == f[j];
    }
    forall j | 0 <= j < |f| ensures Persistido(MapKey(f, Borrar)[j]) {
      assert f[j] in f;
    }
  }

  /** Resetting twice is resetting once. */
  lemma {:induction false} RestablecerIdempotente(s: seq<Item>)
    ensures Restablecer(Restablecer(s)) == Restablecer(s)
  {
    var r := Restablecer(s);
    RestablecerMarcaTodo(s);
    RestablecerFiltraYMarca(r);
    forall x | x in r ensures Persistido(x) {
      var j :| 0 <= j < |r| && r[j] == x;
    }
    FilterKeepsAll(r, Persistido);
    assert MapKey(r, Borrar) == r;
  }

  /** After a reset the draft total is 0 and the itemised list is empty. */
  lemma {:induction false} RestablecerTotalCero(s: seq<Item>)
    ensures Total(Restablecer(s)) == 0
    ensures ListaVisible(Restablecer(s)) == []
  {
    var r := Restablecer(s);
    RestablecerMarcaTodo(s);
    forall x | x in r ensures Importe(x) == 0 && !TieneCantidad(x) {
      var j :| 0 <= j < |r| && r[j] == x;
    }
    SumByZero(r, Importe);
    FilterDropsAll(r, TieneCantidad);
  }

  /** A product with no item before a reset has none after it. */
  lemma {:induction false} RestablecerSinProducto(t: seq<Item>, idProducto: string)
    requires forall i :: 0 <= i < |t| ==> t[i].idProducto != idProducto
    ensures forall j :: 0 <= j < |Restablecer(t)| ==> Restablecer(t)[j].idProducto != idProducto
  {
    var rt := Restablecer(t);
    RestablecerMarcaTodo(t);
    forall j | 0 <= j < |rt| ensures rt[j].idProducto != idProducto {
      assert rt[j] in rt;
      var i :| 0 <= i < |t| && Persistido(t[i]) && rt[j] == Borrar(t[i]);
    }
  }

  lemma UnicosCons(x: Item, t: seq<Item>)
    requires ProductosUnicos(t)
    requires forall j :: 0 <= j < |t| ==> t[j].idProducto != x.idProducto
    ensures ProductosUnicos([x] + t)
  {
    var r := [x] + t;
    assert forall j :: 0 < j < |r| ==> r[j] == t[j - 1];
  }

  lemma {:induction false} RestablecerUnicos(s: seq<Item>)
    requires ProductosUnicos(s)
    ensures ProductosUnicos(Restablecer(s))
    decreases |s|
  {
    if |s| > 0 {
      RestablecerCons(s);
      var t := s[1..];
      RestablecerUnicos(t);
      if Persistido(s[0]) {
        assert forall i :: 0 <= i < |t| ==> t[i] == s[i + 1];
        RestablecerSinProducto(t, s[0].idProducto);
        UnicosCons(Borrar(s[0]), Restablecer(t));
      }
    }
  }

  /** A reset keeps the draft valid. */
  lemma {:induction false} RestablecerValido(s: seq<Item>)
    requires Valido(s)
    ensures Valido(Restablecer(s))
  {
    RestablecerMarcaTodo(s);
    RestablecerUnicos(s);
  }

  // ---------------------------------------------------------------------------
  // Submit (`handleSubmit`, `handleCompletarPedido`)

  function ConCompletado(completado: bool): Item -> Item {
    (p: Item) => p.(completado := Some(completado))
  }

  /** `handleSubmit(e, completado)`: nothing on an empty draft; otherwise the
      edit path when some item has an `id`, the add path when none has, and
      every item sent with `completado` set to the flag. */
  function Enviar(s: seq<Item>, completado: bool): (r: Option<Envio>)
    ensures r == None <==> |s| == 0
    ensures r.Some? ==> (r.value.modo == Editar <==> exists i :: 0 <= i < |s| && Persistido(s[i]))
    ensures r.Some? ==> |r.value.pedidos| == |s|
    ensures r.Some? ==> forall i :: 0 <= i < |s| ==>
      r.value.pedidos[i] == s[i].(completado := Some(completado))
  {
    if |s| == 0 then None
    else Some(Envio(if Editando(s) then Editar else Agregar, MapKey(s, ConCompletado(completado))))
  }

  /** `handleCompletarPedido`: submit with the flag set. */
  function Completar(s: seq<Item>): (r: Option<Envio>)
    ensures r == None <==> |s| == 0
    ensures r.Some? ==> forall i :: 0 <= i < |r.value.pedidos| ==> r.value.pedidos[i].completado == Some(true)
  {
    Enviar(s, true)
  }

  /** Completing a draft whose quantities are all zero still sends it, with
      every item marked completed: there is no fallback to a plain save. */
  lemma {:induction false} CompletarSinCantidades(s: seq<Item>)
    requires |s| > 0
    requires forall i :: 0 <= i < |s| ==> s[i].cantidad == 0
    ensures Completar(s).Some?
    ensures Total(Completar(s).value.pedidos) == 0
    ensures Completar(s).value.modo == if Editando(s) then Editar else Agregar
  {
    var r := Completar(s).value.pedidos;
    forall x | x in r ensures Importe(x) == 0 {
      var j :| 0 <= j < |r| && r[j] == x;
    }
    SumByZero(r, Importe);
  }

  /** Submitting right after a reset: with stored items, the edit path with
      each of them marked for deletion; with only local items, nothing. */
  lemma {:induction false} EnviarTrasRestablecer(s: seq<Item>, completado: bool)
    ensures Editando(s) ==>
      Enviar(Restablecer(s), completado).Some? && Enviar(Restablecer(s), completado).value.modo == Editar
    ensures !Editando(s) ==> Enviar(Restablecer(s), completado) == None
  {
    RestablecerFiltraYMarca(s);
    RestablecerMarcaTodo(s);
    var r := Restablecer(s);
    if Editando(s) {
      var i :| 0 <= i < |s| && Persistido(s[i]);
      assert s[i] in Filter(s, Persistido);
      assert |r| > 0 && Persistido(r[0]);
    } else {
      forall x | x in s ensures !Persistido(x) {
        var i :| 0 <= i < |s| && s[i] == x;
      }
      FilterDropsAll(s, Persistido);
    }
  }

  // ---------------------------------------------------------------------------
  // Seeding and the badge

  /** The stored orders of table `mesa` that are not completed. */
  function AbiertoEnMesa(mesa: string): Item -> bool {
    (p: Item) => p.idMesa == Some(mesa) && p.completado != Some(true)
  }

  /** The seeding `useEffect`: `pedidos?.filter(...)`, where `None` stands
      for orders not loaded yet. */
  function Sembrar(pedidos: Option<seq<Item>>, mesa: string): (r: Option<seq<Item>>)
    ensures r.None? <==> pedidos.None?
    ensures r.Some? ==> forall p :: p in r.value <==>
      p in pedidos.value && p.idMesa == Some(mesa) && p.completado != Some(true)
  {
    match pedidos
    case None => None
    case Some(s) => Some(Filter(s, AbiertoEnMesa(mesa)))
  }

  /** Seeding keeps stored order: seeding a concatenation concatenates the
      seeded parts, and a single order is kept exactly when it is open and
      belongs to the table. */
  lemma {:induction false} SembrarEnOrden(a: seq<Item>, b: seq<Item>, p: Item, mesa: string)
    ensures Sembrar(Some(a + b), mesa).value
         == Sembrar(Some(a), mesa).value + Sembrar(Some(b), mesa).value
    ensures Sembrar(Some([p]), mesa).value
         == if p.idMesa == Some(mesa) && p.completado != Some(true) then [p] else []
  {
    FilterAppend(a, b, AbiertoEnMesa(mesa));
  }

  /** The badge over the draft. */
  function Insignia(s: seq<Item>): (r: string)
    ensures r == "Ocupada" || r == "Libre"
    ensures r == "Ocupada" <==> |s| > 0
  {
    if |s| > 0 then "Ocupada" else "Libre"
  }

  /** After a reset the badge still says "Ocupada" exactly when the draft
      had a stored item, although the list is then empty and the total 0. */
  lemma {:induction false} InsigniaTrasRestablecer(s: seq<Item>)
    ensures Insignia(Restablecer(s)) == "Ocupada" <==> Editando(s)
    ensures Editando(s) ==> ListaVisible(Restablecer(s)) == [] && Total(Restablecer(s)) == 0
  {
    EnviarTrasRestablecer(s, false);
    RestablecerTotalCero(s);
  }
}
