/** The order draft behind the order-entry screen: the line items the cashier
    is editing for one table, and the quantity step (`handleProductoPedido`)
    that both revisions of the screen share. Items read from the database
    carry an `id`; items added on the screen have none and are tagged NUEVO.
    Every step returns a fresh sequence; nothing is updated in place. */
module Pedidos {
  import opened Secuencias
  import opened Catalogo

  /** `ESTADOS_DOCUMENTOS`: BORRADO = 0, SIN_CAMBIOS = 1, EDITADO = 2, NUEVO = 3. */
  datatype Estado = Borrado | SinCambios | Editado | Nuevo

  /** A line item of the draft (a stored order, or one added on the screen). */
  datatype Item = Item(
    id: Option<string>,
    idMesa: Option<string>,
    idProducto: string,
    nombre: string,
    precio: int,
    cantidad: int,
    estado: Option<Estado>,
    completado: Option<bool>)

  /** `Boolean(pedido.id)`: the item was read from the database. */
  predicate Persistido(p: Item) {
    p.id.Some? && p.id.value != ""
  }

  /** `pedidosForm.some(pedido => pedido.id)`: the draft holds an item read
      from the database, so submitting it edits stored orders. */
  function Editando(s: seq<Item>): (r: bool)
    ensures r <==> exists i :: 0 <= i < |s| && Persistido(s[i])
    decreases |s|
  {
    if |s| == 0 then false
    else Persistido(s[0]) || Editando(s[1..])
  }

  /** How a submit reaches the database: `agregarPedido` or `editarPedido`. */
  datatype Modo = Agregar | Editar

  /** The call a submit makes: which store action, with which items. */
  datatype Envio = Envio(modo: Modo, pedidos: seq<Item>)

  /** `find(p => p.idProducto === idProducto)`, as the position of the first match. */
  function Buscar(s: seq<Item>, idProducto: string): (r: Option<nat>)
    ensures r.Some? ==> r.value < |s| && s[r.value].idProducto == idProducto
    ensures r.Some? ==> forall j :: 0 <= j < r.value ==> s[j].idProducto != idProducto
    ensures r.None? <==> forall j :: 0 <= j < |s| ==> s[j].idProducto != idProducto
    decreases |s|
  {
    if |s| == 0 then None
    else if s[0].idProducto == idProducto then Some(0)
    else match Buscar(s[1..], idProducto)
      case None => None
      case Some(i) => Some(i + 1)
  }

  /** The three ways `handleProductoPedido` rewrites the matching items. */
  datatype Cambio = Sumar(delta: int) | MarcarBorrado | SumarEditado(delta: int)

  function Aplicar(c: Cambio, p: Item): Item {
    match c
    case Sumar(d) => p.(cantidad := p.cantidad + d)
    case MarcarBorrado => p.(cantidad := 0, estado := Some(Borrado))
    case SumarEditado(d) => p.(cantidad := p.cantidad + d, estado := Some(Editado))
  }

  /** `map(p => p.idProducto === idProducto ? change(p) : p)`: every matching
      item is rewritten from its own quantity; the others are kept. */
  function Actualizar(s: seq<Item>, idProducto: string, c: Cambio): (r: seq<Item>)
    ensures |r| == |s|
    ensures forall j :: 0 <= j < |s| ==>
              r[j] == if s[j].idProducto == idProducto then Aplicar(c, s[j]) else s[j]
    decreases |s|
  {
    if |s| == 0 then []
    else [if s[0].idProducto == idProducto then Aplicar(c, s[0]) else s[0]]
         + Actualizar(s[1..], idProducto, c)
  }

  function OtroProducto(idProducto: string): Item -> bool {
    (p: Item) => p.idProducto != idProducto
  }

  /** `filter(p => p.idProducto !== idProducto)`. */
  function Quitar(s: seq<Item>, idProducto: string): seq<Item> {
    Filter(s, OtroProducto(idProducto))
  }

  /** The item appended for a product that is not in the draft yet. */
  function NuevoItem(producto: Producto, cantidad: int): Item {
    Item(None, None, producto.id, producto.nombre, producto.precio, cantidad, Some(Nuevo), None)
  }

  /** `handleProductoPedido(producto, cantidad)`: applies a quantity step for
      one product to the draft. */
  function AplicarCantidad(s: seq<Item>, producto: Producto, cantidad: int): (r: seq<Item>)
    ensures |r| <= |s| + 1
  {
    match Buscar(s, producto.id)
    case None =>
      if cantidad <= 0 then s else s + [NuevoItem(producto, cantidad)]
    case Some(i) =>
      if !Persistido(s[i]) then
        if s[i].cantidad + cantidad <= 0 then Quitar(s, producto.id)
        else Actualizar(s, producto.id, Sumar(cantidad))
      else
        if s[i].cantidad + cantidad <= 0 then Actualizar(s, producto.id, MarcarBorrado)
        else Actualizar(s, producto.id, SumarEditado(cantidad))
  }

  /** The change the step applies when the first item for the product is
      kept. */
  function CambioDe(p: Item, cantidad: int): Cambio {
    if !Persistido(p) then Sumar(cantidad)
    else if p.cantidad + cantidad <= 0 then MarcarBorrado
    else SumarEditado(cantidad)
  }

  lemma {:induction false} PasoConserva(s: seq<Item>, producto: Producto, cantidad: int, i: nat)
    requires Buscar(s, producto.id) == Some(i)
    requires Persistido(s[i]) || s[i].cantidad + cantidad > 0
    ensures AplicarCantidad(s, producto, cantidad) == Actualizar(s, producto.id, CambioDe(s[i], cantidad))
  {
  }

  /** `filter` and `map` over the items for one product keep the items for
      every other product, and bring in none. */
  lemma {:induction false} OtrosTrasQuitar(s: seq<Item>, idProducto: string)
    ensures forall x :: x in Quitar(s, idProducto) && x.idProducto != idProducto ==> x in s
    ensures forall x :: x in s && x.idProducto != idProducto ==> x in Quitar(s, idProducto)
  {
    forall x | x in s && x.idProducto != idProducto ensures x in Quitar(s, idProducto) {
      assert OtroProducto(idProducto)(x);
    }
  }

  lemma {:induction false} OtrosTrasActualizar(s: seq<Item>, idProducto: string, c: Cambio)
    ensures forall x :: x in Actualizar(s, idProducto, c) && x.idProducto != idProducto ==> x in s
    ensures forall x :: x in s && x.idProducto != idProducto ==> x in Actualizar(s, idProducto, c)
  {
    var r := Actualizar(s, idProducto, c);
    forall x | x in r && x.idProducto != idProducto ensures x in s {
      var j :| 0 <= j < |r| && r[j] == x;
    }
    forall x | x in s && x.idProducto != idProducto ensures x in r {
      var j :| 0 <= j < |s| && s[j] == x;
      assert r[j] == x;
    }
  }

  /** On any draft, a step never touches the items for other products:
      each of them is still there afterwards, and nothing else appears. */
  lemma {:induction false} OtrosProductosIntactos(s: seq<Item>, producto: Producto, cantidad: int)
    ensures forall x :: x in AplicarCantidad(s, producto, cantidad) && x.idProducto != producto.id ==> x in s
    ensures forall x :: x in s && x.idProducto != producto.id ==> x in AplicarCantidad(s, producto, cantidad)
  {
    var r := AplicarCantidad(s, producto, cantidad);
    var b := Buscar(s, producto.id);
    if b.None? {
      if cantidad > 0 {
        assert r == s + [NuevoItem(producto, cantidad)];
      } else {
        assert r == s;
      }
    } else if !Persistido(s[b.value]) && s[b.value].cantidad + cantidad <= 0 {
      assert r == Quitar(s, producto.id);
      OtrosTrasQuitar(s, producto.id);
    } else {
      PasoConserva(s, producto, cantidad, b.value);
      OtrosTrasActualizar(s, producto.id, CambioDe(s[b.value], cantidad));
    }
  }

  // ---------------------------------------------------------------------------
  // Invariants of a draft

  /** No two items are for the same product. */
  predicate ProductosUnicos(s: seq<Item>) {
    forall i, j :: 0 <= i < j < |s| ==> s[i].idProducto != s[j].idProducto
  }

  /** Items added on the screen have a positive quantity; items read from the
      database never go below zero. */
  predicate CantidadesValidas(s: seq<Item>) {
    forall i :: 0 <= i < |s| ==>
      if Persistido(s[i]) then s[i].cantidad >= 0 else s[i].cantidad > 0
  }

  predicate Valido(s: seq<Item>) {
    CantidadesValidas(s) && ProductosUnicos(s)
  }

  /** The draft step stated position by position, for a draft with at most
      one item per product: the six cases of `handleProductoPedido`. */
  function PorPosicion(s: seq<Item>, producto: Producto, cantidad: int): seq<Item>
  {
    match Buscar(s, producto.id)
    case None =>
      if cantidad <= 0 then s else s + [NuevoItem(producto, cantidad)]
    case Some(i) =>
      var suma := s[i].cantidad + cantidad;
      if !Persistido(s[i]) then
        if suma <= 0 then s[..i] + s[i + 1..] else s[i := Aplicar(Sumar(cantidad), s[i])]
      else
        if suma <= 0 then s[i := Aplicar(MarcarBorrado, s[i])]
        else s[i := Aplicar(SumarEditado(cantidad), s[i])]
  }

  lemma {:induction false} BuscarUnico(s: seq<Item>, i: nat)
    requires ProductosUnicos(s) && i < |s|
    ensures Buscar(s, s[i].idProducto) == Some(i)
  {
  }

  lemma {:induction false} QuitarAusente(t: seq<Item>, idProducto: string)
    requires forall j :: 0 <= j < |t| ==> t[j].idProducto != idProducto
    ensures Quitar(t, idProducto) == t
  {
    forall x | x in t ensures OtroProducto(idProducto)(x) {
      var j :| 0 <= j < |t| && t[j] == x;
    }
    FilterKeepsAll(t, OtroProducto(idProducto));
  }

  lemma {:induction false} QuitarUno(a: seq<Item>, x: Item, b: seq<Item>)
    requires forall j :: 0 <= j < |a| ==> a[j].idProducto != x.idProducto
    requires forall j :: 0 <= j < |b| ==> b[j].idProducto != x.idProducto
    ensures Quitar(a + [x] + b, x.idProducto) == a + b
  {
    var keep := OtroProducto(x.idProducto);
    var ax := a + [x];
    FilterAppend(ax, b, keep);
    FilterAppend(a, [x], keep);
    QuitarAusente(a, x.idProducto);
    QuitarAusente(b, x.idProducto);
    assert !keep(x);
    assert Filter([x], keep) == [] by { FilterDropsAll([x], keep); }
    assert Filter(ax, keep) == a;
  }

  lemma {:induction false} QuitarUnico(s: seq<Item>, i: nat)
    requires ProductosUnicos(s) && i < |s|
    ensures Quitar(s, s[i].idProducto) == s[..i] + s[i + 1..]
  {
    var a, b := s[..i], s[i + 1..];
    assert s == a + [s[i]] + b;
    assert forall j :: 0 <= j < |a| ==> a[j].idProducto != s[i].idProducto by {
      forall j | 0 <= j < |a| ensures a[j].idProducto != s[i].idProducto {
        assert a[j] == s[j];
      }
    }
    assert forall j :: 0 <= j < |b| ==> b[j].idProducto != s[i].idProducto by {
      forall j | 0 <= j < |b| ensures b[j].idProducto != s[i].idProducto {
        assert b[j] == s[i + 1 + j];
      }
    }
    QuitarUno(a, s[i], b);
  }

  lemma {:induction false} ActualizarUnico(s: seq<Item>, i: nat, c: Cambio)
    requires ProductosUnicos(s) && i < |s|
    ensures Actualizar(s, s[i].idProducto, c) == s[i := Aplicar(c, s[i])]
  {
  }

  /** The found item is local and drops to zero: the step removes it. */
  lemma {:induction false} PasoQuita(s: seq<Item>, producto: Producto, cantidad: int, i: nat)
    requires ProductosUnicos(s) && Buscar(s, producto.id) == Some(i)
    requires !Persistido(s[i]) && s[i].cantidad + cantidad <= 0
    ensures AplicarCantidad(s, producto, cantidad) == PorPosicion(s, producto, cantidad)
  {
    assert AplicarCantidad(s, producto, cantidad) == Quitar(s, producto.id);
    QuitarUnico(s, i);
  }

  /** Any other found item: the step rewrites it in place with `c`, which
      is the change the six-case rule picks for it. */
  lemma {:induction false} PasoActualiza(s: seq<Item>, producto: Producto, cantidad: int, i: nat, c: Cambio)
    requires ProductosUnicos(s) && Buscar(s, producto.id) == Some(i)
    requires AplicarCantidad(s, producto, cantidad) == Actualizar(s, producto.id, c)
    requires PorPosicion(s, producto, cantidad) == s[i := Aplicar(c, s[i])]
    ensures AplicarCantidad(s, producto, cantidad) == PorPosicion(s, producto, cantidad)
  {
    ActualizarUnico(s, i, c);
  }

  /** With at most one item per product, `handleProductoPedido` is exactly
      the six-case position-wise step: only the found item changes, and it is
      removed only when it is local and its quantity would drop to zero. */
  lemma {:induction false} AplicarCantidadSeisCasos(s: seq<Item>, producto: Producto, cantidad: int)
    requires ProductosUnicos(s)
    ensures AplicarCantidad(s, producto, cantidad) == PorPosicion(s, producto, cantidad)
  {
    var b := Buscar(s, producto.id);
    if b.Some? {
      var i := b.value;
      var suma := s[i].cantidad + cantidad;
      if !Persistido(s[i]) && suma <= 0 {
        PasoQuita(s, producto, cantidad, i);
      } else if !Persistido(s[i]) {
        PasoActualiza(s, producto, cantidad, i, Sumar(cantidad));
      } else if suma <= 0 {
        PasoActualiza(s, producto, cantidad, i, MarcarBorrado);
      } else {
        PasoActualiza(s, producto, cantidad, i, SumarEditado(cantidad));
      }
    }
  }

  /** A product not in the draft: a step of at most zero changes nothing; a
      positive step appends one NUEVO item without `id`, carrying the
      product's name and price, and leaves the earlier items alone. */
  lemma {:induction false} ProductoAusente(s: seq<Item>, producto: Producto, cantidad: int)
    requires forall j :: 0 <= j < |s| ==> s[j].idProducto != producto.id
    ensures cantidad <= 0 ==> AplicarCantidad(s, producto, cantidad) == s
    ensures cantidad > 0 ==>
      var r := AplicarCantidad(s, producto, cantidad);
      && |r| == |s| + 1
      && r[..|s|] == s
      && r[|s|].idProducto == producto.id
      && r[|s|].nombre == producto.nombre
      && r[|s|].precio == producto.precio
      && r[|s|].cantidad == cantidad
      && r[|s|].estado == Some(Nuevo)
      && !Persistido(r[|s|])
  {
  }

  /** A local item (no `id`) at position `i`: if the step brings its quantity
      to zero or below it is removed and the others keep their order;
      otherwise only its quantity changes and its tag is kept. */
  lemma {:induction false} ItemLocal(s: seq<Item>, i: nat, cantidad: int, producto: Producto)
    requires ProductosUnicos(s) && i < |s| && s[i].idProducto == producto.id
    requires !Persistido(s[i])
    ensures s[i].cantidad + cantidad <= 0 ==>
      AplicarCantidad(s, producto, cantidad) == s[..i] + s[i + 1..]
    ensures s[i].cantidad + cantidad > 0 ==>
      AplicarCantidad(s, producto, cantidad) == s[i := s[i].(cantidad := s[i].cantidad + cantidad)]
  {
    BuscarUnico(s, i);
    AplicarCantidadSeisCasos(s, producto, cantidad);
  }

  /** A stored item (with `id`) at position `i` is never removed: if the step
      brings its quantity to zero or below it stays in place with quantity 0
      and tag BORRADO; otherwise it takes the new quantity and tag EDITADO. */
  lemma {:induction false} ItemPersistido(s: seq<Item>, i: nat, cantidad: int, producto: Producto)
    requires ProductosUnicos(s) && i < |s| && s[i].idProducto == producto.id
    requires Persistido(s[i])
    ensures s[i].cantidad + cantidad <= 0 ==>
      AplicarCantidad(s, producto, cantidad) == s[i := s[i].(cantidad := 0, estado := Some(Borrado))]
    ensures s[i].cantidad + cantidad > 0 ==>
      AplicarCantidad(s, producto, cantidad)
        == s[i := s[i].(cantidad := s[i].cantidad + cantidad, estado := Some(Editado))]
  {
    BuscarUnico(s, i);
    AplicarCantidadSeisCasos(s, producto, cantidad);
  }

  /** A draft may hold several items for one product (a seed that keeps
      completed orders, or two submits of the same product). The first item
      for the product picks the case, and `filter`/`map` apply that choice
      to every item for the product: if the first is local and drops to
      zero, all of them go, stored ones included; if the first is stored
      and drops to zero, all of them are set to 0 and tagged BORRADO;
      otherwise each one gets the step added to its own quantity. */
  lemma {:induction false} DuplicadosSiguenAlPrimero(s: seq<Item>, producto: Producto, cantidad: int, i: nat)
    requires Buscar(s, producto.id) == Some(i)
    ensures !Persistido(s[i]) && s[i].cantidad + cantidad <= 0 ==>
      forall x :: x in AplicarCantidad(s, producto, cantidad) <==> x in s && x.idProducto != producto.id
    ensures Persistido(s[i]) && s[i].cantidad + cantidad <= 0 ==>
      var r := AplicarCantidad(s, producto, cantidad);
      && |r| == |s|
      && forall j :: 0 <= j < |s| ==>
           if s[j].idProducto == producto.id then r[j] == s[j].(cantidad := 0, estado := Some(Borrado))
           else r[j] == s[j]
    ensures s[i].cantidad + cantidad > 0 ==>
      var r := AplicarCantidad(s, producto, cantidad);
      && |r| == |s|
      && forall j :: 0 <= j < |s| ==>
           if s[j].idProducto == producto.id then
             r[j] == s[j].(cantidad := s[j].cantidad + cantidad,
                           estado := if Persistido(s[i]) then Some(Editado) else s[j].estado)
           else r[j] == s[j]
  {
    if !Persistido(s[i]) && s[i].cantidad + cantidad <= 0 {
      assert AplicarCantidad(s, producto, cantidad) == Quitar(s, producto.id);
    } else {
      DuplicadosReescritos(s, producto, cantidad, i);
      forall q: Item {
        CambioDeAplicado(s[i], q, cantidad);
      }
    }
  }

  /** The first item for the product is kept: every item for the product
      is rewritten with the change it picks. */
  lemma {:induction false} DuplicadosReescritos(s: seq<Item>, producto: Producto, cantidad: int, i: nat)
    requires Buscar(s, producto.id) == Some(i)
    requires Persistido(s[i]) || s[i].cantidad + cantidad > 0
    ensures var r := AplicarCantidad(s, producto, cantidad);
      && |r| == |s|
      && forall j :: 0 <= j < |s| ==>
           r[j] == if s[j].idProducto == producto.id then Aplicar(CambioDe(s[i], cantidad), s[j]) else s[j]
  {
    PasoConserva(s, producto, cantidad, i);
  }

  lemma {:induction false} CambioDeAplicado(p: Item, q: Item, cantidad: int)
    ensures Persistido(p) && p.cantidad + cantidad <= 0 ==>
      Aplicar(CambioDe(p, cantidad), q) == q.(cantidad := 0, estado := Some(Borrado))
    ensures p.cantidad + cantidad > 0 ==>
      Aplicar(CambioDe(p, cantidad), q)
        == q.(cantidad := q.cantidad + cantidad, estado := if Persistido(p) then Some(Editado) else q.estado)
  {
  }

  /** A local item for a product ahead of a stored one for the same product:
      a step of -1 on quantities 1 and 5 removes both, so the stored order
      leaves the draft and the submit does not send it. */
  lemma {:induction false} DuplicadoPierdePersistido()
    ensures var producto := Producto("x", "Taco", 15, []);
            var local := Item(None, None, "x", "Taco", 15, 1, Some(Nuevo), None);
            var guardado := Item(Some("p1"), Some("m1"), "x", "Taco", 15, 5, Some(SinCambios), Some(false));
            AplicarCantidad([local, guardado], producto, -1) == []
  {
    var producto := Producto("x", "Taco", 15, []);
    var local := Item(None, None, "x", "Taco", 15, 1, Some(Nuevo), None);
    var guardado := Item(Some("p1"), Some("m1"), "x", "Taco", 15, 5, Some(SinCambios), Some(false));
    var s := [local, guardado];
    assert Buscar(s, "x") == Some(0);
    var r := AplicarCantidad(s, producto, -1);
    assert r == Quitar(s, "x");
    assert r == Filter(s, OtroProducto("x"));
    assert s[1..] == [guardado];
    assert Filter(s, OtroProducto("x")) == Filter([guardado], OtroProducto("x"));
    assert [guardado][1..] == [];
  }

  lemma {:induction false} ValidoAlAgregar(s: seq<Item>, x: Item)
    requires Valido(s) && !Persistido(x) && x.cantidad > 0
    requires forall j :: 0 <= j < |s| ==> s[j].idProducto != x.idProducto
    ensures Valido(s + [x])
  {
    var r := s + [x];
    assert forall j :: 0 <= j < |s| ==> r[j] == s[j];
  }

  lemma {:induction false} ValidoAlQuitar(s: seq<Item>, k: nat)
    requires Valido(s) && k < |s|
    ensures var r := s[..k] + s[k + 1..];
      && Valido(r)
      && (forall i :: 0 <= i < k ==> r[i] == s[i])
      && (forall i :: k < i < |s| ==> r[i - 1] == s[i])
  {
    var r := s[..k] + s[k + 1..];
    assert forall i :: 0 <= i < k ==> r[i] == s[i];
    assert forall i :: k <= i < |r| ==> r[i] == s[i + 1];
  }

  lemma {:induction false} ValidoAlCambiar(s: seq<Item>, k: nat, x: Item)
    requires Valido(s) && k < |s| && x.idProducto == s[k].idProducto
    requires if Persistido(x) then x.cantidad >= 0 else x.cantidad > 0
    ensures Valido(s[k := x])
  {
  }

  // The three shapes a step can take, stated element by element.

  lemma {:induction false} FormaAgregar(s: seq<Item>, producto: Producto, cantidad: int)
    requires Buscar(s, producto.id) == None && cantidad > 0
    ensures var r := AplicarCantidad(s, producto, cantidad);
      && |r| == |s| + 1
      && (forall j :: 0 <= j < |s| ==> r[j] == s[j])
      && r[|s|] == NuevoItem(producto, cantidad)
  {
    var r := AplicarCantidad(s, producto, cantidad);
    assert r == s + [NuevoItem(producto, cantidad)];
  }

  lemma {:induction false} FormaQuitar(s: seq<Item>, producto: Producto, cantidad: int, k: nat)
    requires ProductosUnicos(s) && Buscar(s, producto.id) == Some(k)
    requires !Persistido(s[k]) && s[k].cantidad + cantidad <= 0
    ensures var r := AplicarCantidad(s, producto, cantidad);
      && |r| == |s| - 1
      && (forall j :: 0 <= j < k ==> r[j] == s[j])
      && (forall j :: k <= j < |r| ==> r[j] == s[j + 1])
  {
    PasoQuita(s, producto, cantidad, k);
    var r := AplicarCantidad(s, producto, cantidad);
    assert r == s[..k] + s[k + 1..];
  }

  lemma {:induction false} FormaCambiar(s: seq<Item>, producto: Producto, cantidad: int, k: nat)
    requires ProductosUnicos(s) && Buscar(s, producto.id) == Some(k)
    requires Persistido(s[k]) || s[k].cantidad + cantidad > 0
    ensures var r := AplicarCantidad(s, producto, cantidad);
      && |r| == |s|
      && (forall j :: 0 <= j < |s| && j != k ==> r[j] == s[j])
      && r[k].id == s[k].id && r[k].idProducto == s[k].idProducto
      && r[k].cantidad == (if s[k].cantidad + cantidad <= 0 then 0 else s[k].cantidad + cantidad)
      && (r[k].estado == s[k].estado || r[k].estado == Some(Borrado) || r[k].estado == Some(Editado))
  {
    AplicarCantidadSeisCasos(s, producto, cantidad);
  }

  /** A step never drops a stored item. */
  lemma {:induction false} PersistidosSeConservan(s: seq<Item>, producto: Producto, cantidad: int)
    requires ProductosUnicos(s)
    ensures forall i :: 0 <= i < |s| && Persistido(s[i]) ==>
      exists j :: 0 <= j < |AplicarCantidad(s, producto, cantidad)|
        && AplicarCantidad(s, producto, cantidad)[j].id == s[i].id
        && AplicarCantidad(s, producto, cantidad)[j].idProducto == s[i].idProducto
  {
    var r := AplicarCantidad(s, producto, cantidad);
    var b := Buscar(s, producto.id);
    if b.None? {
      if cantidad > 0 {
        FormaAgregar(s, producto, cantidad);
      } else {
        assert r == s;
      }
      forall i | 0 <= i < |s| && Persistido(s[i])
        ensures exists j :: 0 <= j < |r| && r[j].id == s[i].id && r[j].idProducto == s[i].idProducto
      {
        assert r[i] == s[i];
      }
    } else if !Persistido(s[b.value]) && s[b.value].cantidad + cantidad <= 0 {
      var k := b.value;
      FormaQuitar(s, producto, cantidad, k);
      forall i | 0 <= i < |s| && Persistido(s[i])
        ensures exists j :: 0 <= j < |r| && r[j].id == s[i].id && r[j].idProducto == s[i].idProducto
      {
        if i < k {
          assert r[i] == s[i];
        } else {
          assert i != k;
          assert r[i - 1] == s[i];
        }
      }
    } else {
      FormaCambiar(s, producto, cantidad, b.value);
      forall i | 0 <= i < |s| && Persistido(s[i])
        ensures exists j :: 0 <= j < |r| && r[j].id == s[i].id && r[j].idProducto == s[i].idProducto
      {
        assert r[i].id == s[i].id && r[i].idProducto == s[i].idProducto;
      }
    }
  }

  /** Every step keeps the draft valid, never drops a stored item, and
      changes the number of items by at most one. */
  lemma {:induction false} AplicarCantidadConservaInvariantes(s: seq<Item>, producto: Producto, cantidad: int)
    requires Valido(s)
    ensures Valido(AplicarCantidad(s, producto, cantidad))
    ensures |s| - 1 <= |AplicarCantidad(s, producto, cantidad)| <= |s| + 1
    ensures forall i :: 0 <= i < |s| && Persistido(s[i]) ==>
      exists j :: 0 <= j < |AplicarCantidad(s, producto, cantidad)|
        && AplicarCantidad(s, producto, cantidad)[j].id == s[i].id
        && AplicarCantidad(s, producto, cantidad)[j].idProducto == s[i].idProducto
  {
    PersistidosSeConservan(s, producto, cantidad);
    var r := AplicarCantidad(s, producto, cantidad);
    var b := Buscar(s, producto.id);
    if b.None? {
      if cantidad > 0 {
        FormaAgregar(s, producto, cantidad);
        assert r == s + [NuevoItem(producto, cantidad)];
        ValidoAlAgregar(s, NuevoItem(producto, cantidad));
      } else {
        assert r == s;
      }
    } else if !Persistido(s[b.value]) && s[b.value].cantidad + cantidad <= 0 {
      var k := b.value;
      PasoQuita(s, producto, cantidad, k);
      assert r == s[..k] + s[k + 1..];
      ValidoAlQuitar(s, k);
    } else {
      var k := b.value;
      FormaCambiar(s, producto, cantidad, k);
      var x := r[k];
      assert r == s[k := x];
      ValidoAlCambiar(s, k, x);
    }
  }

  /** No step introduces the tag SIN_CAMBIOS: an item that carries it after
      the step is for a product whose item carried it before. */
  lemma {:induction false} NuncaVuelveASinCambios(s: seq<Item>, producto: Producto, cantidad: int)
    ensures var r := AplicarCantidad(s, producto, cantidad);
      forall j :: 0 <= j < |r| && r[j].estado == Some(SinCambios) ==>
        exists i :: 0 <= i < |s| && s[i].idProducto == r[j].idProducto && s[i].estado == Some(SinCambios)
  {
    var r := AplicarCantidad(s, producto, cantidad);
    match Buscar(s, producto.id)
    case None =>
      if cantidad > 0 {
        assert r == s + [NuevoItem(producto, cantidad)];
      }
      forall j | 0 <= j < |r| && r[j].estado == Some(SinCambios)
        ensures exists i :: 0 <= i < |s| && s[i].idProducto == r[j].idProducto && s[i].estado == Some(SinCambios)
      {
        assert j < |s| && r[j] == s[j];
      }
    case Some(k) =>
      if !Persistido(s[k]) && s[k].cantidad + cantidad <= 0 {
        assert r == Quitar(s, producto.id);
        forall j | 0 <= j < |r| && r[j].estado == Some(SinCambios)
          ensures exists i :: 0 <= i < |s| && s[i].idProducto == r[j].idProducto && s[i].estado == Some(SinCambios)
        {
          assert r[j] in r;
          var i :| 0 <= i < |s| && s[i] == r[j];
        }
      } else {
        var c := if !Persistido(s[k]) then Sumar(cantidad)
                 else if s[k].cantidad + cantidad <= 0 then MarcarBorrado
                 else SumarEditado(cantidad);
        assert r == Actualizar(s, producto.id, c);
        forall j | 0 <= j < |r| && r[j].estado == Some(SinCambios)
          ensures exists i :: 0 <= i < |s| && s[i].idProducto == r[j].idProducto && s[i].estado == Some(SinCambios)
        {
          assert r[j].idProducto == s[j].idProducto && r[j].estado == s[j].estado;
        }
      }
  }

  /** Round trip: adding `k` units of a product that is not in the draft and
      then taking `k` away gives back the original draft. */
  lemma {:induction false} IdaYVuelta(s: seq<Item>, producto: Producto, k: int)
    requires forall j :: 0 <= j < |s| ==> s[j].idProducto != producto.id
    requires k > 0
    ensures AplicarCantidad(AplicarCantidad(s, producto, k), producto, -k) == s
  {
    var n := NuevoItem(producto, k);
    var t := s + [n];
    assert AplicarCantidad(s, producto, k) == t;
    assert t[|s|].idProducto == producto.id;
    assert Buscar(t, producto.id) == Some(|s|);
    var keep := OtroProducto(producto.id);
    FilterAppend(s, [n], keep);
    forall x | x in s ensures keep(x) {
      var j :| 0 <= j < |s| && s[j] == x;
    }
    FilterKeepsAll(s, keep);
    FilterDropsAll([n], keep);
  }

  // ---------------------------------------------------------------------------
  // What the screen derives from the draft

  function Importe(p: Item): int {
    p.precio * p.cantidad
  }

  /** `pedidosForm.reduce((acc, p) => acc + p.precio * p.cantidad, 0)`. */
  function Total(s: seq<Item>): (r: int)
    ensures (forall i :: 0 <= i < |s| ==> s[i].precio >= 0 && s[i].cantidad >= 0) ==> r >= 0
  {
    ImporteNoNegativo(s);
    SumBy(s, Importe)
  }

  lemma {:induction false} ImporteNoNegativo(s: seq<Item>)
    ensures (forall i :: 0 <= i < |s| ==> s[i].precio >= 0 && s[i].cantidad >= 0) ==> SumBy(s, Importe) >= 0
  {
    if forall i :: 0 <= i < |s| ==> s[i].precio >= 0 && s[i].cantidad >= 0 {
      forall i | 0 <= i < |s| ensures Importe(s[i]) >= 0 {
        Producto0(s[i].precio, s[i].cantidad);
      }
      SumByNonNegative(s, Importe);
    }
  }

  lemma {:induction false} Producto0(a: int, b: int)
    requires a >= 0 && b >= 0
    ensures a * b >= 0
  {
  }

  /** The number shown between the − and + buttons: the first matching item's
      quantity, or 0 when the product is not in the draft. */
  function CantidadMostrada(s: seq<Item>, idProducto: string): (r: int)
    ensures Buscar(s, idProducto) == None ==> r == 0
    ensures Buscar(s, idProducto).Some? ==> r == s[Buscar(s, idProducto).value].cantidad
    ensures CantidadesValidas(s) ==> r >= 0
  {
    match Buscar(s, idProducto)
    case None => 0
    case Some(i) => s[i].cantidad
  }

  predicate TieneCantidad(p: Item) {
    p.cantidad > 0
  }

  /** The itemised list under the grid: only items with a positive quantity. */
  function ListaVisible(s: seq<Item>): (r: seq<Item>)
    ensures |r| <= |s|
    ensures forall x :: x in r <==> x in s && x.cantidad > 0
  {
    Filter(s, TieneCantidad)
  }

  /** The first item for the product decides the quantity shown. */
  lemma {:induction false} MostradaEn(r: seq<Item>, idProducto: string, i: nat)
    requires i < |r| && r[i].idProducto == idProducto
    requires forall j :: 0 <= j < i ==> r[j].idProducto != idProducto
    ensures CantidadMostrada(r, idProducto) == r[i].cantidad
  {
    match Buscar(r, idProducto)
    case None =>
    case Some(k) =>
      assert !(k < i) && !(i < k);
  }

  lemma {:induction false} MostradaTrasAgregar(s: seq<Item>, producto: Producto, cantidad: int)
    requires Buscar(s, producto.id) == None && cantidad > 0
    ensures CantidadMostrada(AplicarCantidad(s, producto, cantidad), producto.id) == cantidad
  {
    var r := AplicarCantidad(s, producto, cantidad);
    assert r == s + [NuevoItem(producto, cantidad)];
    assert forall j :: 0 <= j < |s| ==> r[j] == s[j];
    MostradaEn(r, producto.id, |s|);
  }

  /** Removing every item for the product leaves none to show. */
  lemma {:induction false} MostradaTrasQuitar(s: seq<Item>, producto: Producto, cantidad: int, i: nat)
    requires Buscar(s, producto.id) == Some(i)
    requires !Persistido(s[i]) && s[i].cantidad + cantidad <= 0
    ensures CantidadMostrada(AplicarCantidad(s, producto, cantidad), producto.id) == 0
  {
    var r := AplicarCantidad(s, producto, cantidad);
    assert r == Quitar(s, producto.id);
    forall j | 0 <= j < |r| ensures r[j].idProducto != producto.id {
      assert r[j] in r;
      assert OtroProducto(producto.id)(r[j]);
    }
  }

  /** Rewriting every item for the product with `c`: the first of them is
      still the first, so it decides the shown quantity. */
  lemma {:induction false} MostradaTrasActualizar(s: seq<Item>, idProducto: string, c: Cambio, i: nat)
    requires Buscar(s, idProducto) == Some(i)
    ensures CantidadMostrada(Actualizar(s, idProducto, c), idProducto) == Aplicar(c, s[i]).cantidad
  {
    var r := Actualizar(s, idProducto, c);
    assert r[i] == Aplicar(c, s[i]);
    assert forall j :: 0 <= j < i ==> r[j] == s[j];
    MostradaEn(r, idProducto, i);
  }

  lemma {:induction false} CambioCantidad(p: Item, cantidad: int)
    requires Persistido(p) || p.cantidad + cantidad > 0
    ensures Aplicar(CambioDe(p, cantidad), p).cantidad
         == if p.cantidad + cantidad <= 0 then 0 else p.cantidad + cantidad
  {
  }

  /** The first item for the product is kept (stored, or local with a
      positive new quantity): it shows the new quantity, floored at zero. */
  lemma {:induction false} MostradaTrasCambiar(s: seq<Item>, producto: Producto, cantidad: int, i: nat)
    requires Buscar(s, producto.id) == Some(i)
    requires Persistido(s[i]) || s[i].cantidad + cantidad > 0
    ensures CantidadMostrada(AplicarCantidad(s, producto, cantidad), producto.id)
         == if s[i].cantidad + cantidad <= 0 then 0 else s[i].cantidad + cantidad
  {
    var c := CambioDe(s[i], cantidad);
    PasoConserva(s, producto, cantidad, i);
    MostradaTrasActualizar(s, producto.id, c, i);
    CambioCantidad(s[i], cantidad);
  }

  /** After a step, the quantity shown for the product is the previous one
      plus the step, floored at zero. This holds on any draft, also one with
      several items for the product, since the first of them is shown. */
  lemma {:induction false} CantidadMostradaTrasPaso(s: seq<Item>, producto: Producto, cantidad: int)
    ensures CantidadMostrada(AplicarCantidad(s, producto, cantidad), producto.id)
         == if CantidadMostrada(s, producto.id) + cantidad <= 0 then 0
            else CantidadMostrada(s, producto.id) + cantidad
  {
    var b := Buscar(s, producto.id);
    if b.None? {
      if cantidad > 0 {
        MostradaTrasAgregar(s, producto, cantidad);
      } else {
        assert AplicarCantidad(s, producto, cantidad) == s;
      }
    } else if !Persistido(s[b.value]) && s[b.value].cantidad + cantidad <= 0 {
      MostradaTrasQuitar(s, producto, cantidad, b.value);
    } else {
      MostradaTrasCambiar(s, producto, cantidad, b.value);
    }
  }

  /** Items hidden from the list contribute nothing to the total, as long as
      no quantity is negative (which a valid draft guarantees). */
  lemma {:induction false} TotalIgnoraOcultos(s: seq<Item>)
    requires forall i :: 0 <= i < |s| ==> s[i].cantidad >= 0
    ensures Total(ListaVisible(s)) == Total(s)
    decreases |s|
  {
    if |s| > 0 {
      TotalIgnoraOcultos(s[1..]);
      if TieneCantidad(s[0]) {
        assert ListaVisible(s) == [s[0]] + ListaVisible(s[1..]);
      } else {
        assert s[0].cantidad == 0;
      }
    }
  }
}
