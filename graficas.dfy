/** The sales chart (`GraficasVentas`): the product names that have sales,
    the default selection of series keys, and one row per calendar day
    holding, for every selected key, the quantity sold that day. */
module Graficas {
  import opened Secuencias
  import opened Ventas

  function NombreDe(p: PedidoGuardado): string {
    p.nombre
  }

  /** `[...new Set(pedidosFiltrados.map(pedido => pedido.nombre))]`, once the
      orders are loaded. */
  function Disponibles(pedidos: Option<seq<PedidoGuardado>>): (r: Option<seq<string>>)
    ensures r.None? <==> pedidos.None?
    ensures r.Some? ==> NoDup(r.value)
    ensures r.Some? ==> forall n :: n in r.value <==> exists p :: p in pedidos.value && Completado(p) && p.nombre == n
  {
    match pedidos
    case None => None
    case Some(s) =>
      var nombres := MapKey(Completados(s), NombreDe);
      assert forall n :: n in nombres <==> exists p :: p in Completados(s) && p.nombre == n by {
        forall n | n in nombres ensures exists p :: p in Completados(s) && p.nombre == n {
          var i :| 0 <= i < |nombres| && nombres[i] == n;
          assert Completados(s)[i] in Completados(s);
        }
        forall n | exists p :: p in Completados(s) && p.nombre == n ensures n in nombres {
          var p :| p in Completados(s) && p.nombre == n;
          var i :| 0 <= i < |Completados(s)| && Completados(s)[i] == p;
          assert nombres[i] == n;
        }
      }
      Some(Distinct(nombres))
  }

  /** The available names keep the order in which each first appears among
      the completed orders. */
  lemma {:induction false} DisponiblesEnOrden(s: seq<PedidoGuardado>, i: nat, j: nat)
    requires i < j < |Disponibles(Some(s)).value|
    ensures Disponibles(Some(s)).value[i] in MapKey(Completados(s), NombreDe)
         && Disponibles(Some(s)).value[j] in MapKey(Completados(s), NombreDe)
    ensures FirstIndex(MapKey(Completados(s), NombreDe), Disponibles(Some(s)).value[i])
          < FirstIndex(MapKey(Completados(s), NombreDe), Disponibles(Some(s)).value[j])
  {
    DistinctFirstOccurrenceOrder(MapKey(Completados(s), NombreDe), i, j);
  }

  /** `replaceAll(" ", "_")`. */
  function ReemplazarEspacios(s: string): (r: string)
    ensures |r| == |s|
    decreases |s|
  {
    if |s| == 0 then "" else [if s[0] == ' ' then '_' else s[0]] + ReemplazarEspacios(s[1..])
  }

  /** `replaceAll(" ", "_")` keeps the length and changes exactly the spaces. */
  lemma {:induction false} ReemplazarPorPosicion(s: string)
    ensures |ReemplazarEspacios(s)| == |s|
    ensures forall i :: 0 <= i < |s| ==>
      ReemplazarEspacios(s)[i] == if s[i] == ' ' then '_' else s[i]
    decreases |s|
  {
    if |s| > 0 {
      ReemplazarPorPosicion(s[1..]);
      var r := ReemplazarEspacios(s);
      assert forall i :: 1 <= i < |s| ==> r[i] == ReemplazarEspacios(s[1..])[i - 1];
    }
  }

  /** A key never contains a space, so replacing again changes nothing. */
  lemma {:induction false} ReemplazarIdempotente(s: string)
    ensures ' ' !in ReemplazarEspacios(s)
    ensures ReemplazarEspacios(ReemplazarEspacios(s)) == ReemplazarEspacios(s)
  {
    var r := ReemplazarEspacios(s);
    ReemplazarPorPosicion(s);
    ReemplazarPorPosicion(r);
    forall i | 0 <= i < |r| ensures r[i] != ' ' {
    }
  }

  /** The default selection: every available name with spaces turned into
      "_"; nothing until the names are known. */
  function SeleccionPorDefecto(disponibles: Option<seq<string>>): (r: Option<seq<string>>)
    ensures r.None? <==> disponibles.None?
    ensures r.Some? ==> |r.value| == |disponibles.value|
    ensures r.Some? ==> forall i :: 0 <= i < |r.value| ==> r.value[i] == ReemplazarEspacios(disponibles.value[i])
  {
    match disponibles
    case None => None
    case Some(d) => Some(MapKey(d, ReemplazarEspacios))
  }

  // ---------------------------------------------------------------------------
  // Chart rows

  /** A chart row: the day's date and a value per series key. */
  datatype Fila = Fila(fecha: int, valores: map<string, int>)

  /** The order belongs to series `k`: its name with spaces replaced is `k`. */
  predicate EsDeSerie(p: PedidoGuardado, k: string) {
    ReemplazarEspacios(p.nombre) == k
  }

  /** What one order adds to series `k`: its quantity when its name, with
      spaces replaced, is `k`. */
  function Aporte(p: PedidoGuardado, k: string): int {
    if EsDeSerie(p, k) then p.cantidad else 0
  }

  function AporteA(k: string): PedidoGuardado -> int {
    (p: PedidoGuardado) => Aporte(p, k)
  }

  /** The quantity of series `k` over the orders of a day. */
  function CantidadSerie(g: seq<PedidoGuardado>, k: string): int {
    SumBy(g, AporteA(k))
  }

  /** The value the loops leave in `obj[k]`: every occurrence of `k` in the
      selection adds the day's quantity once more. */
  function ValorSerie(g: seq<PedidoGuardado>, sel: seq<string>, k: string): int {
    multiset(sel)[k] * CantidadSerie(g, k)
  }

  lemma {:induction false} CantidadSerieAppend(g: seq<PedidoGuardado>, i: nat, k: string)
    requires i < |g|
    ensures CantidadSerie(g[..i + 1], k) == CantidadSerie(g[..i], k) + Aporte(g[i], k)
  {
    assert g[..i + 1] == g[..i] + [g[i]];
    SumByAppend(g[..i], [g[i]], AporteA(k));
  }

  /** How many times `k` occurs in `s`. */
  function Veces(s: seq<string>, k: string): nat {
    multiset(s)[k]
  }

  lemma {:induction false} VecesSnoc(s: seq<string>, j: nat)
    requires j < |s|
    ensures forall k :: Veces(s[..j + 1], k) == Veces(s[..j], k) + (if k == s[j] then 1 else 0)
  {
    assert s[..j + 1] == s[..j] + [s[j]];
  }

  /** `nuevos` is `valores` after the inner loop has gone through the keys
      `s` for order `p`: it has the keys of both ... */
  ghost predicate Claves(nuevos: map<string, int>, valores: map<string, int>, s: seq<string>) {
    forall k :: k in nuevos <==> k in valores || k in s
  }

  /** ... and each key has gained the order's contribution once per
      occurrence in `s`. */
  ghost predicate Sumados(nuevos: map<string, int>, valores: map<string, int>, s: seq<string>, p: PedidoGuardado) {
    forall k :: k in nuevos ==>
      nuevos[k] == (if k in valores then valores[k] else 0) + Veces(s, k) * Aporte(p, k)
  }

  function Paso(nuevos: map<string, int>, k: string, p: PedidoGuardado): map<string, int> {
    nuevos[k := (if k in nuevos then nuevos[k] else 0) + Aporte(p, k)]
  }

  lemma {:induction false} ClavesPaso(nuevos: map<string, int>, valores: map<string, int>, sel: seq<string>, j: nat, p: PedidoGuardado)
    requires j < |sel| && Claves(nuevos, valores, sel[..j])
    ensures Claves(Paso(nuevos, sel[j], p), valores, sel[..j + 1])
  {
    assert sel[..j + 1] == sel[..j] + [sel[j]];
  }

  lemma UnaVezMas(v: int, a: int)
    ensures (v + 1) * a == v * a + a
  {
  }

  lemma {:induction false} SumadoMisma(nuevos: map<string, int>, valores: map<string, int>, sel: seq<string>, j: nat, p: PedidoGuardado)
    requires j < |sel| && Claves(nuevos, valores, sel[..j]) && Sumados(nuevos, valores, sel[..j], p)
    ensures Paso(nuevos, sel[j], p)[sel[j]]
         == (if sel[j] in valores then valores[sel[j]] else 0) + Veces(sel[..j + 1], sel[j]) * Aporte(p, sel[j])
  {
    var k := sel[j];
    var a := Aporte(p, k);
    var v := Veces(sel[..j], k);
    assert sel[..j + 1] == sel[..j] + [k];
    assert Veces(sel[..j + 1], k) == v + 1;
    UnaVezMas(v, a);
    if k !in nuevos {
      assert k !in sel[..j];
      assert v == 0;
    }
  }

  lemma {:induction false} SumadoOtra(nuevos: map<string, int>, valores: map<string, int>, sel: seq<string>, j: nat, p: PedidoGuardado, x: string)
    requires j < |sel| && Sumados(nuevos, valores, sel[..j], p)
    requires x in nuevos && x != sel[j]
    ensures Paso(nuevos, sel[j], p)[x]
         == (if x in valores then valores[x] else 0) + Veces(sel[..j + 1], x) * Aporte(p, x)
  {
    assert sel[..j + 1] == sel[..j] + [sel[j]];
    assert Veces(sel[..j + 1], x) == Veces(sel[..j], x);
  }

  lemma {:induction false} SumadosPaso(nuevos: map<string, int>, valores: map<string, int>, sel: seq<string>, j: nat, p: PedidoGuardado)
    requires j < |sel| && Claves(nuevos, valores, sel[..j]) && Sumados(nuevos, valores, sel[..j], p)
    ensures Sumados(Paso(nuevos, sel[j], p), valores, sel[..j + 1], p)
  {
    var r := Paso(nuevos, sel[j], p);
    forall x | x in r
      ensures r[x] == (if x in valores then valores[x] else 0) + Veces(sel[..j + 1], x) * Aporte(p, x)
    {
      if x == sel[j] {
        SumadoMisma(nuevos, valores, sel, j, p);
      } else {
        SumadoOtra(nuevos, valores, sel, j, p, x);
      }
    }
  }

  /** The innermost step for key `k` and order `p`: the key is set to 0 if
      missing, then increased by the order's quantity if it matches. */
  method SumarClave(valores: map<string, int>, k: string, p: PedidoGuardado) returns (nuevos: map<string, int>)
    ensures nuevos == Paso(valores, k, p)
  {
    var actual := if k in valores then valores[k] else 0;
    if EsDeSerie(p, k) {
      actual := actual + p.cantidad;
    }
    nuevos := valores[k := actual];
  }

  /** The inner `forEach` for one order, over the selected keys in turn. */
  method SumarPedido(valores: map<string, int>, sel: seq<string>, p: PedidoGuardado)
    returns (nuevos: map<string, int>)
    ensures forall k :: k in nuevos <==> k in valores || k in sel
    ensures forall k :: k in nuevos ==>
      nuevos[k] == (if k in valores then valores[k] else 0) + multiset(sel)[k] * Aporte(p, k)
  {
    nuevos := valores;
    var j := 0;
    while j < |sel|
      invariant 0 <= j <= |sel|
      invariant Claves(nuevos, valores, sel[..j])
      invariant Sumados(nuevos, valores, sel[..j], p)
    {
      ClavesPaso(nuevos, valores, sel, j, p);
      SumadosPaso(nuevos, valores, sel, j, p);
      nuevos := SumarClave(nuevos, sel[j], p);
      j := j + 1;
    }
    assert sel[..j] == sel;
  }

  /** After the outer loop has gone through the first `i` orders of the
      day, every selected key is present and holds its occurrences in the
      selection times the series' quantity over those orders. */
  ghost predicate Acumulado(valores: map<string, int>, g: seq<PedidoGuardado>, sel: seq<string>, i: nat)
    requires i <= |g|
  {
    && (forall k :: k in valores <==> i > 0 && k in sel)
    && (forall k :: k in valores ==> valores[k] == Veces(sel, k) * CantidadSerie(g[..i], k))
  }

  lemma Distribuye(m: int, c: int, a: int)
    ensures m * c + m * a == m * (c + a)
  {
  }

  lemma {:induction false} AcumuladoEn(previos: map<string, int>, nuevos: map<string, int>, g: seq<PedidoGuardado>, sel: seq<string>, i: nat, k: string)
    requires i < |g| && Acumulado(previos, g, sel, i)
    requires forall x :: x in nuevos <==> x in previos || x in sel
    requires forall x :: x in nuevos ==>
      nuevos[x] == (if x in previos then previos[x] else 0) + Veces(sel, x) * Aporte(g[i], x)
    requires k in nuevos
    ensures nuevos[k] == Veces(sel, k) * CantidadSerie(g[..i + 1], k)
  {
    var m := Veces(sel, k);
    var c := CantidadSerie(g[..i], k);
    var a := Aporte(g[i], k);
    CantidadSerieAppend(g, i, k);
    if k !in previos {
      assert i == 0;
      assert g[..i] == [];
      assert c == 0;
    }
    Distribuye(m, c, a);
  }

  lemma {:induction false} AcumuladoPaso(previos: map<string, int>, nuevos: map<string, int>, g: seq<PedidoGuardado>, sel: seq<string>, i: nat)
    requires i < |g| && Acumulado(previos, g, sel, i)
    requires forall x :: x in nuevos <==> x in previos || x in sel
    requires forall x :: x in nuevos ==>
      nuevos[x] == (if x in previos then previos[x] else 0) + Veces(sel, x) * Aporte(g[i], x)
    ensures Acumulado(nuevos, g, sel, i + 1)
  {
    forall k | k in nuevos ensures nuevos[k] == Veces(sel, k) * CantidadSerie(g[..i + 1], k) {
      AcumuladoEn(previos, nuevos, g, sel, i, k);
    }
  }

  /** The row for one day as the source builds it: `obj.fecha` from the
      first order, then the inner loop once per order of the day. */
  method FilaDia(g: seq<PedidoGuardado>, sel: seq<string>) returns (fila: Fila)
    requires |g| > 0
    ensures fila.fecha == g[0].fecha
    ensures forall k :: k in fila.valores <==> k in sel
    ensures forall k :: k in fila.valores ==> fila.valores[k] == ValorSerie(g, sel, k)
  {
    var valores: map<string, int> := map[];
    var i := 0;
    while i < |g|
      invariant 0 <= i <= |g|
      invariant Acumulado(valores, g, sel, i)
    {
      var previos := valores;
      valores := SumarPedido(valores, sel, g[i]);
      AcumuladoPaso(previos, valores, g, sel, i);
      i := i + 1;
    }
    assert g[..i] == g;
    fila := Fila(g[0].fecha, valores);
  }

  /** The row a day should get: its date, and for each selected key the
      day's quantity of that series. */
  function FilaEsperada(g: seq<PedidoGuardado>, sel: seq<string>): Fila
    requires |g| > 0
  {
    Fila(g[0].fecha, map k | k in sel :: CantidadSerie(g, k))
  }

  /** `FilaDia` run on the selection with repeated keys removed. */
  method FilaDiaCorregida(g: seq<PedidoGuardado>, sel: seq<string>) returns (fila: Fila)
    requires |g| > 0
    ensures fila == FilaEsperada(g, sel)
  {
    var claves := Distinct(sel);
    fila := FilaDia(g, claves);
    forall k | k in claves ensures multiset(claves)[k] == 1 {
      NoDupCount(claves, k);
    }
    assert fila.valores == FilaEsperada(g, sel).valores;
  }

  function Coincide(k: string): PedidoGuardado -> bool {
    (p: PedidoGuardado) => EsDeSerie(p, k)
  }

  /** A series' quantity is the total `cantidad` of the day's orders whose
      name, with spaces replaced, is the key. */
  lemma {:induction false} CantidadSerieCoincidentes(g: seq<PedidoGuardado>, k: string)
    ensures CantidadSerie(g, k) == SumBy(Filter(g, Coincide(k)), CantidadDe)
    decreases |g|
  {
    if |g| > 0 {
      CantidadSerieCoincidentes(g[1..], k);
    }
  }

  function FilasEsperadas(gs: seq<seq<PedidoGuardado>>, sel: seq<string>): (r: seq<Fila>)
    requires forall i :: 0 <= i < |gs| ==> |gs[i]| > 0
    ensures |r| == |gs|
    ensures forall i :: 0 <= i < |gs| ==> r[i] == FilaEsperada(gs[i], sel)
    decreases |gs|
  {
    if |gs| == 0 then [] else [FilaEsperada(gs[0], sel)] + FilasEsperadas(gs[1..], sel)
  }

  lemma {:induction false} FilasEsperadasSnoc(gs: seq<seq<PedidoGuardado>>, i: nat, sel: seq<string>)
    requires i < |gs| && forall j :: 0 <= j < |gs| ==> |gs[j]| > 0
    ensures FilasEsperadas(gs[..i + 1], sel) == FilasEsperadas(gs[..i], sel) + [FilaEsperada(gs[i], sel)]
  {
    var a := FilasEsperadas(gs[..i + 1], sel);
    var b := FilasEsperadas(gs[..i], sel) + [FilaEsperada(gs[i], sel)];
    assert |a| == |b|;
    forall j | 0 <= j < |a| ensures a[j] == b[j] {
      assert gs[..i + 1][j] == gs[j];
    }
  }

  function FechaDeFila(f: Fila): int {
    f.fecha
  }

  /** The chart data: one row per day of completed orders, built by the
      loops above, then `toSorted` by date ascending. */
  method Filas(pedidos: seq<PedidoGuardado>, sel: seq<string>, dia: int -> int) returns (filas: seq<Fila>)
    ensures filas == SortBy(FilasEsperadas(PorDia(pedidos, dia), sel), FechaDeFila)
  {
    var dias := PorDia(pedidos, dia);
    var hechas: seq<Fila> := [];
    var i := 0;
    while i < |dias|
      invariant 0 <= i <= |dias|
      invariant hechas == FilasEsperadas(dias[..i], sel)
    {
      var fila := FilaDiaCorregida(dias[i], sel);
      FilasEsperadasSnoc(dias, i, sel);
      hechas := hechas + [fila];
      i := i + 1;
    }
    assert dias[..i] == dias;
    filas := SortBy(hechas, FechaDeFila);
  }

  /** A sorted row is the expected row of one of the days. */
  lemma {:induction false} FilaDeUnDia(gs: seq<seq<PedidoGuardado>>, sel: seq<string>, f: Fila)
    requires forall i :: 0 <= i < |gs| ==> |gs[i]| > 0
    requires f in SortBy(FilasEsperadas(gs, sel), FechaDeFila)
    ensures exists i :: 0 <= i < |gs| && f == FilaEsperada(gs[i], sel)
  {
    var e := FilasEsperadas(gs, sel);
    assert f in multiset(SortBy(e, FechaDeFila));
    assert f in e;
    var i :| 0 <= i < |e| && e[i] == f;
    assert f == FilaEsperada(gs[i], sel);
  }

  /** With no key selected, a day's expected row holds only the date. */
  lemma {:induction false} FilaSinSeleccion(g: seq<PedidoGuardado>)
    requires |g| > 0
    ensures FilaEsperada(g, []).valores == map[]
  {
  }

  /** One row per calendar day with completed orders, oldest first, each the
      expected row of its day; with no key selected the rows hold only the
      date. */
  lemma {:induction false} FilasPorDia(s: seq<PedidoGuardado>, sel: seq<string>, dia: int -> int)
    ensures var r := SortBy(FilasEsperadas(PorDia(s, dia), sel), FechaDeFila);
      && |r| == |PorDia(s, dia)|
      && (forall i, j :: 0 <= i < j < |r| ==> r[i].fecha <= r[j].fecha)
      && (forall f :: f in r ==> exists i :: 0 <= i < |PorDia(s, dia)| && f == FilaEsperada(PorDia(s, dia)[i], sel))
      && (sel == [] ==> forall f :: f in r ==> f.valores == map[])
  {
    var gs := PorDia(s, dia);
    var r := SortBy(FilasEsperadas(gs, sel), FechaDeFila);
    forall f | f in r ensures exists i :: 0 <= i < |gs| && f == FilaEsperada(gs[i], sel) {
      FilaDeUnDia(gs, sel, f);
    }
    forall i, j | 0 <= i < j < |r| ensures r[i].fecha <= r[j].fecha {
      assert FechaDeFila(r[i]) <= FechaDeFila(r[j]);
    }
    if sel == [] {
      forall f | f in r ensures f.valores == map[] {
        FilaDeUnDia(gs, sel, f);
        var i :| 0 <= i < |gs| && f == FilaEsperada(gs[i], sel);
        FilaSinSeleccion(gs[i]);
      }
    }
  }

  // ---------------------------------------------------------------------------
  // Repeated keys in the selection

  /** Two products whose names differ only in a space and an underscore. */
  const ConEspacio := PedidoGuardado("a", "a b", 20, 3, Some(true), 0)
  const ConGuion := PedidoGuardado("b", "a_b", 20, 1, Some(true), 0)

  lemma {:induction false} ClavesIguales()
    ensures ReemplazarEspacios("a b") == "a_b"
    ensures ReemplazarEspacios("a_b") == "a_b"
    ensures "a b" != "a_b"
  {
    assert "a b"[1] != "a_b"[1];
  }

  lemma {:induction false} EjemploCompletados()
    ensures Completados([ConEspacio, ConGuion]) == [ConEspacio, ConGuion]
  {
    var g := [ConEspacio, ConGuion];
    assert g[1..] == [ConGuion];
    assert Filter([ConGuion], Completado) == [ConGuion];
  }

  lemma {:induction false} EjemploDistintos()
    ensures Distinct(["a b", "a_b"]) == ["a b", "a_b"]
  {
    ClavesIguales();
    var s := ["a b", "a_b"];
    assert s[1..] == ["a_b"];
    assert Filter(["a_b"], Differs("a b")) == ["a_b"];
    assert Distinct(["a_b"]) == ["a_b"];
  }

  /** Both names are offered ... */
  lemma {:induction false} AmbosDisponibles()
    ensures Disponibles(Some([ConEspacio, ConGuion])) == Some(["a b", "a_b"])
  {
    var g := [ConEspacio, ConGuion];
    EjemploCompletados();
    var nombres := MapKey(g, NombreDe);
    assert nombres[0] == "a b" && nombres[1] == "a_b";
    assert nombres == ["a b", "a_b"];
    EjemploDistintos();
  }

  /** ... the default selection then holds the key "a_b" twice ... */
  lemma {:induction false} SeleccionRepetida()
    ensures SeleccionPorDefecto(Some(["a b", "a_b"])) == Some(["a_b", "a_b"])
  {
    ClavesIguales();
    var d := ["a b", "a_b"];
    var r := MapKey(d, ReemplazarEspacios);
    assert r[0] == ReemplazarEspacios(d[0]) == "a_b";
    assert r[1] == ReemplazarEspacios(d[1]) == "a_b";
    assert r == ["a_b", "a_b"];
  }

  /** ... and with orders for "a b" (3 units) and "a_b" (1 unit)
      on the same day, the loops as written put 8 in that series although
      the day sold 4. */
  lemma {:induction false} SeleccionRepetidaCuentaDoble()
    ensures CantidadSerie([ConEspacio, ConGuion], "a_b") == 4
    ensures ValorSerie([ConEspacio, ConGuion], ["a_b", "a_b"], "a_b") == 8
  {
    ClavesIguales();
    var g := [ConEspacio, ConGuion];
    assert Aporte(ConEspacio, "a_b") == 3;
    assert Aporte(ConGuion, "a_b") == 1;
    assert g[1..] == [ConGuion];
    assert SumBy([ConGuion], AporteA("a_b")) == 1;
    assert multiset(["a_b", "a_b"])["a_b"] == 2;
  }

  /** The corrected row counts every series once, whatever the selection
      repeats. */
  lemma {:induction false} FilaEsperadaSinRepetir(g: seq<PedidoGuardado>, sel: seq<string>, k: string)
    requires |g| > 0 && k in sel
    ensures FilaEsperada(g, sel).valores[k] == CantidadSerie(g, k)
    ensures FilaEsperada(g, sel + sel) == FilaEsperada(g, sel)
  {
  }
}
