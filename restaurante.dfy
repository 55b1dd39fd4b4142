/** The client-side store (`useRestauranteStore`) as far as it holds the
    list of tables: the initial list and `agregarMesa`, which appends a
    table named after its position. */
module Restaurante {

  /** An order shown on a table card. */
  datatype Orden = Orden(nombre: string, precio: int, cantidad: int)

  datatype Mesa = Mesa(nombre: string, ordenes: seq<Orden>)

  function Digito(d: nat): (c: char)
    requires d < 10
    ensures '0' <= c <= '9'
  {
    ('0' as int + d) as char
  }

  /** A number as a template literal writes it: decimal digits, no leading
      zero. */
  function Decimal(n: nat): (r: string)
    ensures |r| > 0
    ensures forall i :: 0 <= i < |r| ==> '0' <= r[i] <= '9'
    ensures |r| > 1 ==> r[0] != '0'
    decreases n
  {
    if n < 10 then [Digito(n)] else Decimal(n / 10) + [Digito(n % 10)]
  }

  /** The number a string of decimal digits denotes. */
  function Valor(s: string): int
    decreases |s|
  {
    if |s| == 0 then 0 else Valor(s[..|s| - 1]) * 10 + (s[|s| - 1] as int - '0' as int)
  }

  /** Reading back the digits gives the number. */
  lemma {:induction false} ValorDecimal(n: nat)
    ensures Valor(Decimal(n)) == n
    decreases n
  {
    if n >= 10 {
      ValorDecimal(n / 10);
      var r := Decimal(n);
      assert r[..|r| - 1] == Decimal(n / 10);
    }
  }

  /** The name `agregarMesa` gives the `n`-th table. */
  function NombreMesa(n: nat): (r: string)
    ensures |r| > 5 && r[..5] == "Mesa "
    ensures forall i :: 5 <= i < |r| ==> '0' <= r[i] <= '9'
  {
    "Mesa " + Decimal(n)
  }

  /** Different positions give different names. */
  lemma {:induction false} NombreMesaInyectivo(a: nat, b: nat)
    requires NombreMesa(a) == NombreMesa(b)
    ensures a == b
  {
    assert Decimal(a) == NombreMesa(a)[5..];
    assert Decimal(b) == NombreMesa(b)[5..];
    ValorDecimal(a);
    ValorDecimal(b);
  }

  function MesasIniciales(): seq<Mesa> {
    [Mesa("Mesa 1", [Orden("Taco de discada", 15, 2), Orden("Coca Cola 500ml", 20, 1)])]
  }

  /** The list `agregarMesa` leaves behind. */
  function ConMesaNueva(mesas: seq<Mesa>): seq<Mesa> {
    mesas + [Mesa(NombreMesa(|mesas| + 1), [])]
  }

  class Store {
    var mesas: seq<Mesa>

    /** The store as created: one table, "Mesa 1", with two orders. */
    constructor()
      ensures mesas == MesasIniciales()
    {
      mesas := MesasIniciales();
    }

    /** `agregarMesa`: appends an empty table named "Mesa " followed by the
        new number of tables; the tables already there are kept in order. */
    method AgregarMesa()
      modifies this
      ensures mesas == ConMesaNueva(old(mesas))
    {
      var previas := mesas;
      mesas := mesas + [Mesa(NombreMesa(|previas| + 1), [])];
    }
  }

  /** The tables after `k` calls to `agregarMesa` on the initial store. */
  function TrasAgregar(k: nat): seq<Mesa> {
    if k == 0 then MesasIniciales() else ConMesaNueva(TrasAgregar(k - 1))
  }

  /** A call adds exactly one table, at the end, and changes no other. */
  lemma {:induction false} AgregarUna(mesas: seq<Mesa>)
    ensures |ConMesaNueva(mesas)| == |mesas| + 1
    ensures ConMesaNueva(mesas)[..|mesas|] == mesas
    ensures ConMesaNueva(mesas)[|mesas|].ordenes == []
    ensures Valor(ConMesaNueva(mesas)[|mesas|].nombre[5..]) == |mesas| + 1
  {
    ValorDecimal(|mesas| + 1);
    assert ConMesaNueva(mesas)[|mesas|].nombre[5..] == Decimal(|mesas| + 1);
  }

  lemma {:induction false} NombreMesaUno()
    ensures NombreMesa(1) == "Mesa 1"
  {
    assert Decimal(1) == "1";
  }

  /** Tables named "Mesa 1" … "Mesa n" in order have distinct names. */
  lemma {:induction false} NombresDistintos(m: seq<Mesa>)
    requires forall i :: 0 <= i < |m| ==> m[i].nombre == NombreMesa(i + 1)
    ensures forall i, j :: 0 <= i < j < |m| ==> m[i].nombre != m[j].nombre
  {
    forall i, j | 0 <= i < j < |m| ensures m[i].nombre != m[j].nombre {
      if m[i].nombre == m[j].nombre {
        NombreMesaInyectivo(i + 1, j + 1);
      }
    }
  }

  /** After `k` calls the tables are "Mesa 1" … "Mesa k+1" and only the
      first has orders. */
  lemma {:induction false} MesasTrasAgregar(k: nat)
    ensures |TrasAgregar(k)| == k + 1
    ensures forall i :: 0 <= i < k + 1 ==> TrasAgregar(k)[i].nombre == NombreMesa(i + 1)
    ensures forall i :: 1 <= i < k + 1 ==> TrasAgregar(k)[i].ordenes == []
    decreases k
  {
    if k == 0 {
      NombreMesaUno();
    } else {
      MesasTrasAgregar(k - 1);
      var previas := TrasAgregar(k - 1);
      var m := TrasAgregar(k);
      var nueva := Mesa(NombreMesa(k + 1), []);
      assert m == previas + [nueva];
      forall i | 0 <= i < k + 1
        ensures m[i].nombre == NombreMesa(i + 1) && (i >= 1 ==> m[i].ordenes == [])
      {
        if i < k { assert m[i] == previas[i]; } else { assert m[i] == nueva; }
      }
    }
  }

  /** After `k` calls the tables are "Mesa 1" … "Mesa k+1", all names
      distinct, and only the first has orders. */
  lemma {:induction false} NombresTrasAgregar(k: nat)
    ensures |TrasAgregar(k)| == k + 1
    ensures forall i :: 0 <= i < k + 1 ==> TrasAgregar(k)[i].nombre == NombreMesa(i + 1)
    ensures forall i :: 1 <= i < k + 1 ==> TrasAgregar(k)[i].ordenes == []
    ensures forall i, j :: 0 <= i < j < k + 1 ==> TrasAgregar(k)[i].nombre != TrasAgregar(k)[j].nombre
  {
    MesasTrasAgregar(k);
    NombresDistintos(TrasAgregar(k));
  }
}
