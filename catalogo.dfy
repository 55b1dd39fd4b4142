/** The product catalogue as the order-entry screens see it: the category
    buttons toggle a selection, and the product grid lists the products of
    the selected category (both revisions of the screen share this code). */
module Catalogo {
  import opened Secuencias

  datatype Producto = Producto(id: string, nombre: string, precio: int, categorias: seq<string>)

  /** `handleCategoriaClick`: clicking the selected category clears the
      selection, clicking any other category selects it. */
  function AlternarCategoria(seleccion: Option<string>, idCategoria: string): (r: Option<string>)
    ensures r == None <==> seleccion == Some(idCategoria)
    ensures r != None ==> r == Some(idCategoria)
  {
    if seleccion == Some(idCategoria) then None else Some(idCategoria)
  }

  function EnCategoria(seleccion: Option<string>): Producto -> bool {
    (p: Producto) => seleccion == None || seleccion.value in p.categorias
  }

  /** The product grid: every product when nothing is selected, otherwise
      those whose `categorias` include the selected category. */
  function ProductosVisibles(productos: seq<Producto>, seleccion: Option<string>): (r: seq<Producto>)
    ensures |r| <= |productos|
    ensures forall p :: p in r ==> p in productos
  {
    Filter(productos, EnCategoria(seleccion))
  }

  lemma {:induction false} ProductosVisiblesCorrecto(productos: seq<Producto>, seleccion: Option<string>)
    ensures seleccion == None ==> ProductosVisibles(productos, seleccion) == productos
    ensures forall p :: p in ProductosVisibles(productos, seleccion) <==>
              p in productos && (seleccion == None || seleccion.value in p.categorias)
  {
    if seleccion == None {
      FilterKeepsAll(productos, EnCategoria(seleccion));
    }
  }

  /** Clicking the same category twice from no selection lists the whole
      catalogue again, in catalogue order. */
  lemma {:induction false} DobleClicMuestraTodo(productos: seq<Producto>, idCategoria: string)
    ensures AlternarCategoria(AlternarCategoria(None, idCategoria), idCategoria) == None
    ensures ProductosVisibles(productos, AlternarCategoria(AlternarCategoria(None, idCategoria), idCategoria)) == productos
  {
    ProductosVisiblesCorrecto(productos, None);
  }
}
