# Restaurant point of sale: the order draft and the summaries, in Dafny

This project models the client-side logic of a small restaurant point-of-sale
web client: the order-entry screen where a cashier builds the order of a table,
the completed-sales page and its chart, the expenses page, the store holding
the list of tables, and the table cards on the home page.

At the centre is the **order draft** (`pedidosForm`). It is a sequence of line
items for one table. Items read from the database carry an `id`. Items added
on the screen have no `id` and are tagged NUEVO. Four operations act on it:

- the quantity step `handleProductoPedido`, a six-case rule: the product is
  absent or present, the item is local or stored, and the new quantity is
  ≤ 0 or > 0;
- the reset `handleRestablecerPedido`;
- seeding the draft from the stored orders of the table;
- the submit, which chooses between `agregarPedido` (add) and `editarPedido`
  (edit) and stamps `completado`.

Two revisions of the screen exist. They share the step, the category toggle
and the derived views, and differ in submit and seeding.

Every operation that builds a fresh array in the source is a Dafny function
over `seq`. Each is paired with an independent statement of what it should
do, and a lemma connects the two. Two parts of the source are imperative:

- the per-day chart row, built by nested `forEach` loops that mutate an
  object, is a method with loops;
- the table list of the store, which an action replaces, is a class field
  updated by a method.

Modules, one per source file, plus shared sequence helpers:

- `Secuencias`: JavaScript's `filter`, `map`, `reduce`, `new Set`, `Object.groupBy` + `Object.values`, stable `sort`
- `Catalogo`: category toggle and product grid (both screens)
- `Pedidos`: draft items, the quantity step, total, shown quantity, itemised list (both screens)
- `FormularioPedido`: src/components/FormularioPedido.jsx: reset, submit with `completado`, seeding, badge
- `FormularioMesa`: src/pages/FormularioMesa.jsx: the earlier submit and seeding
- `Ventas`: src/pages/VentasCompletadas.jsx
- `Graficas`: src/components/GraficasVentas.jsx
- `Gastos`: src/pages/Gastos.jsx
- `Restaurante`: src/store/restauranteStore.js
- `CardMesa`: src/components/CardMesa.jsx

Conventions:

- JavaScript truthiness is written out. "Has an `id`" means the `id` is
  present and not the empty string. "Completed" means `completado` is `true`.
- A collection that is not loaded yet (`undefined`) is `None`.
- The calendar day of a timestamp, which the source computes as a locale
  date string, is a parameter `dia: int -> int`.

In two places one might expect different behaviour from what the code does;
the model follows the code:

- **Zero step on a stored item.** One might expect a zero step never to
  change an item's tag. In the code, a zero step on a stored item with a
  positive quantity tags it EDITADO, and on a stored item at 0 it tags it
  BORRADO. `Pedidos.ItemPersistido` states this.
- **Completing an all-zero draft.** One might expect completing a draft with
  no positive quantity to fall back to a plain save. In the code,
  `handleCompletarPedido` always submits with `completado` set to true.
  `FormularioPedido.CompletarSinCantidades` states this.

## Model

| member | source | states |
|---|---|---|
| `Catalogo.AlternarCategoria` | src/components/FormularioPedido.jsx:33-36 | clicking the selected category clears the selection (and only then); any other click selects the clicked category |
| `Catalogo.ProductosVisibles` | src/pages/FormularioMesa.jsx:257 | the grid never shows more products than the catalogue holds, nor a product that is not in it; `Catalogo.ProductosVisiblesCorrecto` states exactly which are shown |
| `Catalogo.ProductosVisiblesCorrecto` | src/pages/FormularioMesa.jsx:257 | with no selection the grid lists every product in catalogue order; otherwise a product is listed iff its `categorias` contain the selected category |
| `Catalogo.DobleClicMuestraTodo` | src/pages/FormularioMesa.jsx:27-30 | two clicks on the same category from no selection return to the full catalogue |
| `Pedidos.Buscar` | src/components/FormularioPedido.jsx:40-42 | `find` by product: the position of the first item with that `idProducto`, or none iff no item has it |
| `Pedidos.Editando` | src/components/FormularioPedido.jsx:120 | `some(p => p.id)` holds iff some item of the draft has an `id` |
| `Pedidos.AplicarCantidad` | src/components/FormularioPedido.jsx:38-112 | `handleProductoPedido` on any draft: a step adds at most one item; the lemmas below give its exact result case by case |
| `Pedidos.OtrosProductosIntactos` | src/components/FormularioPedido.jsx:38-112 | on any draft, duplicates included, a step keeps every item for another product and introduces none |
| `Pedidos.AplicarCantidadSeisCasos` | src/components/FormularioPedido.jsx:38-112 | on a draft with one item per product, the step equals the position-wise six-case rule: absent and ≤ 0 is a no-op; absent and > 0 appends; local is removed or incremented; stored is zeroed as BORRADO or updated as EDITADO |
| `Pedidos.ProductoAusente` | src/components/FormularioPedido.jsx:45-59 | absent product: a step ≤ 0 leaves the draft unchanged; a positive step appends exactly one item at the end with that quantity, the product's name and price, tag NUEVO and no `id`, and earlier items are unchanged |
| `Pedidos.ItemLocal` | src/components/FormularioPedido.jsx:62-81 | on a draft with one item per product, a local item whose new quantity is ≤ 0 is removed and the others keep their order; otherwise only its `cantidad` changes and its tag is kept |
| `Pedidos.ItemPersistido` | src/components/FormularioPedido.jsx:82-109 | on a draft with one item per product, a stored item is never removed: at new quantity ≤ 0 it stays in place with quantity 0 and tag BORRADO, otherwise it takes the sum and tag EDITADO |
| `Pedidos.DuplicadosSiguenAlPrimero` | src/components/FormularioPedido.jsx:40-109 | on any draft, duplicates included, the first item for the product picks the case and it is applied to every item for the product: a local first item dropping to ≤ 0 removes all of them, stored ones included; a stored first item dropping to ≤ 0 sets all of them to 0 as BORRADO; otherwise each one gains the step, tagged EDITADO when the first is stored, every other field kept; items for other products are unchanged |
| `Pedidos.DuplicadoPierdePersistido` | src/components/FormularioPedido.jsx:62-68 | a local item for a product ahead of a stored one for the same product, at quantities 1 and 5: a step of −1 empties the draft, so the stored order is dropped |
| `Pedidos.AplicarCantidadConservaInvariantes` | src/pages/FormularioMesa.jsx:32-106 | on a valid draft (which includes one item per product), every step keeps local quantities > 0, stored quantities ≥ 0 and product ids unique; it never drops a stored item and changes the length by at most one |
| `Pedidos.NuncaVuelveASinCambios` | src/components/FormularioPedido.jsx:38-112 | on any draft, duplicates included, no step introduces the tag SIN_CAMBIOS: an item carrying it afterwards is for a product whose item carried it before |
| `Pedidos.IdaYVuelta` | src/pages/FormularioMesa.jsx:42-63 | for a product not in the draft, +k then −k (in particular +1 then −1) gives back the original draft |
| `Pedidos.CantidadMostrada` | src/pages/FormularioMesa.jsx:301-304 | the shown quantity is the first matching item's quantity, 0 when no item matches, and never negative on a valid draft |
| `Pedidos.CantidadMostradaTrasPaso` | src/components/FormularioPedido.jsx:295-298 | on any draft, duplicates included, after a step the shown quantity is the previous one plus the step, floored at 0, in all six cases |
| `Pedidos.Total` | src/components/FormularioPedido.jsx:336-342 | the "Total" line, Σ precio·cantidad over the draft, is never negative when no price or quantity is; `Pedidos.TotalIgnoraOcultos` and `FormularioPedido.RestablecerTotalCero` relate it to the list and to a reset |
| `Pedidos.ListaVisible` | src/components/FormularioPedido.jsx:316-332 | the itemised list holds exactly the draft's items with a positive quantity and is never longer than the draft |
| `Pedidos.TotalIgnoraOcultos` | src/pages/FormularioMesa.jsx:339-361 | the itemised list drops items with quantity ≤ 0, and with no negative quantity the total over the list equals the total Σ precio·cantidad over the whole draft |
| `FormularioPedido.Restablecer` | src/components/FormularioPedido.jsx:146-155 | a reset never lengthens the draft; `FormularioPedido.RestablecerFiltraYMarca` gives its exact result |
| `FormularioPedido.RestablecerFiltraYMarca` | src/components/FormularioPedido.jsx:146-155 | reset equals keeping the items with an `id`, in order, each set to quantity 0 and tag BORRADO |
| `FormularioPedido.RestablecerMarcaTodo` | src/components/FormularioPedido.jsx:146-155 | after reset, one item remains per stored item; each has an `id`, quantity 0 and tag BORRADO, and comes from a stored item of the draft |
| `FormularioPedido.RestablecerIdempotente` | src/components/FormularioPedido.jsx:146-155 | resetting twice is resetting once |
| `FormularioPedido.RestablecerTotalCero` | src/components/FormularioPedido.jsx:338-341 | after reset the total is 0 and the itemised list is empty |
| `FormularioPedido.RestablecerValido` | src/components/FormularioPedido.jsx:146-155 | reset keeps a valid draft valid (product ids stay unique) |
| `FormularioPedido.RestablecerSinProducto` | src/components/FormularioPedido.jsx:146-155 | a reset never brings in an item for a product the draft did not hold |
| `FormularioPedido.RestablecerUnicos` | src/components/FormularioPedido.jsx:146-155 | a reset keeps at most one item per product, by induction over the draft |
| `FormularioPedido.Enviar` | src/components/FormularioPedido.jsx:114-130 | no call on an empty draft; otherwise the edit path iff some item has an `id`, with every item sent unchanged except `completado` = the flag |
| `FormularioPedido.Completar` | src/components/FormularioPedido.jsx:141-144 | completing sends nothing on an empty draft, else every item with `completado` true |
| `FormularioPedido.CompletarSinCantidades` | src/components/FormularioPedido.jsx:141-144 | a non-empty draft whose quantities are all 0 is still sent, marked completed, on the path its ids select |
| `FormularioPedido.EnviarTrasRestablecer` | src/components/FormularioPedido.jsx:114-155 | submitting right after a reset takes the edit path when the draft had a stored item and sends nothing otherwise |
| `FormularioPedido.Sembrar` | src/components/FormularioPedido.jsx:162-168 | the seed holds exactly the stored orders of this table that are not completed; nothing while the orders are not loaded |
| `FormularioPedido.SembrarEnOrden` | src/components/FormularioPedido.jsx:162-168 | seeding keeps the stored order: it distributes over concatenation and keeps a single order iff it is open and of this table |
| `FormularioPedido.Insignia` | src/components/FormularioPedido.jsx:185-188 | the badge reads "Ocupada" iff the draft is non-empty, else "Libre" |
| `FormularioPedido.InsigniaTrasRestablecer` | src/components/FormularioPedido.jsx:185-188 | after a reset the badge reads "Ocupada" exactly when the draft had a stored item, even though the list is then empty and the total 0 |
| `FormularioMesa.EnviarMesa` | src/pages/FormularioMesa.jsx:108-123 | the draft is sent unchanged with no empty guard: edit path iff some item has an `id`; an empty draft goes to the add path with no items |
| `FormularioMesa.MismoCamino` | src/pages/FormularioMesa.jsx:108-123 | on a non-empty draft both revisions choose the same path and differ only in the `completado` stamp; on an empty one only the earlier revision calls the store |
| `FormularioMesa.SembrarMesa` | src/pages/FormularioMesa.jsx:130-135 | the seed holds exactly the stored orders of this table, completed or not |
| `FormularioMesa.SembrarSinCompletados` | src/pages/FormularioMesa.jsx:130-135 | the current seed is the earlier one with the completed orders filtered out, order kept |
| `Ventas.Ventas` | src/pages/VentasCompletadas.jsx:26-56 | nothing while orders are not loaded; otherwise one entry per day of completed orders, sorted by the negated first date |
| `Ventas.SoloCompletados` | src/pages/VentasCompletadas.jsx:28 | removing an order that is not completed never changes the summary |
| `Ventas.DiasYProductosParticionan` | src/pages/VentasCompletadas.jsx:31-40 | the days split the completed orders, and the product groups split each day: groups are non-empty, keys are distinct, and each group holds every order with its key in input order |
| `Ventas.PedidoEnUnGrupo` | src/pages/VentasCompletadas.jsx:31-40 | every completed order is in some (day, product) group |
| `Ventas.GrupoUnico` | src/pages/VentasCompletadas.jsx:31-40 | no completed order is in two (day, product) groups |
| `Ventas.ProductosEnOrden` | src/pages/VentasCompletadas.jsx:37-40 | within a day, product groups follow the first appearance of each product |
| `Ventas.LineaPorProducto` | src/pages/VentasCompletadas.jsx:43-51 | each line is, for one product, Σ cantidad and Σ precio·cantidad over the day's orders of that product, with the name and date of the first of them |
| `Ventas.DiasMasRecientesPrimero` | src/pages/VentasCompletadas.jsx:53 | every listed day has at least one line, the days come newest first by their first line's date, and they are a reordering of the grouped days |
| `Ventas.VentaTotalDia` | src/pages/VentasCompletadas.jsx:115 | a day's "Venta total" is Σ precio·cantidad over that day's completed orders |
| `Ventas.VacioSinCompletados` | src/pages/VentasCompletadas.jsx:78-82 | the list is empty (empty-state message) iff no order is completed |
| `Ventas.TotalGeneral` | src/pages/VentasCompletadas.jsx:43-53 | the day totals add up to Σ precio·cantidad over all completed orders |
| `Graficas.Disponibles` | src/components/GraficasVentas.jsx:20-26 | available names are the names of completed orders, each exactly once; nothing while orders are not loaded |
| `Graficas.DisponiblesEnOrden` | src/components/GraficasVentas.jsx:25 | available names keep first-occurrence order |
| `Graficas.ReemplazarEspacios` | src/components/GraficasVentas.jsx:65 | `replaceAll(" ", "_")` keeps the length of the name; `Graficas.ReemplazarPorPosicion` states which characters change |
| `Graficas.ReemplazarPorPosicion` | src/components/GraficasVentas.jsx:65 | `replaceAll(" ", "_")` keeps the length and turns exactly the spaces into "_" |
| `Graficas.ReemplazarIdempotente` | src/components/GraficasVentas.jsx:48 | a key has no space, so replacing again changes nothing |
| `Graficas.SeleccionPorDefecto` | src/components/GraficasVentas.jsx:63-66 | the default selection is the available names, position by position, with spaces replaced |
| `Graficas.SumarClave` | src/components/GraficasVentas.jsx:46-50 | for one key and one order, the key is set to 0 if missing and then increased by the order's quantity if the order's name matches |
| `Graficas.SumarPedido` | src/components/GraficasVentas.jsx:45-51 | after the selection loop for one order, every selected key is present and gained the order's contribution once per occurrence of the key in the selection |
| `Graficas.FilaDia` | src/components/GraficasVentas.jsx:40-54 | the day row as written: the date of the first order, exactly the selected keys, each with (occurrences in the selection) × (the day's quantity of that series) |
| `Graficas.FilaDiaCorregida` | src/components/GraficasVentas.jsx:40-54 | the corrected row: the date of the first order, and for each selected key the day's quantity of that series |
| `Graficas.CantidadSerieCoincidentes` | src/components/GraficasVentas.jsx:48-50 | a series value is Σ cantidad over the day's orders whose name, with spaces replaced, equals the key |
| `Graficas.Filas` | src/components/GraficasVentas.jsx:29-59 | the chart data is the expected row of each day of completed orders, sorted by date |
| `Graficas.FilasPorDia` | src/components/GraficasVentas.jsx:31-56 | exactly one row per day with completed orders, oldest first, each the expected row of its day; an empty selection gives rows holding only the date |
| `Graficas.AmbosDisponibles` | src/components/GraficasVentas.jsx:25 | names that differ only in a space and an underscore are both offered |
| `Graficas.SeleccionRepetida` | src/components/GraficasVentas.jsx:65 | the default selection for those two names holds the same key twice |
| `Graficas.SeleccionRepetidaCuentaDoble` | src/components/GraficasVentas.jsx:44-51 | with that selection the loops as written give 8 for a series whose day quantity is 4 |
| `Graficas.FilaEsperadaSinRepetir` | src/components/GraficasVentas.jsx:44-51 | the corrected row gives each selected key its day quantity once, however often the selection repeats it |
| `Gastos.AgruparGastos` | src/pages/Gastos.jsx:58-71 | nothing until expenses are loaded; otherwise the day groups sorted by first date ascending |
| `Gastos.GastosPorDia` | src/pages/Gastos.jsx:62-68 | the groups split the expenses by day (non-empty, input order within a day, one group per day) and come oldest first |
| `Gastos.GastoEnUnDia` | src/pages/Gastos.jsx:62-65 | an expense is in one day group only |
| `Gastos.GastoTotal` | src/pages/Gastos.jsx:158 | a day's "Gasto total", Σ costo over its expenses, is never negative when no cost is |
| `Gastos.TotalDeGastos` | src/pages/Gastos.jsx:158 | the days' "Gasto total" values add up to Σ costo over all expenses |
| `Restaurante.Store.constructor` | src/store/restauranteStore.js:4-20 | the initial store has one table, "Mesa 1", with orders 15×2 and 20×1 |
| `Restaurante.Store.AgregarMesa` | src/store/restauranteStore.js:21-32 | appends one empty table named "Mesa " + (previous count + 1) and keeps the others |
| `Restaurante.NombreMesa` | src/store/restauranteStore.js:28 | a new table's name is "Mesa " followed by decimal digits; `Restaurante.NombreMesaInyectivo` shows different counts give different names |
| `Restaurante.Decimal` | src/store/restauranteStore.js:28 | the number in the template literal is written as decimal digits with no leading zero |
| `Restaurante.ValorDecimal` | src/store/restauranteStore.js:28 | reading back the written digits gives the number |
| `Restaurante.NombreMesaInyectivo` | src/store/restauranteStore.js:28 | different table counts give different names |
| `Restaurante.AgregarUna` | src/store/restauranteStore.js:23-31 | one call adds exactly one table, at the end, with no orders, named after the new count; the earlier tables are unchanged |
| `Restaurante.NombresTrasAgregar` | src/store/restauranteStore.js:21-32 | after k calls from the initial store the tables are "Mesa 1" … "Mesa k+1", the names are distinct, and only the first has orders |
| `CardMesa.EstadoMesa` | src/components/CardMesa.jsx:3-7 | a card reads "Ocupada" iff the table has orders, else "Libre" |
| `CardMesa.VistaPrevia` | src/components/CardMesa.jsx:11 | the preview is the first min(2, n) orders, in order |
| `CardMesa.TotalMesa` | src/components/CardMesa.jsx:18 | a table with no orders totals 0 |
| `CardMesa.TotalIncluyeOcultas` | src/components/CardMesa.jsx:11-18 | the total is the preview's amount plus the amount of the orders the preview leaves out |
| `CardMesa.CardsIniciales` | src/components/CardMesa.jsx:3-18 | the initial table reads "Ocupada", previews both orders and totals 50; a newly added table reads "Libre", previews nothing and totals 0 |
| `Secuencias.Distinct` | src/components/GraficasVentas.jsx:25 | `[...new Set(s)]` has no duplicate, the same members as `s`, and starts with `s[0]` |
| `Secuencias.DistinctFirstOccurrenceOrder` | src/components/GraficasVentas.jsx:25 | `new Set` keeps first-occurrence order |
| `Secuencias.GroupByPartition` | src/pages/VentasCompletadas.jsx:31-34 | `Object.values(Object.groupBy(s, key))` is a partition of `s` by key, with as many groups as distinct keys, the first starting with `s[0]` |
| `Secuencias.GroupByOrder` | src/pages/Gastos.jsx:62-65 | the groups come in order of their keys' first appearance |
| `Secuencias.PartitionSum` | src/pages/VentasCompletadas.jsx:43-52 | adding up per group and then over the groups equals adding up over the whole sequence |
| `Secuencias.SortBy` | src/pages/Gastos.jsx:68 | `sort` by a key returns a sorted permutation of its input |

## Left out

- Database I/O: reads, writes, subscriptions and generated ids in src/firebase.js are not modelled. The store actions `agregarPedido`, `editarPedido`, `borrarMesa`, `editarMesa`, `limpiarVentas`, `agregarGasto` and `borrarGasto` are not part of this model. Submit is modelled only as the choice of action and the items passed; what the database then does with each tag is not modelled.
- Authentication, routing and navigation (`navigate("/")` after a submit), toasts, modals, the table-name editor, and the loading and redirect screens (`mesas.find`, "Cargando...") are left out. They are UI glue.
- The badge of `FormularioPedido` is hidden when the `linea` property is set. `FormularioPedido.Insignia` models only its text.
- React scheduling is left out. The draft is re-seeded whenever the stored orders change, which discards local edits. The model states each operation on its own.
- Dates: the locale date string used as the grouping key is the parameter `dia`. Sorting compares the numeric timestamps, as `new Date(x) - new Date(y)` does. The chart's final `toLocaleDateString` formatting of `fecha` is left out.
- Numbers: `precio`, `cantidad` and `costo` are mathematical integers. JavaScript numbers are doubles, and floating-point rounding is not modelled.
- Gastos.GastoTotal: `costo` comes from a text input and is passed to `agregarGasto`, which is not part of this model. The model assumes it is stored as a number. Stored as text, the `reduce` would concatenate instead of adding.
- `Object.groupBy` followed by `Object.values` is modelled in order of first key occurrence. JavaScript puts array-index-like keys first. The grouping keys here are never such keys: a locale date string always holds a non-digit separator ("/", which is then replaced by "_", or "." or "-" in other locales), and ids are built from `Date.now()` followed by text.
- Graficas.Filas: the selection `productosSeleccionados` is taken as a sequence, and an undefined selection is the empty one (both give rows holding only the date). The effect's early return while orders are not loaded is left out, because `Filas` takes loaded orders. For a product named "fecha" the source's row already has `fecha` defined, so it is not reset to 0, and each matching order adds its quantity to the row's timestamp, shifting the date the row is sorted and labelled by; the model keeps the date and the series apart and does not capture that shift.
- Pedidos.AplicarCantidadSeisCasos, Pedidos.ItemLocal, Pedidos.ItemPersistido, Pedidos.AplicarCantidadConservaInvariantes: these assume a draft with at most one item per product, and no lemma shows that a seeded draft has it. A seed can hold two items for one product: the earlier seed (src/pages/FormularioMesa.jsx:130-135) keeps completed orders next to the open one, and two submits of the same product leave two stored orders. On such a draft the step applies the first item's case to every item for the product, so a stored item can be dropped; `Pedidos.DuplicadosSiguenAlPrimero` and `Pedidos.DuplicadoPierdePersistido` state what happens then. `Pedidos.NuncaVuelveASinCambios`, `Pedidos.CantidadMostradaTrasPaso` and `Pedidos.OtrosProductosIntactos` hold on every draft.
- Graficas.Filas uses the corrected per-day row (see Findings). `Graficas.FilaDia` is the row as written.
- Chart rendering with recharts, the chart type switch and random colours are left out.
- Product and category pages, image compression and upload, and form validation by react-hook-form are left out. They are library behaviour.

## Findings

| source | as written | input that shows it | evidently intended | confidence | as-written member | corrected member |
|---|---|---|---|---|---|---|
| src/components/GraficasVentas.jsx:44-51 | every occurrence of a key in the selection adds each matching order's quantity again, and the default selection (names with spaces replaced, line 65) can hold a key twice | completed orders on one day for "a b" ×3 and "a_b" ×1: both names are offered, the default selection is ["a_b", "a_b"], and the row gets 8 for "a_b" (`Graficas.SeleccionRepetidaCuentaDoble`) | each series shows the day's quantity once: 4 | medium, not executed | `Graficas.FilaDia` | `Graficas.FilaDiaCorregida` |
