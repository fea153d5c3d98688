/**
 * The read side of the inventory service: a stock record combined with the
 * catalog's answer for its product, one record at a time or a page at a time.
 * A catalog that has no such product, or that fails, never aborts the read: it
 * turns into a placeholder name and an unknown price.
 */
module InventarioEnrichment {
  import opened Wrappers
  import opened InventarioEntity
  import opened InventarioConProductoDto
  import opened ProductoCatalog
  import opened JsonApi

  const PRODUCTO_NO_ENCONTRADO := "PRODUCTO NO ENCONTRADO"
  const SERVICIO_NO_DISPONIBLE := "SERVICIO NO DISPONIBLE"

  /** The name and price a view shows for a given catalog answer. */
  predicate ShowsAnswer(d: InventarioConProductoDTO, answer: CatalogAnswer) {
    match answer
    case Found(p) => d.nombreProducto == p.nombre && d.precioProducto == p.precio
    case NotFound => d.nombreProducto == Some(PRODUCTO_NO_ENCONTRADO) && d.precioProducto.None?
    case Unavailable(_) => d.nombreProducto == Some(SERVICIO_NO_DISPONIBLE) && d.precioProducto.None?
  }

  /** The record's own fields, as every view copies them. */
  predicate ShowsRecord(d: InventarioConProductoDTO, inv: Inventario) {
    && d.inventarioId == inv.id
    && d.productoId == inv.productoId
    && d.cantidadEnStock == (if inv.cantidad.Some? then Some(inv.cantidad.value as int) else None)
  }

  function CantidadOf(inv: Inventario): Option<int> {
    if inv.cantidad.Some? then Some(inv.cantidad.value as int) else None
  }

  /**
   * `obtenerInventarioCompletoPorProductoId`: nothing when there is no local
   * record (the answer is then irrelevant: the catalog is not asked); a view
   * of the record and the answer otherwise, whatever the answer is.
   */
  function ObtenerInventarioCompleto(registros: map<int, Inventario>, productoId: int, answer: CatalogAnswer)
    : (r: Option<InventarioConProductoDTO>)
    ensures r.None? <==> productoId !in registros
    ensures r.Some? ==> ShowsRecord(r.value, registros[productoId]) && ShowsAnswer(r.value, answer)
    ensures r.Some? ==> Derived(r.value)
  {
    if productoId !in registros then None
    else
      var inventario := registros[productoId];
      match answer
      case NotFound =>
        Some(NewInventarioConProducto(inventario.id, inventario.productoId, CantidadOf(inventario),
                                      Some(PRODUCTO_NO_ENCONTRADO), None))
      case Found(producto) =>
        Some(NewInventarioConProducto(inventario.id, inventario.productoId, CantidadOf(inventario),
                                      producto.nombre, producto.precio))
      case Unavailable(_) =>
        Some(NewInventarioConProducto(inventario.id, inventario.productoId, CantidadOf(inventario),
                                      Some(SERVICIO_NO_DISPONIBLE), None))
  }

  /** `mapearInventarioCompleto`: the per-record rule of the paged read. */
  function MapearInventarioCompleto(inventario: Inventario, answer: CatalogAnswer): (d: InventarioConProductoDTO)
    ensures ShowsRecord(d, inventario) && ShowsAnswer(d, answer) && Derived(d)
  {
    match answer
    case Found(producto) =>
      NewInventarioConProducto(inventario.id, inventario.productoId, CantidadOf(inventario),
                               producto.nombre, producto.precio)
    case NotFound =>
      NewInventarioConProducto(inventario.id, inventario.productoId, CantidadOf(inventario),
                               Some(PRODUCTO_NO_ENCONTRADO), None)
    case Unavailable(_) =>
      NewInventarioConProducto(inventario.id, inventario.productoId, CantidadOf(inventario),
                               Some(SERVICIO_NO_DISPONIBLE), None)
  }

  /** The single-record read and the per-record rule of the paged read produce the same view. */
  lemma ObtenerAgreesWithMapear(registros: map<int, Inventario>, productoId: int, answer: CatalogAnswer)
    requires productoId in registros
    ensures ObtenerInventarioCompleto(registros, productoId, answer)
         == Some(MapearInventarioCompleto(registros[productoId], answer))
  {
  }

  /**
   * `obtenerTodosLosInventariosCompletos`: the repository's page with each
   * record enriched; `calls(i)` is the catalog's answer to the lookup made for
   * the i-th record of the page.
   */
  function ObtenerTodosLosInventariosCompletos(page: Page<Inventario>, calls: nat -> CatalogAnswer)
    : (r: Page<InventarioConProductoDTO>)
    ensures |r.content| == |page.content|
    ensures forall i :: 0 <= i < |page.content| ==>
      ShowsRecord(r.content[i], page.content[i]) && ShowsAnswer(r.content[i], calls(i)) && Derived(r.content[i])
    ensures r.number == page.number && r.size == page.size && r.totalElements == page.totalElements
    ensures r.totalPages == page.totalPages && r.first == page.first && r.last == page.last
  {
    var r := MapPage(page, (i: nat, inv: Inventario) => MapearInventarioCompleto(inv, calls(i)));
    assert forall i :: 0 <= i < |page.content| ==> r.content[i] == MapearInventarioCompleto(page.content[i], calls(i));
    r
  }

  /** One record's catalog answer has no effect on the view of any other record of the page. */
  lemma PageElementsIndependent(page: Page<Inventario>, calls: nat -> CatalogAnswer, other: nat -> CatalogAnswer, i: nat)
    requires i < |page.content| && calls(i) == other(i)
    ensures ObtenerTodosLosInventariosCompletos(page, calls).content[i]
         == ObtenerTodosLosInventariosCompletos(page, other).content[i]
  {
  }
}
