/**
 * `InventarioConProductoDTO`: a stock record enriched with the catalog's name
 * and price, plus the two derived fields, total value and stock tier.
 */
module InventarioConProductoDto {
  import opened Wrappers

  /** The stock tier; `Label` is the text the DTO carries. */
  datatype EstadoStock = SinStock | StockBajo | StockMedio | StockAlto {

    function Label(): string {
      match this
      case SinStock => "SIN_STOCK"
      case StockBajo => "STOCK_BAJO"
      case StockMedio => "STOCK_MEDIO"
      case StockAlto => "STOCK_ALTO"
    }

    /** Position of the tier from empty to plentiful. */
    function Rank(): nat {
      match this
      case SinStock => 0
      case StockBajo => 1
      case StockMedio => 2
      case StockAlto => 3
    }
  }

  /** `determinarEstadoStock`: the tier depends on the quantity alone. */
  function DeterminarEstadoStock(cantidad: Option<int>): (e: EstadoStock)
    ensures e == SinStock <==> cantidad.None? || cantidad.value <= 0
    ensures e == StockBajo <==> cantidad.Some? && 1 <= cantidad.value <= 50
    ensures e == StockMedio <==> cantidad.Some? && 51 <= cantidad.value <= 100
    ensures e == StockAlto <==> cantidad.Some? && cantidad.value > 100
  {
    if cantidad.None? || cantidad.value <= 0 then SinStock
    else if cantidad.value <= 50 then StockBajo
    else if cantidad.value <= 100 then StockMedio
    else StockAlto
  }

  /** A larger stock never falls into a lower tier. */
  lemma EstadoStockMonotone(a: int, b: int)
    requires a <= b
    ensures DeterminarEstadoStock(Some(a)).Rank() <= DeterminarEstadoStock(Some(b)).Rank()
  {
  }

  /** The boundary quantities and the labels they produce. */
  lemma EstadoStockBoundaries()
    ensures DeterminarEstadoStock(None).Label() == "SIN_STOCK"
    ensures DeterminarEstadoStock(Some(-5)).Label() == "SIN_STOCK"
    ensures DeterminarEstadoStock(Some(0)).Label() == "SIN_STOCK"
    ensures DeterminarEstadoStock(Some(1)).Label() == "STOCK_BAJO"
    ensures DeterminarEstadoStock(Some(50)).Label() == "STOCK_BAJO"
    ensures DeterminarEstadoStock(Some(51)).Label() == "STOCK_MEDIO"
    ensures DeterminarEstadoStock(Some(100)).Label() == "STOCK_MEDIO"
    ensures DeterminarEstadoStock(Some(101)).Label() == "STOCK_ALTO"
  {
  }

  datatype InventarioConProductoDTO = InventarioConProductoDTO(
    inventarioId: Option<int>,
    productoId: Option<int>,
    cantidadEnStock: Option<int>,
    nombreProducto: Option<string>,
    precioProducto: Option<real>,
    valorTotalInventario: Option<real>,
    estadoStock: EstadoStock)

  /** The derived fields agree with the copied ones: total = price x quantity when both are known, and the tier of the quantity. */
  predicate Derived(d: InventarioConProductoDTO) {
    && (d.valorTotalInventario.Some? <==> d.precioProducto.Some? && d.cantidadEnStock.Some?)
    && (d.valorTotalInventario.Some? ==>
          d.valorTotalInventario.value == d.precioProducto.value * d.cantidadEnStock.value as real)
    && d.estadoStock == DeterminarEstadoStock(d.cantidadEnStock)
  }

  /** The five-argument constructor, which computes the two derived fields. */
  function NewInventarioConProducto(
    inventarioId: Option<int>, productoId: Option<int>, cantidadEnStock: Option<int>,
    nombreProducto: Option<string>, precioProducto: Option<real>): (d: InventarioConProductoDTO)
    ensures d.inventarioId == inventarioId && d.productoId == productoId
    ensures d.cantidadEnStock == cantidadEnStock
    ensures d.nombreProducto == nombreProducto && d.precioProducto == precioProducto
    ensures d.valorTotalInventario.Some? <==> precioProducto.Some? && cantidadEnStock.Some?
    ensures d.valorTotalInventario.Some? ==>
      d.valorTotalInventario.value == precioProducto.value * cantidadEnStock.value as real
    ensures d.estadoStock == DeterminarEstadoStock(cantidadEnStock)
    ensures Derived(d)
  {
    var total :=
      if precioProducto.Some? && cantidadEnStock.Some?
      then Some(precioProducto.value * cantidadEnStock.value as real)
      else None;
    InventarioConProductoDTO(inventarioId, productoId, cantidadEnStock, nombreProducto, precioProducto,
                             total, DeterminarEstadoStock(cantidadEnStock))
  }

  /** The tier is computed whether or not a price is known, and is the same either way. */
  lemma EstadoStockIgnoresPrice(cantidad: Option<int>, nombre: Option<string>, precio: Option<real>)
    ensures NewInventarioConProducto(None, None, cantidad, nombre, precio).estadoStock
         == NewInventarioConProducto(None, None, cantidad, None, None).estadoStock
  {
  }

  /** Price times quantity is exact decimal arithmetic, not floating point. */
  lemma ExactTotalValue()
    ensures NewInventarioConProducto(Some(1), Some(10), Some(8), Some("Producto Test"), Some(15.75))
              .valorTotalInventario == Some(126.00)
    ensures NewInventarioConProducto(Some(1), Some(10), Some(100), Some("Widget"), Some(50.00))
              .valorTotalInventario == Some(5000.00)
  {
  }
}
