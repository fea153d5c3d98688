/**
 * The stock record `Inventario`: one row of the `inventario` table, with the
 * Bean Validation constraints declared on its fields.
 */
module InventarioEntity {
  import opened Wrappers
  import opened JavaLang

  /** Every column is nullable in the Java object; the constraints say which may not be. */
  datatype Inventario = Inventario(id: Option<int>, productoId: Option<int>, cantidad: Option<Int32>)

  const PRODUCTO_ID_OBLIGATORIO := "El ID del producto es obligatorio"
  const PRODUCTO_ID_MINIMO := "El ID del producto debe ser mayor a 0"
  const CANTIDAD_OBLIGATORIA := "La cantidad es obligatoria"
  const CANTIDAD_NO_NEGATIVA := "La cantidad no puede ser negativa"

  /**
   * The constraint violations of a record, field by field: `@NotNull` and
   * `@Min(1)` on the product id, `@NotNull` and `@Min(0)` on the quantity.
   * `@Min` accepts a null value, so each field reports at most one violation.
   */
  function Violations(inv: Inventario): (v: seq<string>)
    ensures v == [] <==>
      inv.productoId.Some? && inv.productoId.value >= 1 && inv.cantidad.Some? && inv.cantidad.value >= 0
    ensures inv.productoId.None? ==> PRODUCTO_ID_OBLIGATORIO in v
    ensures inv.productoId.Some? && inv.productoId.value < 1 ==> PRODUCTO_ID_MINIMO in v
    ensures inv.cantidad.None? ==> CANTIDAD_OBLIGATORIA in v
    ensures inv.cantidad.Some? && inv.cantidad.value < 0 ==> CANTIDAD_NO_NEGATIVA in v
    ensures |v| <= 2
  {
    ProductoIdViolations(inv.productoId) + CantidadViolations(inv.cantidad)
  }

  function ProductoIdViolations(productoId: Option<int>): seq<string> {
    match productoId
    case None => [PRODUCTO_ID_OBLIGATORIO]
    case Some(p) => if p < 1 then [PRODUCTO_ID_MINIMO] else []
  }

  function CantidadViolations(cantidad: Option<Int32>): seq<string> {
    match cantidad
    case None => [CANTIDAD_OBLIGATORIA]
    case Some(c) => if c < 0 then [CANTIDAD_NO_NEGATIVA] else []
  }

  predicate IsValid(inv: Inventario) {
    Violations(inv) == []
  }

  /** A quantity of zero is a valid stock level; only negatives are refused. */
  lemma ZeroStockIsValid(id: Option<int>, productoId: int)
    requires productoId >= 1
    ensures IsValid(Inventario(id, Some(productoId), Some(0)))
    ensures !IsValid(Inventario(id, Some(productoId), Some(-1)))
  {
  }
}
