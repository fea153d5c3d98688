/** `CompraResponse`: the summary of a completed purchase. */
module CompraResponseDto {
  import opened Wrappers

  const ESTADO_EXITOSA := "EXITOSA"
  const MENSAJE_COMPRA := "\U{1F6D2} Compra procesada correctamente"

  datatype CompraResponse = CompraResponse(
    inventarioId: Option<int>,
    productoId: Option<int>,
    nombreProducto: Option<string>,
    cantidadComprada: Option<int>,
    cantidadRestante: Option<int>,
    estadoCompra: string,
    mensaje: string)

  /**
   * The five-argument constructor: the arguments are kept as given and the
   * status and message are fixed, whatever the arguments (nulls included).
   */
  function NewCompraResponse(
    inventarioId: Option<int>, productoId: Option<int>, nombreProducto: Option<string>,
    cantidadComprada: Option<int>, cantidadRestante: Option<int>): (c: CompraResponse)
    ensures c.inventarioId == inventarioId && c.productoId == productoId
    ensures c.nombreProducto == nombreProducto
    ensures c.cantidadComprada == cantidadComprada && c.cantidadRestante == cantidadRestante
    ensures c.estadoCompra == "EXITOSA"
    ensures c.mensaje == "\U{1F6D2} Compra procesada correctamente"
  {
    CompraResponse(inventarioId, productoId, nombreProducto, cantidadComprada, cantidadRestante,
                   ESTADO_EXITOSA, MENSAJE_COMPRA)
  }
}
