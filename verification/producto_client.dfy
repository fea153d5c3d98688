/**
 * What the inventory service can observe of the remote product catalog: for
 * one lookup of a product id, a product, an explicit absence (HTTP 404 or an
 * empty body), or a failure raised as an exception with a message.
 */
module ProductoCatalog {
  import opened Wrappers

  /** `ProductoSimple`: the catalog's view of a product. */
  datatype ProductoSimple = ProductoSimple(id: int, nombre: Option<string>, precio: Option<real>)

  /** The outcome of one call of `obtenerProductoPorId`. */
  datatype CatalogAnswer =
    | Found(producto: ProductoSimple)
    | NotFound
    | Unavailable(message: string)

  /** `existeProducto`: true when the lookup finds the product; a failing lookup stays a failure. */
  function ExisteProducto(answer: CatalogAnswer): (r: Result<bool, string>)
    ensures r == Success(true) <==> answer.Found?
    ensures r == Success(false) <==> answer.NotFound?
    ensures answer.Unavailable? ==> r == Failure(answer.message)
  {
    match answer
    case Found(_) => Success(true)
    case NotFound => Success(false)
    case Unavailable(m) => Failure(m)
  }
}
