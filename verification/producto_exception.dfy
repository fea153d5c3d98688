/**
 * `ProductoException`: the single exception type of the product service, with
 * a fixed combination of fields per constructor and a `TipoError` the global
 * handler maps to an HTTP status.
 */
module ProductoExceptions {
  import opened Wrappers
  import opened JavaLang
  import opened JavaText

  datatype TipoError = NOT_FOUND | DUPLICADO | VALIDATION_ERROR | GENERAL_ERROR

  /** The exception's message (`getMessage`, possibly null) and its own fields. */
  datatype ProductoException = ProductoException(
    message: Option<string>,
    productoId: Option<int>,
    nombreProducto: Option<string>,
    campo: Option<string>,
    valor: JValue,
    tipoError: TipoError)

  const NO_ENCONTRADO_PREFIJO := "Producto con ID "
  const NO_ENCONTRADO_SUFIJO := " no fue encontrado"
  const DUPLICADO_PREFIJO := "Ya existe un producto con el nombre: "

  /** `ProductoException(Long)`: not found, carrying the id, with the id formatted into the message. */
  function PorId(productoId: Option<int>): (e: ProductoException)
    ensures e.tipoError == NOT_FOUND && e.productoId == productoId
    ensures e.message == Some(NO_ENCONTRADO_PREFIJO + FormatLong(productoId) + NO_ENCONTRADO_SUFIJO)
    ensures e.nombreProducto.None? && e.campo.None? && e.valor == Null
  {
    ProductoException(Some(NO_ENCONTRADO_PREFIJO + FormatLong(productoId) + NO_ENCONTRADO_SUFIJO),
                      productoId, None, None, Null, NOT_FOUND)
  }

  /** `ProductoException(String, boolean)`: a duplicate, whatever the flag says. */
  function PorNombre(nombreProducto: Option<string>, isDuplicado: bool): (e: ProductoException)
    ensures e.tipoError == DUPLICADO && e.nombreProducto == nombreProducto
    ensures e.message == Some(DUPLICADO_PREFIJO + FormatString(nombreProducto))
    ensures e.productoId.None? && e.campo.None? && e.valor == Null
  {
    ProductoException(Some(DUPLICADO_PREFIJO + FormatString(nombreProducto)), None, nombreProducto, None, Null, DUPLICADO)
  }

  /** `ProductoException(String, Object, String)`: a validation error on one field, message verbatim. */
  function DeCampo(campo: Option<string>, valor: JValue, message: Option<string>): (e: ProductoException)
    ensures e.tipoError == VALIDATION_ERROR && e.campo == campo && e.valor == valor && e.message == message
    ensures e.productoId.None? && e.nombreProducto.None?
  {
    ProductoException(message, None, None, campo, valor, VALIDATION_ERROR)
  }

  /** `ProductoException(String)`: a general error with nothing but its message. */
  function General(message: Option<string>): (e: ProductoException)
    ensures e.tipoError == GENERAL_ERROR && e.message == message
    ensures e.productoId.None? && e.nombreProducto.None? && e.campo.None? && e.valor == Null
  {
    ProductoException(message, None, None, None, Null, GENERAL_ERROR)
  }

  /** `ProductoException(String, TipoError)`: exactly the given type, nothing but the message. */
  function ConTipo(message: Option<string>, tipoError: TipoError): (e: ProductoException)
    ensures e.tipoError == tipoError && e.message == message
    ensures e.productoId.None? && e.nombreProducto.None? && e.campo.None? && e.valor == Null
  {
    ProductoException(message, None, None, None, Null, tipoError)
  }

  /** `noEncontrado`. */
  function NoEncontrado(id: Option<int>): (e: ProductoException)
    ensures e == PorId(id)
  {
    PorId(id)
  }

  /** `duplicado`. */
  function Duplicado(nombre: Option<string>): (e: ProductoException)
    ensures e == PorNombre(nombre, true)
  {
    PorNombre(nombre, true)
  }

  /** `validacion(campo, valor, mensaje)`. */
  function Validacion(campo: Option<string>, valor: JValue, mensaje: Option<string>): (e: ProductoException)
    ensures e == DeCampo(campo, valor, mensaje)
  {
    DeCampo(campo, valor, mensaje)
  }

  /** `validacion(mensaje)`: a validation error with no field and no value. */
  function ValidacionMensaje(mensaje: Option<string>): (e: ProductoException)
    ensures e.tipoError == VALIDATION_ERROR && e.message == mensaje
    ensures e.campo.None? && e.valor == Null && e.productoId.None? && e.nombreProducto.None?
  {
    ConTipo(mensaje, VALIDATION_ERROR)
  }

  /** The flag of the name constructor has no effect. */
  lemma DuplicadoIgnoresFlag(nombre: Option<string>)
    ensures PorNombre(nombre, true) == PorNombre(nombre, false)
  {
  }

  /** The not-found message names the id: it can be read back from between the fixed words. */
  lemma NotFoundMessageNamesId(id: int)
    ensures var m := PorId(Some(id)).message.value;
      var n := |m| - |NO_ENCONTRADO_SUFIJO|;
      && |NO_ENCONTRADO_PREFIJO| <= n
      && m[..|NO_ENCONTRADO_PREFIJO|] == NO_ENCONTRADO_PREFIJO
      && m[n..] == NO_ENCONTRADO_SUFIJO
      && IsDecimal(m[|NO_ENCONTRADO_PREFIJO|..n])
      && ParseInt(m[|NO_ENCONTRADO_PREFIJO|..n]) == id
  {
    var digits := IntToString(id);
    var m := PorId(Some(id)).message.value;
    assert m == NO_ENCONTRADO_PREFIJO + digits + NO_ENCONTRADO_SUFIJO;
    assert m[|NO_ENCONTRADO_PREFIJO|..|m| - |NO_ENCONTRADO_SUFIJO|] == digits;
    IntToStringRoundTrip(id);
  }

  /** Different missing ids give different messages. */
  lemma NotFoundMessagesDistinct(a: int, b: int)
    requires a != b
    ensures PorId(Some(a)).message != PorId(Some(b)).message
  {
    if PorId(Some(a)).message == PorId(Some(b)).message {
      NotFoundMessageNamesId(a);
      NotFoundMessageNamesId(b);
    }
  }

  /** The duplicate message names the product. */
  lemma DuplicadoMessageNamesProduct(nombre: string)
    ensures Contains(PorNombre(Some(nombre), true).message.value, nombre)
  {
    var m := PorNombre(Some(nombre), true).message.value;
    assert m == DUPLICADO_PREFIJO + nombre + "";
    ContainsMiddle(DUPLICADO_PREFIJO, nombre, "");
  }
}
