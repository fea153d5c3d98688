/**
 * `GlobalExceptionHandler`: turns what escapes a product endpoint into an
 * HTTP status and an `ApiResponse` body. Every body it builds is a failure.
 */
module GlobalExceptionHandler {
  import opened Wrappers
  import opened JavaLang
  import opened JavaText
  import opened ApiResponses
  import opened ProductoExceptions

  datatype HttpStatus = BAD_REQUEST | NOT_FOUND_STATUS | CONFLICT | INTERNAL_SERVER_ERROR
  {
    function Code(): (c: int)
      ensures 400 <= c < 600
    {
      match this
      case BAD_REQUEST => 400
      case NOT_FOUND_STATUS => 404
      case CONFLICT => 409
      case INTERNAL_SERVER_ERROR => 500
    }
  }

  /** A response entity: a status and a body whose data has static type `Object`. */
  type Respuesta = (HttpStatus, ApiResponse<JValue>)

  /** The development switch of the generic handler, which is hard-wired off. */
  const DESARROLLO := false

  const MENSAJE_INTERNO := "Ha ocurrido un error interno. Por favor contacte al administrador."

  /** `handleProductoException`: the error type decides both the body builder and the status. */
  function HandleProductoException(ex: ProductoException): (r: Respuesta)
    ensures !r.1.success
    ensures ex.tipoError == TipoError.NOT_FOUND ==>
      r == (NOT_FOUND_STATUS, NotFound(ex.message, ex.productoId))
    ensures ex.tipoError == DUPLICADO ==>
      r == (CONFLICT, DuplicateError(ex.message, ex.nombreProducto))
    ensures ex.tipoError == TipoError.VALIDATION_ERROR ==>
      r == (BAD_REQUEST, ErrorWithCode("VALIDATION_ERROR", "Error de validación", ex.message))
    ensures ex.tipoError == TipoError.GENERAL_ERROR ==>
      r == (BAD_REQUEST, ErrorWithCode("GENERAL_ERROR", "Error general", ex.message))
    ensures ex.tipoError in {TipoError.VALIDATION_ERROR, TipoError.GENERAL_ERROR} ==>
      r.1.message == Some(r.1.errors.value[0].title) && r.1.errors.value[0].meta.None?
    ensures r.0.Code() == 400 <==> ex.tipoError == TipoError.VALIDATION_ERROR || ex.tipoError == TipoError.GENERAL_ERROR
  {
    var body: ApiResponse<JValue> := match ex.tipoError
      case NOT_FOUND => NotFound(ex.message, ex.productoId)
      case DUPLICADO => DuplicateError(ex.message, ex.nombreProducto)
      case VALIDATION_ERROR => ErrorWithCode("VALIDATION_ERROR", "Error de validación", ex.message)
      case _ => ErrorWithCode("GENERAL_ERROR", "Error general", ex.message);
    var status := match ex.tipoError
      case NOT_FOUND => NOT_FOUND_STATUS
      case DUPLICADO => CONFLICT
      case VALIDATION_ERROR => BAD_REQUEST
      case _ => BAD_REQUEST;
    (status, body)
  }

  /** The not-found body carries the missing id in its error's meta. */
  lemma NotFoundCarriesId(id: int)
    ensures var r := HandleProductoException(NoEncontrado(Some(id)));
      r.0.Code() == 404 && r.1.errors.value[0].meta.value["productoId"] == LongValue(id)
  {
  }

  /** The duplicate body carries the clashing name in its error's meta. */
  lemma DuplicateCarriesName(nombre: string)
    ensures var r := HandleProductoException(Duplicado(Some(nombre)));
      r.0.Code() == 409 && r.1.errors.value[0].meta.value["nombreProducto"] == StringValue(nombre)
  {
  }

  /** `handleValidationErrors`: 400, with one entry per field error's message, in order. */
  method HandleValidationErrors(fieldErrors: seq<Option<string>>) returns (r: Respuesta)
    ensures r.0 == BAD_REQUEST && !r.1.success
    ensures r.1.message == Some("Errores de validación en los datos enviados")
    ensures r.1.errors.Some? && |r.1.errors.value| == |fieldErrors|
    ensures forall i :: 0 <= i < |fieldErrors| ==>
      r.1.errors.value[i].code == "VALIDATION_ERROR" && r.1.errors.value[i].detail == fieldErrors[i]
  {
    var body := ValidationError<JValue>(Some("Errores de validación en los datos enviados"), fieldErrors);
    r := (BAD_REQUEST, body);
  }

  /** `handleJsonErrors`: 400 with a fixed JSON_ERROR body, whatever the parser said. */
  function HandleJsonErrors(): (r: Respuesta)
    ensures r.0.Code() == 400
    ensures SingleError(r.1, "JSON_ERROR", "Error en formato JSON", Some("El formato del JSON enviado no es válido"))
  {
    (BAD_REQUEST, ErrorWithCode("JSON_ERROR", "Error en formato JSON", Some("El formato del JSON enviado no es válido")))
  }

  const TIPO_PREFIJO := "El parámetro '"
  const TIPO_MEDIO := "' debe ser de tipo "

  /** `handleTypeMismatch`: 400 with one TYPE_MISMATCH error whose detail is built from the parameter and the expected type. */
  function HandleTypeMismatch(parametro: Option<string>, tipoRequerido: string): (r: Respuesta)
    ensures r.0.Code() == 400
    ensures SingleError(r.1, "TYPE_MISMATCH", "Error de tipo de parámetro",
                        Some(TIPO_PREFIJO + FormatString(parametro) + TIPO_MEDIO + tipoRequerido))
  {
    var message := TIPO_PREFIJO + FormatString(parametro) + TIPO_MEDIO + tipoRequerido;
    (BAD_REQUEST, ErrorWithCode("TYPE_MISMATCH", "Error de tipo de parámetro", Some(message)))
  }

  /** The type-mismatch detail names both the offending parameter and the type it should have had. */
  lemma TypeMismatchNamesParameterAndType(parametro: string, tipoRequerido: string)
    ensures var d := HandleTypeMismatch(Some(parametro), tipoRequerido).1.errors.value[0].detail.value;
      Contains(d, parametro) && Contains(d, tipoRequerido)
  {
    var d := HandleTypeMismatch(Some(parametro), tipoRequerido).1.errors.value[0].detail.value;
    assert d == TIPO_PREFIJO + parametro + (TIPO_MEDIO + tipoRequerido);
    ContainsMiddle(TIPO_PREFIJO, parametro, TIPO_MEDIO + tipoRequerido);
    assert d == (TIPO_PREFIJO + parametro + TIPO_MEDIO) + tipoRequerido + "";
    ContainsMiddle(TIPO_PREFIJO + parametro + TIPO_MEDIO, tipoRequerido, "");
  }

  /**
   * `handleGenericException`: 500 with INTERNAL_ERROR. The exception's own
   * message and class name would only be shown in development mode.
   */
  function HandleGenericException(message: Option<string>, className: string): (r: Respuesta)
    ensures r.0.Code() == 500
    ensures SingleError(r.1, "INTERNAL_ERROR", "Error interno del servidor", Some(MENSAJE_INTERNO))
  {
    var detalle := if DESARROLLO then "Error interno: " + FormatString(message) + " (" + className + ")"
                   else MENSAJE_INTERNO;
    (INTERNAL_SERVER_ERROR, ErrorWithCode("INTERNAL_ERROR", "Error interno del servidor", Some(detalle)))
  }

  /** No internal detail leaks: two different exceptions give the same response. */
  lemma GenericHidesException(m1: Option<string>, c1: string, m2: Option<string>, c2: string)
    ensures HandleGenericException(m1, c1) == HandleGenericException(m2, c2)
  {
  }
}
