/**
 * `ApiResponse` and `ApiResponseBuilder`: the envelope every product endpoint
 * answers with, and the builders that fill it. The envelope's timestamp is a
 * clock read and is not part of the model.
 */
module ApiResponses {
  import opened Wrappers
  import opened JavaLang

  /** What travels in `data` (static type `T`): a list, or any other single object. */
  datatype Payload<T> = ListPayload(items: seq<T>) | ValuePayload(value: T)

  datatype Meta = Meta(
    total: Option<Int32>,
    count: Option<int>,
    page: Option<Int32>,
    pageSize: Option<Int32>,
    additional: Option<map<string, JValue>>)

  /** `new ApiResponse.Meta()`: every field null. */
  const EmptyMeta := Meta(None, None, None, None, None)

  /** `ApiResponse.Error`. */
  datatype ApiError = ApiError(
    code: string,
    title: string,
    detail: Option<string>,
    source: Option<string>,
    meta: Option<map<string, JValue>>)

  datatype ApiResponse<T> = ApiResponse(
    success: bool,
    message: Option<string>,
    data: Option<Payload<T>>,
    meta: Option<Meta>,
    errors: Option<seq<ApiError>>)

  const GENERAL_ERROR := "GENERAL_ERROR"
  const VALIDATION_ERROR := "VALIDATION_ERROR"
  const NOT_FOUND := "NOT_FOUND"
  const DUPLICATE_ERROR := "DUPLICATE_ERROR"
  const TITULO_VALIDACION := "Error de validación"

  /** The body is a failure carrying exactly one error, with no data and no meta. */
  predicate SingleError<T>(r: ApiResponse<T>, code: string, title: string, detail: Option<string>) {
    && !r.success && r.data.None? && r.meta.None?
    && r.errors.Some? && |r.errors.value| == 1
    && r.errors.value[0].code == code && r.errors.value[0].title == title
    && r.errors.value[0].detail == detail && r.errors.value[0].source.None?
  }

  /** `success(message, data)`. */
  function Success<T>(message: Option<string>, data: Option<Payload<T>>): (r: ApiResponse<T>)
    ensures r.success && r.message == message && r.data == data
    ensures r.meta.None? && r.errors.None?
  {
    ApiResponse(true, message, data, None, None)
  }

  /** `success(message, data, total)`: a fresh meta with the total, and the count only when data is a list. */
  method SuccessWithTotal<T>(message: Option<string>, data: Option<Payload<T>>, total: Int32) returns (r: ApiResponse<T>)
    ensures r.success && r.message == message && r.data == data && r.errors.None?
    ensures r.meta.Some? && r.meta.value.total == Some(total)
    ensures r.meta.value.count.Some? <==> data.Some? && data.value.ListPayload?
    ensures r.meta.value.count.Some? ==> r.meta.value.count.value == |data.value.items|
    ensures r.meta.value.page.None? && r.meta.value.pageSize.None? && r.meta.value.additional.None?
  {
    var meta := EmptyMeta;
    meta := meta.(total := Some(total));
    if data.Some? && data.value.ListPayload? {
      meta := meta.(count := Some(|data.value.items|));
    }
    r := ApiResponse(true, message, data, Some(meta), None);
  }

  /** `success(message, data, meta)`. */
  function SuccessWithMeta<T>(message: Option<string>, data: Option<Payload<T>>, meta: Option<Meta>): (r: ApiResponse<T>)
    ensures r.success && r.message == message && r.data == data && r.meta == meta && r.errors.None?
  {
    ApiResponse(true, message, data, meta, None)
  }

  /** `error(message)`: one general error whose detail is the message. */
  function Error<T>(message: Option<string>): (r: ApiResponse<T>)
    ensures SingleError(r, "GENERAL_ERROR", "Error", message)
    ensures r.message == message && r.errors.value[0].meta.None?
  {
    ApiResponse(false, message, None, None, Some([ApiError(GENERAL_ERROR, "Error", message, None, None)]))
  }

  /** `error(code, title, message)`: the envelope's message is the title; the message is the error's detail. */
  function ErrorWithCode<T>(code: string, title: string, message: Option<string>): (r: ApiResponse<T>)
    ensures SingleError(r, code, title, message)
    ensures r.message == Some(title) && r.errors.value[0].meta.None?
  {
    ApiResponse(false, Some(title), None, None, Some([ApiError(code, title, message, None, None)]))
  }

  /** `validationError(message, validationErrors)`: one validation entry per input, in input order. */
  method ValidationError<T>(message: Option<string>, validationErrors: seq<Option<string>>) returns (r: ApiResponse<T>)
    ensures !r.success && r.message == message && r.data.None? && r.meta.None?
    ensures r.errors.Some? && |r.errors.value| == |validationErrors|
    ensures forall i :: 0 <= i < |validationErrors| ==>
      r.errors.value[i] == ApiError(VALIDATION_ERROR, TITULO_VALIDACION, validationErrors[i], None, None)
  {
    var errors: seq<ApiError> := [];
    var i := 0;
    while i < |validationErrors|
      invariant 0 <= i <= |validationErrors|
      invariant |errors| == i
      invariant forall k :: 0 <= k < i ==>
        errors[k] == ApiError(VALIDATION_ERROR, TITULO_VALIDACION, validationErrors[k], None, None)
    {
      errors := errors + [ApiError(VALIDATION_ERROR, TITULO_VALIDACION, validationErrors[i], None, None)];
      i := i + 1;
    }
    r := ApiResponse(false, message, None, None, Some(errors));
  }

  /** `notFound(message, id)`: one NOT_FOUND error whose meta maps "productoId" to the id (null included). */
  function NotFound<T>(message: Option<string>, id: Option<int>): (r: ApiResponse<T>)
    ensures SingleError(r, "NOT_FOUND", "Recurso no encontrado", message) && r.message == message
    ensures r.errors.value[0].meta == Some(map["productoId" := BoxLong(id)])
  {
    ApiResponse(false, message, None, None,
                Some([ApiError(NOT_FOUND, "Recurso no encontrado", message, None, Some(map["productoId" := BoxLong(id)]))]))
  }

  /** `duplicateError(message, nombre)`: one DUPLICATE_ERROR error whose meta maps "nombreProducto" to the name. */
  function DuplicateError<T>(message: Option<string>, nombre: Option<string>): (r: ApiResponse<T>)
    ensures SingleError(r, "DUPLICATE_ERROR", "Recurso duplicado", message) && r.message == message
    ensures r.errors.value[0].meta == Some(map["nombreProducto" := BoxString(nombre)])
  {
    ApiResponse(false, message, None, None,
                Some([ApiError(DUPLICATE_ERROR, "Recurso duplicado", message, None, Some(map["nombreProducto" := BoxString(nombre)]))]))
  }

  /** `createMeta(total, count, page, pageSize)`: exactly those four fields. */
  method CreateMeta(total: Int32, count: Int32, page: Int32, pageSize: Int32) returns (meta: Meta)
    ensures meta.total == Some(total) && meta.count == Some(count as int)
    ensures meta.page == Some(page) && meta.pageSize == Some(pageSize) && meta.additional.None?
  {
    meta := EmptyMeta;
    meta := meta.(total := Some(total));
    meta := meta.(count := Some(count as int));
    meta := meta.(page := Some(page));
    meta := meta.(pageSize := Some(pageSize));
  }

  /** `createMeta(total)`: only the total. */
  method CreateMetaTotal(total: Int32) returns (meta: Meta)
    ensures meta == EmptyMeta.(total := Some(total))
    ensures meta.count.None? && meta.page.None? && meta.pageSize.None? && meta.additional.None?
  {
    meta := EmptyMeta;
    meta := meta.(total := Some(total));
  }
}
